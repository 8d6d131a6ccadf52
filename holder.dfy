/** RecyclerListAdapter.ItemViewHolder: the row's views and the attributes the holder writes
    on them. The drag-and-drop helper selects the row when a drag or swipe starts, clears it
    when the gesture ends, and reports every horizontal offset in between through
    onChildDraw. */
module Holder {
  import opened Swipe

  /** Color.LTGRAY (0xFFCCCCCC) as the signed 32-bit value a Java int holds. */
  const LightGray: int := -3355444

  /** The background colour 0 (fully transparent) that clears the highlight. */
  const Transparent: int := 0

  /** View.VISIBLE, View.INVISIBLE and View.GONE. */
  datatype Visibility = Visible | Invisible | Gone

  /** Every attribute the holder writes: the front view's background and horizontal translation,
      the back view's visibility, and the translation and rotation of both icons. */
  datatype RowAttributes = RowAttributes(
    frontBackground: int,
    backVisibility: Visibility,
    frontTranslationX: real,
    leftIconTranslationX: real,
    leftIconRotationY: real,
    rightIconTranslationX: real,
    rightIconRotationY: real)

  /** The selected look: grey front, back view (and with it the icons) shown. */
  predicate Highlighted(a: RowAttributes)
  {
    a.frontBackground == LightGray && a.backVisibility == Visible
  }

  /** The idle look: no background colour, back view removed from layout. */
  predicate Plain(a: RowAttributes)
  {
    a.frontBackground == Transparent && a.backVisibility == Gone
  }

  /** The two rows are offset and turned alike. */
  predicate SamePose(a: RowAttributes, b: RowAttributes)
  {
    a.frontTranslationX == b.frontTranslationX &&
    a.leftIconTranslationX == b.leftIconTranslationX &&
    a.leftIconRotationY == b.leftIconRotationY &&
    a.rightIconTranslationX == b.rightIconTranslationX &&
    a.rightIconRotationY == b.rightIconRotationY
  }

  /** Effect of onItemSelected. */
  function Selected(a: RowAttributes): (b: RowAttributes)
    ensures Highlighted(b) && SamePose(a, b)
  {
    a.(frontBackground := LightGray, backVisibility := Visible)
  }

  /** Effect of onItemClear. */
  function Cleared(a: RowAttributes): (b: RowAttributes)
    ensures Plain(b) && SamePose(a, b)
  {
    a.(frontBackground := Transparent, backVisibility := Gone)
  }

  /** The divisions in onChildDraw have a non-zero divisor on the branch that is taken. */
  predicate DrawDefined(dX: real, leftIcon: IconGeometry, rightIcon: IconGeometry, backWidth: int)
  {
    (dX > 0.0 ==> LeftRotationDefined(dX, leftIcon)) &&
    (dX < 0.0 ==> RightRotationDefined(dX, backWidth, rightIcon))
  }

  /** Effect of onChildDraw for a horizontal offset dX: the front view follows dX exactly; a
      swipe to the right poses only the left icon, a swipe to the left only the right icon,
      and no offset poses neither. */
  function Drawn(a: RowAttributes, dX: real, leftIcon: IconGeometry, rightIcon: IconGeometry,
                 backWidth: int): (b: RowAttributes)
    requires DrawDefined(dX, leftIcon, rightIcon, backWidth)
    ensures b.frontTranslationX == dX
    ensures b.frontBackground == a.frontBackground && b.backVisibility == a.backVisibility
    ensures dX <= 0.0 ==> b.leftIconTranslationX == a.leftIconTranslationX && b.leftIconRotationY == a.leftIconRotationY
    ensures dX >= 0.0 ==> b.rightIconTranslationX == a.rightIconTranslationX && b.rightIconRotationY == a.rightIconRotationY
    ensures dX > 0.0 ==> b.leftIconTranslationX <= 0.0 && b.leftIconTranslationX <= dX - leftIcon.right as real
    ensures dX < 0.0 ==> b.rightIconTranslationX >= 0.0
  {
    if dX > 0.0 then
      a.(frontTranslationX := dX,
         leftIconTranslationX := LeftIconTranslation(dX, leftIcon),
         leftIconRotationY := LeftIconRotation(dX, leftIcon))
    else if dX < 0.0 then
      a.(frontTranslationX := dX,
         rightIconTranslationX := RightIconTranslation(dX, backWidth, rightIcon),
         rightIconRotationY := RightIconRotation(dX, backWidth, rightIcon))
    else
      a.(frontTranslationX := dX)
  }

  /** Clearing restores the idle look whatever came before, a selection included. */
  lemma ClearUndoesSelect(a: RowAttributes)
    ensures Cleared(Selected(a)) == Cleared(a)
    ensures Selected(Cleared(a)) == Selected(a)
  {
  }

  /** Selection and swipe feedback write disjoint attributes, so their order does not matter. */
  lemma SelectionIndependentOfSwipe(a: RowAttributes, dX: real, leftIcon: IconGeometry,
                                    rightIcon: IconGeometry, backWidth: int)
    requires DrawDefined(dX, leftIcon, rightIcon, backWidth)
    ensures Drawn(Selected(a), dX, leftIcon, rightIcon, backWidth) == Selected(Drawn(a, dX, leftIcon, rightIcon, backWidth))
    ensures Drawn(Cleared(a), dX, leftIcon, rightIcon, backWidth) == Cleared(Drawn(a, dX, leftIcon, rightIcon, backWidth))
  {
  }

  /** An offset of zero moves the front view back to rest and leaves both icons where the last
      non-zero offset put them: there is no icon reset. */
  lemma ZeroOffsetKeepsIcons(a: RowAttributes, leftIcon: IconGeometry, rightIcon: IconGeometry,
                             backWidth: int)
    ensures DrawDefined(0.0, leftIcon, rightIcon, backWidth)
    ensures Drawn(a, 0.0, leftIcon, rightIcon, backWidth) == a.(frontTranslationX := 0.0)
  {
  }

  /** Within one swipe direction the pose depends only on the latest offset. */
  lemma LatestOffsetWins(a: RowAttributes, d1: real, d2: real, leftIcon: IconGeometry,
                         rightIcon: IconGeometry, backWidth: int)
    requires (d1 > 0.0 && d2 > 0.0) || (d1 < 0.0 && d2 < 0.0)
    requires DrawDefined(d1, leftIcon, rightIcon, backWidth)
    requires DrawDefined(d2, leftIcon, rightIcon, backWidth)
    ensures Drawn(Drawn(a, d1, leftIcon, rightIcon, backWidth), d2, leftIcon, rightIcon, backWidth)
         == Drawn(a, d2, leftIcon, rightIcon, backWidth)
  {
  }

  /** With laid-out icons, a swipe to the right turns the left icon within [-90, 0] and a swipe
      to the left turns the right icon within [0, 90]. */
  lemma DrawnRotationsInRange(a: RowAttributes, dX: real, leftIcon: IconGeometry,
                              rightIcon: IconGeometry, backWidth: int)
    requires LaidOut(leftIcon) && LaidOut(rightIcon)
    ensures DrawDefined(dX, leftIcon, rightIcon, backWidth)
    ensures var b := Drawn(a, dX, leftIcon, rightIcon, backWidth);
      (dX > 0.0 ==> -90.0 <= b.leftIconRotationY <= 0.0) &&
      (dX < 0.0 ==> 0.0 <= b.rightIconRotationY <= 90.0)
  {
  }

  /** The row's views, reduced to the attributes the holder writes. */
  class ItemViewHolder {
    var frontBackground: int
    var backVisibility: Visibility
    var frontTranslationX: real
    var leftIconTranslationX: real
    var leftIconRotationY: real
    var rightIconTranslationX: real
    var rightIconRotationY: real

    /** The current attributes of the row's views. */
    function Attributes(): RowAttributes
      reads this
    {
      RowAttributes(frontBackground, backVisibility, frontTranslationX,
                    leftIconTranslationX, leftIconRotationY,
                    rightIconTranslationX, rightIconRotationY)
    }

    /** Binds the holder to freshly inflated views, whose attributes the layout decides. */
    constructor (inflated: RowAttributes)
      ensures Attributes() == inflated
    {
      frontBackground := inflated.frontBackground;
      backVisibility := inflated.backVisibility;
      frontTranslationX := inflated.frontTranslationX;
      leftIconTranslationX := inflated.leftIconTranslationX;
      leftIconRotationY := inflated.leftIconRotationY;
      rightIconTranslationX := inflated.rightIconTranslationX;
      rightIconRotationY := inflated.rightIconRotationY;
    }

    /** Highlights the row and reveals the back view when a drag or swipe starts. */
    method OnItemSelected()
      modifies this
      ensures Highlighted(Attributes())
      ensures Attributes() == Selected(old(Attributes()))
    {
      frontBackground := LightGray;
      backVisibility := Visible;
    }

    /** Returns the row to the idle look when the gesture ends. */
    method OnItemClear()
      modifies this
      ensures Plain(Attributes())
      ensures Attributes() == Cleared(old(Attributes()))
    {
      frontBackground := Transparent;
      backVisibility := Gone;
    }

    /** Applies one offset sample. dY, actionState and isCurrentlyActive are accepted and
        ignored; the icon and back-view geometry stand in for the views' layout getters. */
    method OnChildDraw(dX: real, dY: real, actionState: int, isCurrentlyActive: bool,
                       leftIcon: IconGeometry, rightIcon: IconGeometry, backWidth: int)
      requires DrawDefined(dX, leftIcon, rightIcon, backWidth)
      modifies this
      ensures Attributes() == Drawn(old(Attributes()), dX, leftIcon, rightIcon, backWidth)
    {
      frontTranslationX := dX;
      if dX > 0.0 {
        leftIconTranslationX := LeftIconTranslation(dX, leftIcon);
        if dX > leftIcon.left as real {
          leftIconRotationY := LeftIconTranslation(dX, leftIcon) / leftIcon.Width() as real * 90.0;
        } else {
          leftIconRotationY := -90.0;
        }
      } else if dX < 0.0 {
        rightIconTranslationX := RightIconTranslation(dX, backWidth, rightIcon);
        if -dX > Margin(backWidth, rightIcon) as real {
          rightIconRotationY := RightIconTranslation(dX, backWidth, rightIcon) / rightIcon.Width() as real * 90.0;
        } else {
          rightIconRotationY := 90.0;
        }
      }
    }
  }
}
