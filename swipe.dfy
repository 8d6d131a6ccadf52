/** The "flip reveal" offsets that ItemViewHolder.onChildDraw computes for the two icons
    behind a row while the row is swiped horizontally by dX pixels (positive = to the right).
    The left icon is uncovered by a swipe to the right, the right icon by a swipe to the left;
    each icon turns about its vertical axis from edge-on (-90 or 90 degrees) to face-on (0). */
module Swipe {

  /** Layout bounds of an icon view in pixels, relative to its parent: the values of
      getLeft() and getRight(). */
  datatype IconGeometry = IconGeometry(left: int, right: int) {
    /** getWidth(): the distance between the two edges. */
    function Width(): int
    {
      right - left
    }
  }

  /** A laid-out, non-empty view. */
  predicate LaidOut(icon: IconGeometry)
  {
    icon.Width() > 0
  }

  // ---------------------------------------------------------------------------
  // Left icon (dX > 0)
  // ---------------------------------------------------------------------------

  /** Math.min(0, dX - right): the left icon slides out with the row but never past its
      resting place. */
  function LeftIconTranslation(dX: real, icon: IconGeometry): (t: real)
    ensures t <= 0.0 && t <= dX - icon.right as real
    ensures t == 0.0 || t == dX - icon.right as real
  {
    if dX - icon.right as real < 0.0 then dX - icon.right as real else 0.0
  }

  /** The rotation divides by the icon's width only once the row has passed its left edge. */
  predicate LeftRotationDefined(dX: real, icon: IconGeometry)
  {
    dX > icon.left as real ==> icon.Width() != 0
  }

  /** Pinned edge-on (-90) until the row passes the icon's left edge, then proportional to
      the translation. */
  function LeftIconRotation(dX: real, icon: IconGeometry): (rot: real)
    requires LeftRotationDefined(dX, icon)
    ensures dX <= icon.left as real ==> rot == -90.0
    ensures LaidOut(icon) ==> -90.0 <= rot <= 0.0
  {
    if dX > icon.left as real then
      var t, w := LeftIconTranslation(dX, icon), icon.Width() as real;
      assert LaidOut(icon) ==> -90.0 <= t / w * 90.0 <= 0.0 by {
        if LaidOut(icon) { ScaledQuotientRange(t, w); }
      }
      t / w * 90.0
    else -90.0
  }

  /** Between the icon's two edges the rotation is a linear ramp that starts at -90 on the left
      edge (so it joins the pinned value without a jump) and reaches 0 on the right edge. */
  lemma LeftRotationRamp(dX: real, icon: IconGeometry)
    requires LaidOut(icon)
    requires icon.left as real < dX <= icon.right as real
    ensures LeftIconRotation(dX, icon) == -90.0 + (dX - icon.left as real) / icon.Width() as real * 90.0
  {
    var w := icon.Width() as real;
    var t := dX - icon.right as real;
    assert LeftIconTranslation(dX, icon) == t;
    assert dX - icon.left as real == t + w;
    QuotientShift(t, w);
  }

  /** Adding the divisor to the dividend adds one to the quotient. */
  lemma QuotientShift(t: real, w: real)
    requires w > 0.0
    ensures (t + w) / w == t / w + 1.0
  {
    var q, p := t / w, (t + w) / w;
    assert q * w == t;
    assert p * w == t + w;
    var d := p - q - 1.0;
    assert d * w == 0.0;
    if d > 0.0 {
      assert false;
    } else if d < 0.0 {
      assert false;
    }
  }

  /** Once the row has passed the icon's right edge the icon is at rest and face-on. */
  lemma LeftIconSaturates(dX: real, icon: IconGeometry)
    requires LaidOut(icon)
    requires dX >= icon.right as real
    ensures LeftIconTranslation(dX, icon) == 0.0
    ensures LeftIconRotation(dX, icon) == 0.0
  {
  }

  /** A quotient by a positive divisor keeps the order of the dividends. */
  lemma QuotientMonotone(a: real, b: real, w: real)
    requires a <= b && w > 0.0
    ensures a / w <= b / w
  {
    assert b / w - a / w == (b - a) / w;
  }

  /** A value within one divisor of zero, divided by it and scaled to degrees, is within a
      quarter turn of zero and keeps its sign. */
  lemma ScaledQuotientRange(t: real, w: real)
    requires w > 0.0 && -w <= t <= w
    ensures -90.0 <= t / w * 90.0 <= 90.0
    ensures t <= 0.0 ==> t / w * 90.0 <= 0.0
    ensures t >= 0.0 ==> t / w * 90.0 >= 0.0
  {
    QuotientMonotone(-w, t, w);
    QuotientMonotone(t, w, w);
    if t <= 0.0 {
      QuotientMonotone(t, 0.0, w);
    } else {
      QuotientMonotone(0.0, t, w);
    }
  }

  /** Dragging further right never turns the left icon back towards edge-on. */
  lemma LeftRotationMonotone(d1: real, d2: real, icon: IconGeometry)
    requires LaidOut(icon)
    requires d1 <= d2
    ensures LeftIconRotation(d1, icon) <= LeftIconRotation(d2, icon)
  {
    var l, r := icon.left as real, icon.right as real;
    if d1 <= l {
    } else if d2 > r {
      LeftIconSaturates(d2, icon);
    } else {
      LeftRotationRamp(d1, icon);
      LeftRotationRamp(d2, icon);
      QuotientMonotone(d1 - l, d2 - l, icon.Width() as real);
    }
  }

  // ---------------------------------------------------------------------------
  // Right icon (dX < 0)
  // ---------------------------------------------------------------------------

  /** Gap between the right icon's right edge and the right edge of the back view
      (backView.getWidth() - rightIcon.getRight(), integer arithmetic in the source). */
  function Margin(backWidth: int, icon: IconGeometry): (margin: int)
    ensures 0 <= icon.left && LaidOut(icon) && icon.right <= backWidth ==> 0 <= margin <= backWidth - icon.Width()
  {
    backWidth - icon.right
  }

  /** Math.max(0, dX + width + margin): the right icon slides out with the row but never past
      its resting place. */
  function RightIconTranslation(dX: real, backWidth: int, icon: IconGeometry): (t: real)
    ensures t >= 0.0 && t >= dX + icon.Width() as real + Margin(backWidth, icon) as real
    ensures t == 0.0 || t == dX + icon.Width() as real + Margin(backWidth, icon) as real
  {
    var x := dX + icon.Width() as real + Margin(backWidth, icon) as real;
    if x > 0.0 then x else 0.0
  }

  /** The rotation divides by the icon's width only once the row has moved further left
      than the margin. */
  predicate RightRotationDefined(dX: real, backWidth: int, icon: IconGeometry)
  {
    -dX > Margin(backWidth, icon) as real ==> icon.Width() != 0
  }

  /** Pinned edge-on (90) while the row has moved no further left than the margin, then
      proportional to the translation. */
  function RightIconRotation(dX: real, backWidth: int, icon: IconGeometry): (rot: real)
    requires RightRotationDefined(dX, backWidth, icon)
    ensures -dX <= Margin(backWidth, icon) as real ==> rot == 90.0
    ensures LaidOut(icon) ==> 0.0 <= rot <= 90.0
  {
    if -dX > Margin(backWidth, icon) as real then
      var t, w := RightIconTranslation(dX, backWidth, icon), icon.Width() as real;
      assert LaidOut(icon) ==> 0.0 <= t / w * 90.0 <= 90.0 by {
        if LaidOut(icon) { ScaledQuotientRange(t, w); }
      }
      t / w * 90.0
    else 90.0
  }

  /** The right icon as seen in a mirror: its geometry measured from the right edge of the
      back view instead of the left. */
  function Mirror(backWidth: int, icon: IconGeometry): (m: IconGeometry)
    ensures m.left == Margin(backWidth, icon) && m.Width() == icon.Width()
    ensures LaidOut(icon) ==> LaidOut(m)
  {
    IconGeometry(backWidth - icon.right, backWidth - icon.left)
  }

  /** The right-icon policy is exactly the left-icon policy reflected: a swipe of dX to the left
      moves and turns the right icon as a swipe of -dX to the right moves and turns the mirrored
      icon, with opposite signs. */
  lemma RightMirrorsLeft(dX: real, backWidth: int, icon: IconGeometry)
    requires LaidOut(icon)
    ensures RightIconTranslation(dX, backWidth, icon) == -LeftIconTranslation(-dX, Mirror(backWidth, icon))
    ensures RightRotationDefined(dX, backWidth, icon) && LeftRotationDefined(-dX, Mirror(backWidth, icon))
    ensures RightIconRotation(dX, backWidth, icon) == -LeftIconRotation(-dX, Mirror(backWidth, icon))
  {
    var m := Mirror(backWidth, icon);
    var t := RightIconTranslation(dX, backWidth, icon);
    assert t == -LeftIconTranslation(-dX, m);
    if -dX > Margin(backWidth, icon) as real {
      var w := icon.Width() as real;
      assert (-t) / w * 90.0 == -(t / w * 90.0);
    }
  }

  /** Once the row has moved left past the icon's far edge the icon is at rest and face-on. */
  lemma RightIconSaturates(dX: real, backWidth: int, icon: IconGeometry)
    requires LaidOut(icon)
    requires dX <= -(icon.Width() + Margin(backWidth, icon)) as real
    ensures RightIconTranslation(dX, backWidth, icon) == 0.0
    ensures RightRotationDefined(dX, backWidth, icon)
    ensures RightIconRotation(dX, backWidth, icon) == 0.0
  {
    RightMirrorsLeft(dX, backWidth, icon);
    LeftIconSaturates(-dX, Mirror(backWidth, icon));
  }

  /** Dragging further left never turns the right icon back towards edge-on. */
  lemma RightRotationMonotone(d1: real, d2: real, backWidth: int, icon: IconGeometry)
    requires LaidOut(icon)
    requires d1 <= d2
    ensures RightRotationDefined(d1, backWidth, icon) && RightRotationDefined(d2, backWidth, icon)
    ensures RightIconRotation(d1, backWidth, icon) <= RightIconRotation(d2, backWidth, icon)
  {
    RightMirrorsLeft(d1, backWidth, icon);
    RightMirrorsLeft(d2, backWidth, icon);
    LeftRotationMonotone(-d2, -d1, Mirror(backWidth, icon));
  }
}
