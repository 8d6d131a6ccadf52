# RecyclerListAdapter, modelled in Dafny

The demo app's `RecyclerListAdapter` backs a list where rows can be dragged to reorder them and
swiped away to dismiss them. This project models three parts of it:

- **The item store** (`adapter.dfy`, module `Adapter`). The adapter keeps an ordered list of
  display strings. A move exchanges two slots (`Collections.swap`), and a dismiss removes one
  slot (`List.remove`). Each change is announced to the list view. The class
  `RecyclerListAdapter` has the list as a `seq<string>` field. It also has a second field that
  records the `ItemMoved` / `ItemRemoved` notifications in the order they were sent. The
  functions `Swap` and `RemoveAt` specify the two mutations.
- **The swipe feedback policy** (`swipe.dfy`, module `Swipe`). `onChildDraw` turns a
  horizontal offset `dX` into a translation and a rotation for the left icon (swipe to the
  right) or for the right icon (swipe to the left). Each icon slides out with the row without
  passing its resting place. It turns from edge-on (±90°) to face-on (0°). These are pure
  functions over `real`. The views' layout getters become `IconGeometry` values and a
  back-view width passed as parameters. An icon's width is derived from its two edges, as
  `getWidth()` is. The lemmas prove:
  - the clamps;
  - the rotation ranges;
  - the rotation is monotone in `dX`;
  - the rotation ramps linearly from the pinned value, so there is no jump at the edge;
  - the right-icon policy is the left-icon policy seen in a mirror.
- **The view holder** (`holder.dfy`, module `Holder`). `ItemViewHolder` is a class whose fields
  are the attributes the holder writes: the front background colour, the back view's visibility,
  and the translations and rotations. `onItemSelected`, `onItemClear` and `onChildDraw` are
  methods. Each is specified by a pure function on `RowAttributes` (`Selected`, `Cleared`,
  `Drawn`). Lemmas relate those functions to each other.

Some constants and choices:

- `Color.LTGRAY` is `0xFFCCCCCC`. As a Java `int` this is `-3355444`.
- The clearing colour is `0`.
- Visibility is `Visible`, `Invisible` or `Gone`.
- An out-of-range index is a `requires` on the index. In Java it makes the library throw.
- The rotation divides by the icon width. A `requires` asks for a non-zero width only on the
  branch that divides.

## Model

| member | source | states |
|---|---|---|
| `Adapter.Swap` | app/src/main/java/co/paulburke/android/itemtouchhelperdemo/RecyclerListAdapter.java:88 | the two slots exchange their elements, every other slot keeps its element, and the length is unchanged |
| `Adapter.RemoveAt` | app/src/main/java/co/paulburke/android/itemtouchhelperdemo/RecyclerListAdapter.java:82 | the list shrinks by one; elements before the position stay in place; elements after it move down by one, in order |
| `Adapter.SwapInvolution` | app/src/main/java/co/paulburke/android/itemtouchhelperdemo/RecyclerListAdapter.java:88 | repeating the same move restores the original list |
| `Adapter.SwapSymmetric` | app/src/main/java/co/paulburke/android/itemtouchhelperdemo/RecyclerListAdapter.java:88 | moving from i to j gives the same list as moving from j to i |
| `Adapter.SwapPermutes` | app/src/main/java/co/paulburke/android/itemtouchhelperdemo/RecyclerListAdapter.java:88 | a move keeps the multiset of items: nothing is lost or duplicated |
| `Adapter.RemoveAtDropsOne` | app/src/main/java/co/paulburke/android/itemtouchhelperdemo/RecyclerListAdapter.java:82 | a dismiss removes exactly one occurrence of the dismissed item and keeps every other item |
| `Adapter.RecyclerListAdapter.constructor` | app/src/main/java/co/paulburke/android/itemtouchhelperdemo/RecyclerListAdapter.java:52-55 | the list holds exactly the initial strings, in order, and no notification has been sent |
| `Adapter.RecyclerListAdapter.OnItemDismiss` | app/src/main/java/co/paulburke/android/itemtouchhelperdemo/RecyclerListAdapter.java:81-84 | the list becomes `RemoveAt` of the old list, and exactly one `ItemRemoved(position)` is appended to the notifications |
| `Adapter.RecyclerListAdapter.OnItemMove` | app/src/main/java/co/paulburke/android/itemtouchhelperdemo/RecyclerListAdapter.java:87-91 | returns true; the list becomes `Swap` of the old list; exactly one `ItemMoved(from, to)` with the same indices is appended |
| `Adapter.RecyclerListAdapter.GetItemCount` | app/src/main/java/co/paulburke/android/itemtouchhelperdemo/RecyclerListAdapter.java:94-96 | the count is the current length of the list |
| `Swipe.LeftIconTranslation` | app/src/main/java/co/paulburke/android/itemtouchhelperdemo/RecyclerListAdapter.java:140 | the translation is the minimum of 0 and `dX - right`: it is never positive and never exceeds `dX - right`, and it equals one of them |
| `Swipe.LeftRotationRamp` | app/src/main/java/co/paulburke/android/itemtouchhelperdemo/RecyclerListAdapter.java:141-145 | between the icon's edges the rotation is `-90 + (dX - left) / width * 90`. It joins the pinned -90 at the left edge and reaches 0 at the right edge |
| `Swipe.LeftIconSaturates` | app/src/main/java/co/paulburke/android/itemtouchhelperdemo/RecyclerListAdapter.java:140-142 | once `dX >= right`, the left icon's translation and rotation are both 0 |
| `Swipe.LeftIconRotation` | app/src/main/java/co/paulburke/android/itemtouchhelperdemo/RecyclerListAdapter.java:141-145 | the left rotation is pinned to -90 while `dX <= left`; for a laid-out icon it always lies within [-90, 0] |
| `Swipe.LeftRotationMonotone` | app/src/main/java/co/paulburke/android/itemtouchhelperdemo/RecyclerListAdapter.java:141-145 | a larger `dX` never gives a smaller left rotation |
| `Swipe.Margin` | app/src/main/java/co/paulburke/android/itemtouchhelperdemo/RecyclerListAdapter.java:147 | the margin is `backView.getWidth() - rightIcon.getRight()`, the local variable `OnChildDraw` and `RightIconTranslation` share. For a laid-out icon that lies inside the back view, the margin is never negative and leaves room for the icon's width: `0 <= margin <= backWidth - width` |
| `Swipe.RightIconTranslation` | app/src/main/java/co/paulburke/android/itemtouchhelperdemo/RecyclerListAdapter.java:147-148 | the translation is the maximum of 0 and `dX + width + margin`, where margin = back width - right: it is never negative |
| `Swipe.RightMirrorsLeft` | app/src/main/java/co/paulburke/android/itemtouchhelperdemo/RecyclerListAdapter.java:139-153 | the right icon's translation and rotation at `dX` are the negated left-policy values at `-dX`, for the icon reflected about the back view's right edge. The divisions are defined on the same inputs |
| `Swipe.RightIconRotation` | app/src/main/java/co/paulburke/android/itemtouchhelperdemo/RecyclerListAdapter.java:149-153 | the right rotation is pinned to 90 while `-dX <= margin`; for a laid-out icon it always lies within [0, 90] |
| `Swipe.RightIconSaturates` | app/src/main/java/co/paulburke/android/itemtouchhelperdemo/RecyclerListAdapter.java:147-150 | once `dX <= -(width + margin)`, the right icon's translation and rotation are both 0 |
| `Swipe.RightRotationMonotone` | app/src/main/java/co/paulburke/android/itemtouchhelperdemo/RecyclerListAdapter.java:146-153 | a smaller (more negative) `dX` never gives a larger right rotation |
| `Holder.Selected` | app/src/main/java/co/paulburke/android/itemtouchhelperdemo/RecyclerListAdapter.java:123-126 | after selection the front is light grey and the back view is visible; every translation and rotation is unchanged |
| `Holder.Cleared` | app/src/main/java/co/paulburke/android/itemtouchhelperdemo/RecyclerListAdapter.java:129-132 | after clearing, the background is 0 and the back view is gone; every translation and rotation is unchanged |
| `Holder.Drawn` | app/src/main/java/co/paulburke/android/itemtouchhelperdemo/RecyclerListAdapter.java:135-155 | the front translation equals `dX`, and selection attributes are untouched. Only a positive `dX` touches the left icon, with a translation that is never positive. Only a negative `dX` touches the right icon, with a translation that is never negative |
| `Holder.ClearUndoesSelect` | app/src/main/java/co/paulburke/android/itemtouchhelperdemo/RecyclerListAdapter.java:122-132 | clearing after selecting is the same as clearing, and selecting after clearing is the same as selecting: the previous state does not matter |
| `Holder.SelectionIndependentOfSwipe` | app/src/main/java/co/paulburke/android/itemtouchhelperdemo/RecyclerListAdapter.java:122-155 | selecting or clearing commutes with drawing an offset |
| `Holder.ZeroOffsetKeepsIcons` | app/src/main/java/co/paulburke/android/itemtouchhelperdemo/RecyclerListAdapter.java:138-154 | at `dX == 0` only the front translation changes, to 0; neither icon is reset |
| `Holder.LatestOffsetWins` | app/src/main/java/co/paulburke/android/itemtouchhelperdemo/RecyclerListAdapter.java:138-154 | for two offsets with the same sign, drawing both gives the same result as drawing only the second |
| `Holder.DrawnRotationsInRange` | app/src/main/java/co/paulburke/android/itemtouchhelperdemo/RecyclerListAdapter.java:139-153 | with laid-out icons every offset can be drawn. A right swipe leaves the left icon within [-90, 0], and a left swipe leaves the right icon within [0, 90] |
| `Holder.ItemViewHolder.constructor` | app/src/main/java/co/paulburke/android/itemtouchhelperdemo/RecyclerListAdapter.java:112-120 | the holder starts with the attributes of the inflated views |
| `Holder.ItemViewHolder.OnItemSelected` | app/src/main/java/co/paulburke/android/itemtouchhelperdemo/RecyclerListAdapter.java:122-126 | the row is highlighted, and the new attributes are `Selected` of the old ones |
| `Holder.ItemViewHolder.OnItemClear` | app/src/main/java/co/paulburke/android/itemtouchhelperdemo/RecyclerListAdapter.java:128-132 | the row is plain, and the new attributes are `Cleared` of the old ones |
| `Holder.ItemViewHolder.OnChildDraw` | app/src/main/java/co/paulburke/android/itemtouchhelperdemo/RecyclerListAdapter.java:134-155 | the new attributes are `Drawn` of the old ones for this offset and geometry |

## Left out

- View inflation and binding (`onCreateViewHolder`, `onBindViewHolder`): Android framework plumbing.
- The handle's touch listener that calls `onStartDrag`: event dispatch to a collaborator.
- Loading the initial strings from resources. The constructor takes them as a parameter.
- The drag-start listener the constructor stores. It is used only by the touch listener.
- What the list view does with `notifyItemMoved` and `notifyItemRemoved`. They are recorded as notifications and nothing more.
- The views' layout. The icons' `getLeft` and `getRight` and the back view's `getWidth` are parameters; an icon's `getWidth` is derived from its edges.
- Out-of-range positions for a move or a dismiss. There the Java library throws. The model requires valid positions instead of modelling the exception.
- Float rounding. Offsets and rotations are exact `real` values.
- 32-bit overflow of the `int` view coordinates and of the margin. Pixel positions and widths are unbounded integers.
- Division by a zero icon width. In Java float arithmetic this gives an infinite or NaN rotation. The model requires a non-zero width on the branch that divides.
- The commented-out alpha fade. It is dead code.
