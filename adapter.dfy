/** The item store of RecyclerListAdapter: an ordered list of display strings that the
    drag-and-drop helper reorders (one swap per move) and shrinks (one removal per dismiss).
    Each change is announced to the list view; the model records those announcements in
    order instead of redrawing anything. */
module Adapter {

  /** The change notifications the adapter sends to the list view. */
  datatype Notification =
    | ItemMoved(fromPosition: int, toPosition: int)
    | ItemRemoved(position: int)

  /** Collections.swap: the elements at i and j exchange places, every other slot keeps its
      element. Duplicates are distinct slots; i == j changes nothing. */
  function Swap<T>(s: seq<T>, i: int, j: int): (r: seq<T>)
    requires 0 <= i < |s| && 0 <= j < |s|
    ensures |r| == |s|
    ensures r[i] == s[j] && r[j] == s[i]
    ensures forall k :: 0 <= k < |s| && k != i && k != j ==> r[k] == s[k]
  {
    s[i := s[j]][j := s[i]]
  }

  /** List.remove(int): the element at p leaves the list; those before it keep their
      positions and those after it move down by one, in the same order. */
  function RemoveAt<T>(s: seq<T>, p: int): (r: seq<T>)
    requires 0 <= p < |s|
    ensures |r| == |s| - 1
    ensures forall k :: 0 <= k < p ==> r[k] == s[k]
    ensures forall k :: p <= k < |r| ==> r[k] == s[k + 1]
  {
    s[..p] + s[p + 1..]
  }

  /** Swapping the same two positions again restores the list. */
  lemma SwapInvolution<T>(s: seq<T>, i: int, j: int)
    requires 0 <= i < |s| && 0 <= j < |s|
    ensures Swap(Swap(s, i, j), i, j) == s
  {
    var r := Swap(Swap(s, i, j), i, j);
    assert forall k :: 0 <= k < |s| ==> r[k] == s[k];
  }

  /** A move is symmetric in its two positions. */
  lemma SwapSymmetric<T>(s: seq<T>, i: int, j: int)
    requires 0 <= i < |s| && 0 <= j < |s|
    ensures Swap(s, i, j) == Swap(s, j, i)
  {
    var a, b := Swap(s, i, j), Swap(s, j, i);
    assert forall k :: 0 <= k < |s| ==> a[k] == b[k];
  }

  /** A move neither loses nor duplicates an item. */
  lemma SwapPermutes<T>(s: seq<T>, i: int, j: int)
    requires 0 <= i < |s| && 0 <= j < |s|
    ensures multiset(Swap(s, i, j)) == multiset(s)
  {
  }

  /** A dismiss loses exactly the dismissed item and no other. */
  lemma RemoveAtDropsOne<T>(s: seq<T>, p: int)
    requires 0 <= p < |s|
    ensures multiset(RemoveAt(s, p)) == multiset(s) - multiset{s[p]}
  {
    assert s == s[..p] + [s[p]] + s[p + 1..];
  }

  /** The list the adapter shows, with the notifications it has sent so far. */
  class RecyclerListAdapter {
    var items: seq<string>
    var notifications: seq<Notification>

    /** The initial items are the string resource array; nothing has been announced yet. */
    constructor (initialItems: seq<string>)
      ensures items == initialItems && notifications == []
    {
      items := initialItems;
      notifications := [];
    }

    /** Dismisses the item at position and announces its removal. */
    method OnItemDismiss(position: int)
      requires 0 <= position < |items|
      modifies this
      ensures items == RemoveAt(old(items), position)
      ensures notifications == old(notifications) + [ItemRemoved(position)]
    {
      items := items[..position] + items[position + 1..];
      notifications := notifications + [ItemRemoved(position)];
    }

    /** Exchanges the items at the two positions, announces the move and reports it handled. */
    method OnItemMove(fromPosition: int, toPosition: int) returns (handled: bool)
      requires 0 <= fromPosition < |items| && 0 <= toPosition < |items|
      modifies this
      ensures handled
      ensures items == Swap(old(items), fromPosition, toPosition)
      ensures notifications == old(notifications) + [ItemMoved(fromPosition, toPosition)]
    {
      items := items[fromPosition := items[toPosition]][toPosition := items[fromPosition]];
      notifications := notifications + [ItemMoved(fromPosition, toPosition)];
      handled := true;
    }

    /** The number of rows the list view shows. */
    method GetItemCount() returns (count: int)
      ensures count == |items|
    {
      count := |items|;
    }
  }

  /** A reorder followed by a dismiss, as a caller sees it through the contracts alone. */
  method ReorderThenDismiss()
  {
    var adapter := new RecyclerListAdapter(["A", "B", "C"]);
    var count := adapter.GetItemCount();
    assert count == 3;
    var handled := adapter.OnItemMove(0, 2);
    assert adapter.items == ["C", "B", "A"];
    adapter.OnItemDismiss(1);
    assert adapter.items == ["C", "A"];
    assert adapter.notifications == [ItemMoved(0, 2), ItemRemoved(1)];
    handled := adapter.OnItemMove(0, 1);
    handled := adapter.OnItemMove(0, 1);
    assert adapter.items == ["C", "A"];
  }
}
