/** A list of choices with a cursor that wraps around at both ends. */
module StatefulLists {
  import opened Wrappers

  /** The cursor after `next`: one further down, back to the top after the
      last item; the top when nothing was selected. */
  function NextIndex(selected: Option<nat>, len: nat): (i: nat)
    requires selected.Some? ==> 0 < len
    ensures 0 < len ==> i < len
    ensures selected.None? ==> i == 0
    ensures selected.Some? && selected.value + 1 < len ==> i == selected.value + 1
    ensures selected.Some? && selected.value + 1 >= len ==> i == 0
  {
    match selected
    case Some(i) => if i >= len - 1 then 0 else i + 1
    case None => 0
  }

  /** The cursor after `previous`: one further up, to the last item from the
      top; the top when nothing was selected. */
  function PreviousIndex(selected: Option<nat>, len: nat): (i: nat)
    requires selected == Some(0) ==> 0 < len
    ensures 0 < len && (selected.Some? ==> selected.value <= len) ==> i < len
    ensures selected.None? ==> i == 0
    ensures selected.Some? && selected.value == 0 ==> i == len - 1
    ensures selected.Some? && selected.value > 0 ==> i == selected.value - 1
  {
    match selected
    case Some(i) => if i == 0 then len - 1 else i - 1
    case None => 0
  }

  /** On a valid cursor, `previous` undoes `next` and `next` undoes `previous`. */
  lemma NextPreviousInverse(i: nat, len: nat)
    requires i < len
    ensures PreviousIndex(Some(NextIndex(Some(i), len)), len) == i
    ensures NextIndex(Some(PreviousIndex(Some(i), len)), len) == i
  {
  }

  /** `next` applied `k` times to the cursor `i`. */
  function NextTimes(i: nat, len: nat, k: nat): nat
    requires 0 < len
  {
    if k == 0 then i else NextIndex(Some(NextTimes(i, len, k - 1)), len)
  }

  /** Stepping down `k <= len` times from a valid cursor lands `k` places
      further, counted around the list; after `len` steps it is back where it started. */
  lemma {:induction false} NextTimesWraps(i: nat, len: nat, k: nat)
    requires i < len && k <= len
    ensures NextTimes(i, len, k) == if i + k < len then i + k else i + k - len
    ensures k == len ==> NextTimes(i, len, k) == i
  {
    if k > 0 {
      NextTimesWraps(i, len, k - 1);
    }
  }

  /** A list of items and the cursor of the terminal list widget. */
  class StatefulList<T> {
    var items: seq<T>
    var selected: Option<nat>

    /** The list is non-empty and the cursor, if any, points at an item. */
    ghost predicate Valid()
      reads this
    {
      0 < |items| && (selected.Some? ==> selected.value < |items|)
    }

    /** Stores the items as given and selects the first one. */
    constructor WithItems(items: seq<T>)
      ensures this.items == items && selected == Some(0)
      ensures 0 < |items| ==> Valid()
    {
      this.items := items;
      selected := Some(0);
    }

    /** Moves the cursor one item down, wrapping to the top. */
    method Next()
      requires selected.Some? ==> 0 < |items|
      modifies this
      ensures selected == Some(NextIndex(old(selected), old(|items|)))
      ensures items == old(items)
      ensures old(Valid()) ==> Valid()
    {
      var i := match selected
        case Some(i) => if i >= |items| - 1 then 0 else i + 1
        case None => 0;
      selected := Some(i);
    }

    /** Moves the cursor one item up, wrapping to the bottom. */
    method Previous()
      requires selected == Some(0) ==> 0 < |items|
      modifies this
      ensures selected == Some(PreviousIndex(old(selected), old(|items|)))
      ensures items == old(items)
      ensures old(Valid()) ==> Valid()
    {
      var i := match selected
        case Some(i) => if i == 0 then |items| - 1 else i - 1
        case None => 0;
      selected := Some(i);
    }

    /** Clears the cursor. */
    method Unselect()
      modifies this
      ensures selected == None && items == old(items)
    {
      selected := None;
    }
  }
}
