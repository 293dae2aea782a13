/** The navigation rules of Observables/AppState.swift, as functions of the
    symbol list and the mirrored `selectedSymbol`: which id `highlightFirst`,
    `highlightPrevious` and `highlightNext` assign to `selection`, if any.
    Positions are found in the slot-sorted view with full-record equality
    (`firstIndex(of:)`), so a stale copy of a symbol is found nowhere. */
module Selection {
  import opened Base
  import opened Symbols
  import opened Store

  /** Index of the first occurrence of `x` in `s` (`firstIndex(of:)`). */
  function IndexOf(s: seq<Symbol>, x: Symbol): (r: Option<nat>)
    ensures r.None? <==> x !in s
    ensures r.Some? ==> r.value < |s| && s[r.value] == x
    ensures r.Some? ==> forall j :: 0 <= j < r.value ==> s[j] != x
  {
    if |s| == 0 then None
    else if s[0] == x then Some(0)
    else match IndexOf(s[1..], x)
      case None => None
      case Some(k) => Some(k + 1)
  }

  /** Where `current` sits in the slot-sorted view. */
  function SortedPosition(symbols: seq<Symbol>, current: Symbol): (r: Option<nat>)
    ensures r.None? <==> current !in symbols
    ensures r.Some? ==> r.value < |symbols| && SortBySlot(symbols)[r.value] == current
    ensures r.Some? ==> forall j :: 0 <= j < r.value ==> SortBySlot(symbols)[j] != current
  {
    SortedMembers(symbols, current);
    IndexOf(SortBySlot(symbols), current)
  }

  /** `highlightFirst`: the id of the head of the slot-sorted view, which is
      a symbol of the list with the smallest slot; none for an empty list. */
  function FirstTarget(symbols: seq<Symbol>): (r: Option<Uuid>)
    ensures r.None? <==> |symbols| == 0
    ensures r.Some? ==> exists i :: 0 <= i < |symbols| && symbols[i].id == r.value &&
                                    forall j :: 0 <= j < |symbols| ==> symbols[i].slotNumber <= symbols[j].slotNumber
  {
    if |symbols| == 0 then None
    else
      SortedHeadIsMinimum(symbols);
      var i :| 0 <= i < |symbols| && symbols[i] == SortBySlot(symbols)[0];
      Some(symbols[i].id)
  }

  /** One step up from `selected` in the ordered list `order`: none when
      nothing is selected, the selection is not in `order`, or it is first. */
  function PreviousIn(order: seq<Symbol>, selected: Option<Symbol>): (r: Option<Uuid>)
    ensures selected.None? ==> r.None?
    ensures selected.Some? && selected.value !in order ==> r.None?
    ensures selected.Some? && |order| > 0 && order[0] == selected.value ==> r.None?
  {
    match selected
    case None => None
    case Some(current) =>
      match IndexOf(order, current)
      case None => None
      case Some(i) => if i > 0 then Some(order[i - 1].id) else None
  }

  /** One step down from `selected` in the ordered list `order`: none when
      nothing is selected, the selection is not in `order`, or it is last. */
  function NextIn(order: seq<Symbol>, selected: Option<Symbol>): (r: Option<Uuid>)
    ensures selected.None? ==> r.None?
    ensures selected.Some? && selected.value !in order ==> r.None?
  {
    match selected
    case None => None
    case Some(current) =>
      match IndexOf(order, current)
      case None => None
      case Some(i) => if i < |order| - 1 then Some(order[i + 1].id) else None
  }

  /** `highlightPrevious`: one step up in slot order. */
  function PreviousTarget(symbols: seq<Symbol>, selected: Option<Symbol>): (r: Option<Uuid>)
    ensures selected.None? ==> r.None?
    ensures selected.Some? && selected.value !in symbols ==> r.None?
    ensures selected.Some? && |symbols| > 0 && SortBySlot(symbols)[0] == selected.value ==> r.None?
  {
    if selected.None? then None
    else
      SortedMembers(symbols, selected.value);
      PreviousIn(SortBySlot(symbols), selected)
  }

  /** `highlightNext`: one step down in slot order. */
  function NextTarget(symbols: seq<Symbol>, selected: Option<Symbol>): (r: Option<Uuid>)
    ensures selected.None? ==> r.None?
    ensures selected.Some? && selected.value !in symbols ==> r.None?
  {
    if selected.None? then None
    else
      SortedMembers(symbols, selected.value);
      NextIn(SortBySlot(symbols), selected)
  }

  /** A move up lands on the symbol just before the selected one. */
  lemma PreviousInIsNeighbour(order: seq<Symbol>, selected: Option<Symbol>)
    requires PreviousIn(order, selected).Some?
    ensures exists i :: 0 < i < |order| && order[i] == selected.value &&
                        PreviousIn(order, selected).value == order[i - 1].id
  {
    var i := IndexOf(order, selected.value).value;
    assert order[i] == selected.value;
  }

  /** A move down lands on the symbol just after the selected one. */
  lemma NextInIsNeighbour(order: seq<Symbol>, selected: Option<Symbol>)
    requires NextIn(order, selected).Some?
    ensures exists i :: 0 <= i < |order| - 1 && order[i] == selected.value &&
                        NextIn(order, selected).value == order[i + 1].id
  {
    var i := IndexOf(order, selected.value).value;
    assert order[i] == selected.value;
  }

  /** With unique ids, the element at index `k` is found at `k`. */
  lemma IndexOfMember(order: seq<Symbol>, k: nat)
    requires UniqueIds(order) && k < |order|
    ensures IndexOf(order, order[k]) == Some(k)
  {
    var p := IndexOf(order, order[k]);
    assert order[p.value] == order[k];
  }

  /** With unique ids, moving up from element `k` of `order` selects `k - 1`
      and moving down selects `k + 1`; there is no wrap-around at the ends. */
  lemma StepsIn(order: seq<Symbol>, k: nat)
    requires UniqueIds(order) && k < |order|
    ensures PreviousIn(order, Some(order[k])) == if k > 0 then Some(order[k - 1].id) else None
    ensures NextIn(order, Some(order[k])) == if k < |order| - 1 then Some(order[k + 1].id) else None
  {
    IndexOfMember(order, k);
  }

  // ---------------------------------------------------------------------
  // Walking the list with unique ids
  // ---------------------------------------------------------------------

  /** Inserting `x` into a slot-sorted list adds exactly `x` to its members. */
  lemma InsertedMembers(x: Symbol, t: seq<Symbol>, y: Symbol)
    requires SortedBySlot(t)
    ensures y in InsertBySlot(x, t) <==> y == x || y in t
  {
    assert y in InsertBySlot(x, t) <==> y in multiset(InsertBySlot(x, t));
    assert y in t <==> y in multiset(t);
  }

  /** Putting a symbol with a new id in front keeps ids unique. */
  lemma ConsKeepsUniqueIds(h: Symbol, rest: seq<Symbol>)
    requires UniqueIds(rest)
    requires forall y :: y in rest ==> y.id != h.id
    ensures UniqueIds([h] + rest)
  {
    var s := [h] + rest;
    forall i, j | 0 <= i < j < |s|
      ensures s[i].id != s[j].id
    {
      assert s[j] == rest[j - 1];
      if i > 0 {
        assert s[i] == rest[i - 1];
      } else {
        assert rest[j - 1] in rest;
      }
    }
  }

  /** Inserting a symbol with a new id keeps ids unique. */
  lemma {:induction false} InsertKeepsUniqueIds(x: Symbol, t: seq<Symbol>)
    requires SortedBySlot(t) && UniqueIds(t)
    requires forall y :: y in t ==> y.id != x.id
    ensures UniqueIds(InsertBySlot(x, t))
  {
    if |t| == 0 || x.slotNumber <= t[0].slotNumber {
      ConsKeepsUniqueIds(x, t);
    } else {
      var tail := t[1..];
      assert forall y :: y in tail ==> y in t;
      InsertKeepsUniqueIds(x, tail);
      var rest := InsertBySlot(x, tail);
      forall y | y in rest
        ensures y.id != t[0].id
      {
        InsertedMembers(x, tail, y);
        if y != x {
          var j :| 0 <= j < |tail| && tail[j] == y;
          assert t[j + 1] == y;
        }
      }
      ConsKeepsUniqueIds(t[0], rest);
    }
  }

  /** Sorting keeps ids unique. */
  lemma {:induction false} SortKeepsUniqueIds(s: seq<Symbol>)
    requires UniqueIds(s)
    ensures UniqueIds(SortBySlot(s))
  {
    if |s| > 0 {
      var tail := s[1..];
      SortKeepsUniqueIds(tail);
      forall y | y in SortBySlot(tail)
        ensures y.id != s[0].id
      {
        SortedMembers(tail, y);
        var j :| 0 <= j < |tail| && tail[j] == y;
        assert s[j + 1] == y;
      }
      InsertKeepsUniqueIds(s[0], SortBySlot(tail));
    }
  }

  /** With unique ids, selecting the id of sorted element `k` mirrors
      exactly that element into `selectedSymbol`. */
  lemma MirrorOfSorted(symbols: seq<Symbol>, k: nat)
    requires UniqueIds(symbols) && k < |symbols|
    ensures SymbolWithId(symbols, Some(SortBySlot(symbols)[k].id)) == Some(SortBySlot(symbols)[k])
  {
    SortedMembers(symbols, SortBySlot(symbols)[k]);
    SymbolWithIdOfMember(symbols, SortBySlot(symbols)[k]);
  }

  /** The mirrored symbol after one `highlightNext`. */
  function AfterNext(symbols: seq<Symbol>, selected: Option<Symbol>): Option<Symbol>
  {
    match NextTarget(symbols, selected)
    case None => selected
    case Some(id) => SymbolWithId(symbols, Some(id))
  }

  /** The mirrored symbol after `highlightFirst` followed by `k` `highlightNext`s. */
  function Walk(symbols: seq<Symbol>, k: nat): Option<Symbol>
  {
    if k == 0 then SymbolWithId(symbols, FirstTarget(symbols))
    else AfterNext(symbols, Walk(symbols, k - 1))
  }

  /** One `highlightNext` from sorted element `j` mirrors element `j + 1`,
      or stays on `j` when it is the last. */
  lemma AfterNextOfSorted(symbols: seq<Symbol>, j: nat)
    requires UniqueIds(symbols) && j < |symbols|
    ensures AfterNext(symbols, Some(SortBySlot(symbols)[j])) ==
            Some(SortBySlot(symbols)[if j < |symbols| - 1 then j + 1 else j])
  {
    SortKeepsUniqueIds(symbols);
    StepsIn(SortBySlot(symbols), j);
    if j < |symbols| - 1 {
      MirrorOfSorted(symbols, j + 1);
    }
  }

  /** Starting from `highlightFirst`, repeated `highlightNext` visits the
      sorted symbols one after another and then stays on the last. */
  lemma WalkVisitsInSlotOrder(symbols: seq<Symbol>, k: nat)
    requires UniqueIds(symbols) && |symbols| > 0
    ensures Walk(symbols, k) == Some(SortBySlot(symbols)[if k < |symbols| then k else |symbols| - 1])
  {
    WalkStart(symbols);
    var i := 0;
    while i < k
      invariant i <= k
      invariant Walk(symbols, i) == Some(SortBySlot(symbols)[if i < |symbols| then i else |symbols| - 1])
    {
      i := i + 1;
      WalkStep(symbols, i);
    }
  }

  /** `highlightFirst` mirrors the head of the sorted view. */
  lemma WalkStart(symbols: seq<Symbol>)
    requires UniqueIds(symbols) && |symbols| > 0
    ensures Walk(symbols, 0) == Some(SortBySlot(symbols)[0])
  {
    MirrorOfSorted(symbols, 0);
  }

  /** One more `highlightNext` advances the walk by one sorted position, up
      to the last. */
  lemma WalkStep(symbols: seq<Symbol>, k: nat)
    requires UniqueIds(symbols) && |symbols| > 0 && 0 < k
    ensures Walk(symbols, k - 1) == Some(SortBySlot(symbols)[if k - 1 < |symbols| then k - 1 else |symbols| - 1]) ==>
            Walk(symbols, k) == Some(SortBySlot(symbols)[if k < |symbols| then k else |symbols| - 1])
  {
    var j := if k - 1 < |symbols| then k - 1 else |symbols| - 1;
    AfterNextOfSorted(symbols, j);
  }

  /** Moving down from the last sorted symbol, or up from the first, changes
      nothing (no wrap-around). */
  lemma NoWrapAtEnds(symbols: seq<Symbol>)
    requires UniqueIds(symbols) && |symbols| > 0
    ensures NextTarget(symbols, Some(SortBySlot(symbols)[|symbols| - 1])) == None
    ensures PreviousTarget(symbols, Some(SortBySlot(symbols)[0])) == None
  {
    SortKeepsUniqueIds(symbols);
    StepsIn(SortBySlot(symbols), |symbols| - 1);
    StepsIn(SortBySlot(symbols), 0);
  }

  /** Moving up from sorted element `k > 0` selects element `k - 1`, and
      moving down from `k < n - 1` selects `k + 1`. */
  lemma StepsBetweenNeighbours(symbols: seq<Symbol>, k: nat)
    requires UniqueIds(symbols) && k < |symbols|
    ensures k > 0 ==> PreviousTarget(symbols, Some(SortBySlot(symbols)[k])) == Some(SortBySlot(symbols)[k - 1].id)
    ensures k < |symbols| - 1 ==> NextTarget(symbols, Some(SortBySlot(symbols)[k])) == Some(SortBySlot(symbols)[k + 1].id)
  {
    SortKeepsUniqueIds(symbols);
    StepsIn(SortBySlot(symbols), k);
  }
}
