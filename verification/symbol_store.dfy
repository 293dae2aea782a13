/** The symbol catalog of Observables/SymbolStore.swift: the queries over the
    symbol list (slot-sorted view, lookup by slot, first free slot) and the
    `SymbolStore` object whose `symbols` array is edited in place. */
module Store {
  import opened Base
  import opened Symbols

  /** `addSymbol` refuses to grow the list beyond this many entries. */
  const MaxSymbols: nat := 9

  // ---------------------------------------------------------------------
  // Slot-sorted view (`sortedSymbols`)
  // ---------------------------------------------------------------------

  predicate SortedBySlot(s: seq<Symbol>)
  {
    forall i, j :: 0 <= i < j < |s| ==> s[i].slotNumber <= s[j].slotNumber
  }

  /** Puts `x` in front of the first element whose slot is not smaller. */
  function InsertBySlot(x: Symbol, s: seq<Symbol>): (r: seq<Symbol>)
    requires SortedBySlot(s)
    ensures SortedBySlot(r)
    ensures multiset(r) == multiset(s) + multiset{x}
    ensures |r| == |s| + 1
    ensures r[0] == x || (|s| > 0 && r[0] == s[0])
  {
    if |s| == 0 || x.slotNumber <= s[0].slotNumber then
      [x] + s
    else
      assert s == [s[0]] + s[1..];
      [s[0]] + InsertBySlot(x, s[1..])
  }

  /** `symbols.sorted { $0.slotNumber < $1.slotNumber }`, as a stable
      insertion sort: symbols sharing a slot keep their list order. */
  function SortBySlot(s: seq<Symbol>): (r: seq<Symbol>)
    ensures SortedBySlot(r)
    ensures multiset(r) == multiset(s)
    ensures |r| == |s|
  {
    if |s| == 0 then []
    else
      assert s == [s[0]] + s[1..];
      InsertBySlot(s[0], SortBySlot(s[1..]))
  }

  /** The sorted view holds the same symbols as the list. */
  lemma SortedMembers(s: seq<Symbol>, x: Symbol)
    ensures x in SortBySlot(s) <==> x in s
  {
    assert x in SortBySlot(s) <==> x in multiset(SortBySlot(s));
  }

  /** The first element of the sorted view carries the smallest slot. */
  lemma SortedHeadIsMinimum(s: seq<Symbol>)
    requires |s| > 0
    ensures SortBySlot(s)[0] in s
    ensures forall y :: y in s ==> SortBySlot(s)[0].slotNumber <= y.slotNumber
  {
    var sorted := SortBySlot(s);
    SortedMembers(s, sorted[0]);
    forall y | y in s
      ensures sorted[0].slotNumber <= y.slotNumber
    {
      SortedMembers(s, y);
      var k :| 0 <= k < |sorted| && sorted[k] == y;
    }
  }

  // ---------------------------------------------------------------------
  // Lookup by slot (`symbol(for:)`)
  // ---------------------------------------------------------------------

  predicate SlotUsed(symbols: seq<Symbol>, n: int)
  {
    exists i :: 0 <= i < |symbols| && symbols[i].slotNumber == n
  }

  /** `symbols.first { $0.slotNumber == slotNumber }`. */
  function SymbolFor(symbols: seq<Symbol>, n: int): (r: Option<Symbol>)
    ensures r.None? <==> !SlotUsed(symbols, n)
    ensures r.Some? ==> r.value.slotNumber == n
    ensures r.Some? ==> exists i :: 0 <= i < |symbols| && symbols[i] == r.value &&
                                    forall j :: 0 <= j < i ==> symbols[j].slotNumber != n
  {
    First(symbols, (x: Symbol) => x.slotNumber == n)
  }

  /** With unique slots, the lookup finds the one symbol that has the slot. */
  lemma SymbolForUnique(symbols: seq<Symbol>, k: nat)
    requires k < |symbols|
    requires forall i, j :: 0 <= i < j < |symbols| ==> symbols[i].slotNumber != symbols[j].slotNumber
    ensures SymbolFor(symbols, symbols[k].slotNumber) == Some(symbols[k])
  {
    var r := SymbolFor(symbols, symbols[k].slotNumber);
    var i :| 0 <= i < |symbols| && symbols[i] == r.value &&
             forall j :: 0 <= j < i ==> symbols[j].slotNumber != symbols[k].slotNumber;
    assert i == k;
  }

  // ---------------------------------------------------------------------
  // First free slot (`nextAvailableSlot`)
  // ---------------------------------------------------------------------

  /** `Set(symbols.map(\.slotNumber))`. */
  function UsedSlots(symbols: seq<Symbol>): (used: set<int>)
    ensures forall n :: n in used <==> SlotUsed(symbols, n)
  {
    set i | 0 <= i < |symbols| :: symbols[i].slotNumber
  }

  /** `(n...9).first { !usedSlots.contains($0) }`. */
  function FirstFreeSlotFrom(used: set<int>, n: int): (r: Option<int>)
    requires 1 <= n <= 10
    decreases 10 - n
    ensures r.Some? ==> n <= r.value <= 9 && r.value !in used
    ensures r.Some? ==> forall k :: n <= k < r.value ==> k in used
    ensures r.None? <==> forall k :: n <= k <= 9 ==> k in used
  {
    if n == 10 then None
    else if n !in used then Some(n)
    else FirstFreeSlotFrom(used, n + 1)
  }

  /** `nextAvailableSlot()`: the smallest slot in 1..9 that no symbol uses. */
  function NextAvailableSlot(symbols: seq<Symbol>): (r: Option<int>)
    ensures r.Some? ==> 1 <= r.value <= 9 && !SlotUsed(symbols, r.value)
    ensures r.Some? ==> forall k :: 1 <= k < r.value ==> SlotUsed(symbols, k)
    ensures r.None? <==> forall k :: 1 <= k <= 9 ==> SlotUsed(symbols, k)
  {
    FirstFreeSlotFrom(UsedSlots(symbols), 1)
  }

  /** Fewer than nine symbols always leave a slot free. */
  lemma {:induction false} FewSymbolsLeaveAFreeSlot(symbols: seq<Symbol>)
    requires |symbols| < 9
    ensures NextAvailableSlot(symbols).Some?
  {
    if NextAvailableSlot(symbols).None? {
      var used := UsedSlots(symbols);
      assert forall k :: 1 <= k <= 9 ==> k in used;
      AllSlotsNeedNine(used);
      UsedSlotsBound(symbols);
    }
  }

  /** A set holding every slot 1..9 has at least nine members. */
  lemma {:induction false} AllSlotsNeedNine(used: set<int>)
    requires forall k :: 1 <= k <= 9 ==> k in used
    ensures |used| >= 9
  {
    var slots: set<int> := {1, 2, 3, 4, 5, 6, 7, 8, 9};
    assert |slots| == 9;
    var others := used - slots;
    assert used == slots + others;
    assert slots * others == {};
  }

  lemma {:induction false} UsedSlotsBound(symbols: seq<Symbol>)
    ensures |UsedSlots(symbols)| <= |symbols|
  {
    if |symbols| > 0 {
      var rest := symbols[1..];
      UsedSlotsBound(rest);
      assert UsedSlots(symbols) == {symbols[0].slotNumber} + UsedSlots(rest) by {
        forall n ensures n in UsedSlots(symbols) <==> n in {symbols[0].slotNumber} + UsedSlots(rest)
        {
          if n in UsedSlots(symbols) {
            var i :| 0 <= i < |symbols| && symbols[i].slotNumber == n;
            if i > 0 { assert rest[i - 1].slotNumber == n; }
          }
          if n in UsedSlots(rest) {
            var i :| 0 <= i < |rest| && rest[i].slotNumber == n;
            assert symbols[i + 1].slotNumber == n;
          }
        }
      }
    }
  }

  // ---------------------------------------------------------------------
  // Identity lookups
  // ---------------------------------------------------------------------

  /** No two symbols share an id. */
  predicate UniqueIds(s: seq<Symbol>)
  {
    forall i, j :: 0 <= i < j < |s| ==> s[i].id != s[j].id
  }

  /** `symbols.first { $0.id == id }` for an optional `id`: nil matches nothing. */
  function SymbolWithId(symbols: seq<Symbol>, id: Option<Uuid>): (r: Option<Symbol>)
    ensures id.None? ==> r.None?
    ensures r.None? <==> id.None? || forall i :: 0 <= i < |symbols| ==> symbols[i].id != id.value
    ensures r.Some? ==> Some(r.value.id) == id && r.value in symbols
  {
    First(symbols, (x: Symbol) => Some(x.id) == id)
  }

  /** With unique ids, looking up the id of a member finds that member. */
  lemma SymbolWithIdOfMember(symbols: seq<Symbol>, x: Symbol)
    requires UniqueIds(symbols)
    requires x in symbols
    ensures SymbolWithId(symbols, Some(x.id)) == Some(x)
  {
    var r := SymbolWithId(symbols, Some(x.id));
    var i :| 0 <= i < |symbols| && symbols[i] == r.value &&
             forall j :: 0 <= j < i ==> Some(symbols[j].id) != Some(x.id);
    var k :| 0 <= k < |symbols| && symbols[k] == x;
    assert !(i < k) && !(k < i);
  }

  // ---------------------------------------------------------------------
  // The store object
  // ---------------------------------------------------------------------

  class SymbolStore {
    /** The persisted, user-edited list. */
    var symbols: seq<Symbol>
    /** The symbol the panel shows as highlighted (a copy, not a reference). */
    var selectedSymbol: Option<Symbol>
    /** `Symbol.defaultSymbols`, fixed for the life of the process. */
    const defaultSymbols: seq<Symbol>

    /** `init()`: loads the persisted list; `defaultIds` are the ids the
        factory list received when first read. */
    constructor (persisted: seq<Symbol>, defaultIds: seq<Uuid>)
      requires |defaultIds| == 9
      ensures symbols == persisted && selectedSymbol == None
      ensures defaultSymbols == DefaultSymbols(defaultIds)
    {
      symbols := persisted;
      selectedSymbol := None;
      defaultSymbols := DefaultSymbols(defaultIds);
    }

    /** `updateSymbol(_:)`: replaces the first entry with the same id, in
        place; an unknown id changes nothing. */
    method UpdateSymbol(symbol: Symbol)
      modifies this`symbols
      ensures |symbols| == |old(symbols)|
      ensures (forall i :: 0 <= i < |old(symbols)| ==> old(symbols)[i].id != symbol.id) ==>
                symbols == old(symbols)
      ensures forall k ::
                (0 <= k < |old(symbols)| && old(symbols)[k].id == symbol.id &&
                 forall j :: 0 <= j < k ==> old(symbols)[j].id != symbol.id) ==>
                symbols == old(symbols)[k := symbol]
    {
      var index := FirstIndex(symbols, (x: Symbol) => x.id == symbol.id);
      if index.None? {
        return;
      }
      symbols := symbols[index.value := symbol];
    }

    /** `addSymbol(_:)`: appends while there are fewer than nine entries. */
    method AddSymbol(symbol: Symbol)
      modifies this`symbols
      ensures old(|symbols|) < MaxSymbols ==> symbols == old(symbols) + [symbol]
      ensures old(|symbols|) >= MaxSymbols ==> symbols == old(symbols)
      ensures old(|symbols|) <= MaxSymbols ==> |symbols| <= MaxSymbols
    {
      if |symbols| >= MaxSymbols {
        return;
      }
      symbols := symbols + [symbol];
    }

    /** `removeSymbol(id:)`: drops every entry with the id, keeping the order
        of the others. */
    method RemoveSymbol(id: Uuid)
      modifies this`symbols
      ensures symbols == RemoveAll(old(symbols), (x: Symbol) => x.id == id)
      ensures forall i :: 0 <= i < |symbols| ==> symbols[i].id != id
      ensures forall x: Symbol :: x.id != id ==> multiset(symbols)[x] == multiset(old(symbols))[x]
    {
      symbols := RemoveAll(symbols, (x: Symbol) => x.id == id);
    }

    /** `resetToDefaults()`. */
    method ResetToDefaults()
      modifies this`symbols
      ensures symbols == defaultSymbols
    {
      symbols := defaultSymbols;
    }
  }
}
