/** The `Symbol` record of Models/Symbol.swift: an opening text, an optional
    closing text, a label and a slot number, with the derived `isPaired` and
    `displayText`, and the nine factory entries. */
module Symbols {
  import opened Base

  /** A `UUID`, kept abstract: only equality matters. */
  type Uuid = nat

  datatype Symbol = Symbol(
    id: Uuid,
    opening: string,
    closing: Option<string>,
    labelText: string,
    slotNumber: int)
  {
    /** A closing text is present and not empty. */
    predicate IsPaired()
    {
      match closing
      case None => false
      case Some(c) => c != ""
    }

    /** The text the symbol stands for: both halves when paired; it always
        starts with the opening. */
    function DisplayText(): (r: string)
      ensures |opening| <= |r| && r[..|opening|] == opening
    {
      if IsPaired() then opening + closing.value else opening
    }
  }

  /** `Symbol.init`; `closing` defaults to nil. The random `UUID()` default of
      `id` is the caller's to supply. */
  function NewSymbol(id: Uuid, opening: string, closing: Option<string> := None,
                     labelText: string, slotNumber: int): Symbol
  {
    Symbol(id, opening, closing, labelText, slotNumber)
  }

  /** `isPaired` holds exactly when the closing text is present and non-empty. */
  lemma IsPairedIff(s: Symbol)
    ensures s.IsPaired() <==> s.closing.Some? && |s.closing.value| > 0
    ensures s.closing == None ==> !s.IsPaired()
    ensures s.closing == Some("") ==> !s.IsPaired()
  {
  }

  /** A paired symbol shows opening then closing, nothing in between. */
  lemma DisplayTextPaired(s: Symbol)
    requires s.IsPaired()
    ensures s.DisplayText() == s.opening + s.closing.value
    ensures |s.DisplayText()| == |s.opening| + |s.closing.value|
    ensures s.DisplayText()[..|s.opening|] == s.opening
    ensures s.DisplayText()[|s.opening|..] == s.closing.value
  {
  }

  /** An unpaired symbol (nil or empty closing) shows its opening alone. */
  lemma DisplayTextUnpaired(s: Symbol)
    requires !s.IsPaired()
    ensures s.DisplayText() == s.opening
  {
  }

  /** A symbol built without a closing text is unpaired and shows its opening. */
  lemma NewSymbolWithoutClosing(id: Uuid, opening: string, labelText: string, slotNumber: int)
    ensures !NewSymbol(id, opening, labelText := labelText, slotNumber := slotNumber).IsPaired()
    ensures NewSymbol(id, opening, labelText := labelText, slotNumber := slotNumber).DisplayText() == opening
  {
  }

  /** The factory list `Symbol.defaultSymbols`. Its ids come from `UUID()` when
      the static is first read, so they are a parameter; its labels are the
      localisation keys. */
  function DefaultSymbols(ids: seq<Uuid>): (d: seq<Symbol>)
    requires |ids| == 9
    ensures |d| == 9
    ensures forall i :: 0 <= i < 9 ==> d[i].id == ids[i] && d[i].slotNumber == i + 1
  {
    [ NewSymbol(ids[0], "\U{300C}", Some("\U{300D}"), "preset.paper", 1),
      NewSymbol(ids[1], "\U{300E}", Some("\U{300F}"), "preset.book", 2),
      NewSymbol(ids[2], "\U{3008}", Some("\U{3009}"), "preset.work", 3),
      NewSymbol(ids[3], "\U{300A}", Some("\U{300B}"), "preset.film", 4),
      NewSymbol(ids[4], "\U{201C}", Some("\U{201D}"), "preset.quote", 5),
      NewSymbol(ids[5], "'", Some("'"), "preset.emphasis", 6),
      NewSymbol(ids[6], "\U{2014}", None, "preset.emdash", 7),
      NewSymbol(ids[7], "\U{00B7}", None, "preset.middledot", 8),
      NewSymbol(ids[8], "\U{2026}\U{2026}", None, "preset.ellipsis", 9) ]
  }

  /** The factory entries use the slots 1..9 once each, in order; the first six
      are pairs and the last three stand alone. */
  lemma DefaultSymbolsShape(ids: seq<Uuid>)
    requires |ids| == 9
    ensures forall i, j :: 0 <= i < j < 9 ==>
      DefaultSymbols(ids)[i].slotNumber < DefaultSymbols(ids)[j].slotNumber
    ensures forall i :: 0 <= i < 6 ==> DefaultSymbols(ids)[i].IsPaired()
    ensures forall i :: 6 <= i < 9 ==>
      DefaultSymbols(ids)[i].closing == None && !DefaultSymbols(ids)[i].IsPaired()
  {
  }

  /** The first factory entry inserts the corner-bracket pair 「」. */
  lemma DefaultPaperText(ids: seq<Uuid>)
    requires |ids| == 9
    ensures DefaultSymbols(ids)[0].DisplayText() == "\U{300C}\U{300D}"
  {
  }
}
