/** Core/SymbolInserter.swift: committing a symbol writes its text to the
    general pasteboard, replacing whatever was there. */
module Inserter {
  import opened Base
  import opened Symbols

  /** The general pasteboard, reduced to its one string item. */
  class Pasteboard {
    var contents: Option<string>

    constructor ()
      ensures contents == None
    {
      contents := None;
    }

    /** `clearContents()`. */
    method ClearContents()
      modifies this
      ensures contents == None
    {
      contents := None;
    }

    /** `setString(_:forType: .string)`. */
    method SetString(text: string)
      modifies this
      ensures contents == Some(text)
    {
      contents := Some(text);
    }
  }

  /** The text `insert(_:)` writes: opening and closing when paired,
      otherwise the opening alone. It is the symbol's `displayText`: the
      opening followed directly by a non-empty closing, or the opening alone. */
  function InsertionText(symbol: Symbol): (r: string)
    ensures r == symbol.DisplayText()
    ensures symbol.closing.Some? && symbol.closing.value != "" ==> r == symbol.opening + symbol.closing.value
    ensures symbol.closing.None? || symbol.closing.value == "" ==> r == symbol.opening
  {
    if symbol.IsPaired() && symbol.closing.Some? then symbol.opening + symbol.closing.value
    else symbol.opening
  }

  class SymbolInserter {
    const pasteboard: Pasteboard

    constructor (pasteboard: Pasteboard)
      ensures this.pasteboard == pasteboard
    {
      this.pasteboard := pasteboard;
    }

    /** `insert(_:)`: clear the pasteboard, then set the text; nothing else
        changes. */
    method Insert(symbol: Symbol)
      modifies pasteboard
      ensures pasteboard.contents == Some(symbol.DisplayText())
    {
      var textToInsert := InsertionText(symbol);
      pasteboard.ClearContents();
      pasteboard.SetString(textToInsert);
    }
  }
}
