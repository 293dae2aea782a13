/** The `HotkeyCombo` value of Models/HotkeyCombo.swift: a key code and a
    Carbon modifier word, the factory shortcut and the rendered shortcut
    text shown in the settings pane. */
module Hotkeys {
  import opened Base
  import opened KeyCodes

  datatype HotkeyCombo = HotkeyCombo(keyCode: KeyCode, modifiers: bv32)

  /** `HotkeyCombo.defaultHotkey`: Option-Shift-D. */
  const DefaultHotkey: HotkeyCombo := HotkeyCombo(0x02, ShiftKey | OptionKey)

  /** The parts of `displayString`: the modifier glyphs, then the key. */
  function DisplayParts(combo: HotkeyCombo): seq<string>
  {
    ModifierParts(combo.modifiers) + [KeyCharacter(combo.keyCode)]
  }

  /** `displayString`: the parts joined by single spaces. */
  function DisplayString(combo: HotkeyCombo): string
  {
    Join(DisplayParts(combo), " ")
  }

  /** `displayString` is the key character appended to the modifier glyphs
      joined by spaces, with a space between them when there are glyphs. */
  lemma DisplayStringAppendsKey(combo: HotkeyCombo)
    ensures DisplayString(combo) ==
            if |ModifierParts(combo.modifiers)| == 0 then KeyCharacter(combo.keyCode)
            else Join(ModifierParts(combo.modifiers), " ") + " " + KeyCharacter(combo.keyCode)
  {
    JoinSnoc(ModifierParts(combo.modifiers), KeyCharacter(combo.keyCode), " ");
  }

  /** `displayString` has one single-character part per set modifier bit and
      one for the key, separated by single spaces; it ends with the key's
      character. */
  lemma {:induction false} DisplayStringLayout(combo: HotkeyCombo)
    ensures |DisplayString(combo)| == 2 * |ModifierParts(combo.modifiers)| + 1
    ensures forall k :: 0 <= k < |ModifierParts(combo.modifiers)| ==>
              DisplayString(combo)[2 * k] == ModifierParts(combo.modifiers)[k][0] &&
              DisplayString(combo)[2 * k + 1] == ' '
    ensures DisplayString(combo)[|DisplayString(combo)| - 1..] == KeyCharacter(combo.keyCode)
  {
    var mods := ModifierParts(combo.modifiers);
    var parts := DisplayParts(combo);
    ModifierPartsOrder(combo.modifiers);
    assert forall i :: 0 <= i < |mods| ==> parts[i] == mods[i];
    assert parts[|parts| - 1] == KeyCharacter(combo.keyCode);
    JoinSingles(parts, ' ');
    JoinSinglesLast(parts, ' ');
  }

  /** The spaces in `displayString` are exactly its separators: their number
      equals the number of set modifier bits among the four. */
  lemma DisplayStringSpaces(combo: HotkeyCombo)
    ensures forall k :: 0 <= k < |DisplayString(combo)| ==>
              (DisplayString(combo)[k] == ' ' <==> k % 2 == 1)
  {
    var mods := ModifierParts(combo.modifiers);
    var parts := DisplayParts(combo);
    ModifierPartsOrder(combo.modifiers);
    KeyCharacterNotSpace(combo.keyCode);
    assert forall i :: 0 <= i < |mods| ==> parts[i] == mods[i];
    assert parts[|parts| - 1] == KeyCharacter(combo.keyCode);
    JoinSinglesSeparators(parts, ' ');
  }

  /** Without modifier bits the shortcut text is the key character alone. */
  lemma DisplayStringWithoutModifiers(combo: HotkeyCombo)
    requires combo.modifiers & CarbonModifierMask == 0
    ensures DisplayString(combo) == KeyCharacter(combo.keyCode)
  {
    ModifierPartsSpec(combo.modifiers);
  }

  /** The factory shortcut is key D with Option and Shift, shown as "⌥ ⇧ D". */
  lemma DefaultHotkeyDisplay()
    ensures DefaultHotkey.keyCode == 0x02 && KeyCharacter(DefaultHotkey.keyCode) == "D"
    ensures DefaultHotkey.modifiers & CarbonModifierMask == ShiftKey | OptionKey
    ensures DisplayString(DefaultHotkey) == "\U{2325} \U{21E7} D"
  {
    var parts := DisplayParts(DefaultHotkey);
    assert ModifierParts(DefaultHotkey.modifiers) == [OptionGlyph, ShiftGlyph];
    assert parts == [OptionGlyph, ShiftGlyph, "D"];
    assert parts[1..] == [ShiftGlyph, "D"];
    assert parts[1..][1..] == ["D"];
    assert Join(parts[1..][1..], " ") == "D";
    assert Join(parts[1..], " ") == ShiftGlyph + " " + "D";
  }

  /** Equality of combos is equality of key code and modifier word. */
  lemma ComboEquality(a: HotkeyCombo, b: HotkeyCombo)
    ensures a == b <==> a.keyCode == b.keyCode && a.modifiers == b.modifiers
  {
  }
}
