/** The key tables of Extensions/KeyCode+Mappings.swift: the virtual key codes
    the panel reacts to, digit key to slot lookup, key code to printable
    character, and the conversions between AppKit modifier flags, Carbon
    modifier bits and their glyphs. */
module KeyCodes {
  import opened Base

  /** A macOS virtual key code (`UInt16`). */
  type KeyCode = x: int | 0 <= x < 0x1_0000

  // Number keys 1-9 (`kVK_ANSI_1` ... `kVK_ANSI_9`); note 5/6 and 7/8/9 are
  // not in ascending code order.
  const Number1: KeyCode := 0x12
  const Number2: KeyCode := 0x13
  const Number3: KeyCode := 0x14
  const Number4: KeyCode := 0x15
  const Number5: KeyCode := 0x17
  const Number6: KeyCode := 0x16
  const Number7: KeyCode := 0x1A
  const Number8: KeyCode := 0x1C
  const Number9: KeyCode := 0x19

  const Escape: KeyCode := 0x35
  const LeftArrow: KeyCode := 0x7B
  const VKey: KeyCode := 0x09
  const Comma: KeyCode := 0x2B

  /** Index 0 holds the key for slot 1. */
  const NumberKeys: seq<KeyCode> :=
    [Number1, Number2, Number3, Number4, Number5, Number6, Number7, Number8, Number9]

  /** `KeyCode.slotNumber(for:)`: the slot a digit key selects. */
  function SlotNumber(keyCode: KeyCode): (r: Option<int>)
    ensures r.None? <==> keyCode !in NumberKeys
    ensures r.Some? ==> 1 <= r.value <= 9 && NumberKeys[r.value - 1] == keyCode
  {
    match FirstIndex(NumberKeys, (k: KeyCode) => k == keyCode)
    case None => None
    case Some(i) => Some(i + 1)
  }

  /** The nine digit keys are pairwise distinct. */
  lemma NumberKeysDistinct()
    ensures |NumberKeys| == 9
    ensures forall i, j :: 0 <= i < j < 9 ==> NumberKeys[i] != NumberKeys[j]
  {
  }

  /** The `i`-th digit key selects slot `i + 1`. */
  lemma SlotNumberOfNumberKey(i: nat)
    requires i < 9
    ensures SlotNumber(NumberKeys[i]) == Some(i + 1)
  {
    NumberKeysDistinct();
    var r := SlotNumber(NumberKeys[i]);
    assert NumberKeys[r.value - 1] == NumberKeys[i];
  }

  /** Escape, comma, left arrow and V select no slot. */
  lemma SlotNumberOfOtherKeys()
    ensures SlotNumber(Escape).None? && SlotNumber(Comma).None?
    ensures SlotNumber(LeftArrow).None? && SlotNumber(VKey).None?
  {
  }

  // ---------------------------------------------------------------------
  // Key code to character
  // ---------------------------------------------------------------------

  /** The ANSI letter and digit keys (`kVK_ANSI_A` ... `kVK_ANSI_9`), the only
      codes with a printable character. */
  const AnsiLetterAndDigitCodes: set<int> :=
    { 0x00, 0x0B, 0x08, 0x02, 0x0E, 0x03, 0x05, 0x04, 0x22, 0x26, 0x28, 0x25, 0x2E,
      0x2D, 0x1F, 0x23, 0x0C, 0x0F, 0x01, 0x11, 0x20, 0x09, 0x0D, 0x07, 0x10, 0x06,
      0x1D, 0x12, 0x13, 0x14, 0x15, 0x17, 0x16, 0x1A, 0x1C, 0x19 }

  /** `UInt16.keyCharacter`. */
  function KeyCharacter(code: KeyCode): (r: string)
    ensures |r| == 1
  {
    match code
    case 0x00 => "A"  // kVK_ANSI_A
    case 0x0B => "B"
    case 0x08 => "C"
    case 0x02 => "D"
    case 0x0E => "E"
    case 0x03 => "F"
    case 0x05 => "G"
    case 0x04 => "H"
    case 0x22 => "I"
    case 0x26 => "J"
    case 0x28 => "K"
    case 0x25 => "L"
    case 0x2E => "M"
    case 0x2D => "N"
    case 0x1F => "O"
    case 0x23 => "P"
    case 0x0C => "Q"
    case 0x0F => "R"
    case 0x01 => "S"
    case 0x11 => "T"
    case 0x20 => "U"
    case 0x09 => "V"
    case 0x0D => "W"
    case 0x07 => "X"
    case 0x10 => "Y"
    case 0x06 => "Z"
    case 0x1D => "0"  // kVK_ANSI_0
    case 0x12 => "1"
    case 0x13 => "2"
    case 0x14 => "3"
    case 0x15 => "4"
    case 0x17 => "5"
    case 0x16 => "6"
    case 0x1A => "7"
    case 0x1C => "8"
    case 0x19 => "9"
    case _ => "?"
  }

  predicate IsUpperLetterOrDigit(c: char)
  {
    ('A' <= c <= 'Z') || ('0' <= c <= '9')
  }

  /** Exactly the ANSI letter and digit keys print as a letter or digit;
      every other code prints as "?". */
  lemma KeyCharacterClasses(code: KeyCode)
    ensures code in AnsiLetterAndDigitCodes ==> IsUpperLetterOrDigit(KeyCharacter(code)[0])
    ensures code !in AnsiLetterAndDigitCodes <==> KeyCharacter(code) == "?"
  {
  }

  /** No key prints as a space. */
  lemma KeyCharacterNotSpace(code: KeyCode)
    ensures KeyCharacter(code)[0] != ' '
  {
    KeyCharacterClasses(code);
  }

  /** The key that prints as `ch`, if any: the inverse of `keyCharacter`
      on the ANSI letter and digit keys. */
  function KeyCodeOf(ch: string): (r: Option<KeyCode>)
    ensures r.Some? ==> r.value in AnsiLetterAndDigitCodes
  {
    if |ch| != 1 then None
    else match ch[0]
      case 'A' => Some(0x00)
      case 'B' => Some(0x0B)
      case 'C' => Some(0x08)
      case 'D' => Some(0x02)
      case 'E' => Some(0x0E)
      case 'F' => Some(0x03)
      case 'G' => Some(0x05)
      case 'H' => Some(0x04)
      case 'I' => Some(0x22)
      case 'J' => Some(0x26)
      case 'K' => Some(0x28)
      case 'L' => Some(0x25)
      case 'M' => Some(0x2E)
      case 'N' => Some(0x2D)
      case 'O' => Some(0x1F)
      case 'P' => Some(0x23)
      case 'Q' => Some(0x0C)
      case 'R' => Some(0x0F)
      case 'S' => Some(0x01)
      case 'T' => Some(0x11)
      case 'U' => Some(0x20)
      case 'V' => Some(0x09)
      case 'W' => Some(0x0D)
      case 'X' => Some(0x07)
      case 'Y' => Some(0x10)
      case 'Z' => Some(0x06)
      case '0' => Some(0x1D)
      case '1' => Some(0x12)
      case '2' => Some(0x13)
      case '3' => Some(0x14)
      case '4' => Some(0x15)
      case '5' => Some(0x17)
      case '6' => Some(0x16)
      case '7' => Some(0x1A)
      case '8' => Some(0x1C)
      case '9' => Some(0x19)
      case _ => None
  }

  /** Reading back a printed key gives the key again; "?" reads back as no
      key. */
  lemma KeyCharacterRoundTrip(code: KeyCode)
    ensures code in AnsiLetterAndDigitCodes ==> KeyCodeOf(KeyCharacter(code)) == Some(code)
    ensures code !in AnsiLetterAndDigitCodes ==> KeyCodeOf(KeyCharacter(code)) == None
  {
    if code in AnsiLetterAndDigitCodes {
      if code <= 0x11 {
        LowCodesRoundTrip(code);
      } else {
        HighCodesRoundTrip(code);
      }
    } else {
      KeyCharacterClasses(code);
    }
  }

  /** The round trip for the codes up to 0x11. */
  lemma LowCodesRoundTrip(code: KeyCode)
    requires code in AnsiLetterAndDigitCodes && code <= 0x11
    ensures KeyCodeOf(KeyCharacter(code)) == Some(code)
  {
  }

  /** The round trip for the codes above 0x11. */
  lemma HighCodesRoundTrip(code: KeyCode)
    requires code in AnsiLetterAndDigitCodes && code > 0x11
    ensures KeyCodeOf(KeyCharacter(code)) == Some(code)
  {
  }

  /** Different printable keys print differently. */
  lemma KeyCharacterInjective(a: KeyCode, b: KeyCode)
    requires KeyCharacter(a) == KeyCharacter(b) != "?"
    ensures a == b
  {
    KeyCharacterClasses(a);
    KeyCharacterRoundTrip(a);
    KeyCharacterRoundTrip(b);
  }

  /** The digit key for slot `i + 1` prints as the digit `i + 1`. */
  lemma DigitKeysPrintTheirSlot(i: nat)
    requires i < 9
    ensures KeyCharacter(NumberKeys[i]) == [('1' as int + i) as char]
  {
  }

  // ---------------------------------------------------------------------
  // Modifiers
  // ---------------------------------------------------------------------

  /** Carbon modifier bits (`cmdKey`, `shiftKey`, `optionKey`, `controlKey`). */
  const CmdKey: bv32 := 0x100
  const ShiftKey: bv32 := 0x200
  const OptionKey: bv32 := 0x800
  const ControlKey: bv32 := 0x1000
  const CarbonModifierMask: bv32 := CmdKey | OptionKey | ControlKey | ShiftKey

  /** AppKit `NSEvent.ModifierFlags` bits (`.shift`, `.control`, `.option`, `.command`). */
  const FlagShift: bv64 := 0x2_0000
  const FlagControl: bv64 := 0x4_0000
  const FlagOption: bv64 := 0x8_0000
  const FlagCommand: bv64 := 0x10_0000
  const FlagMask: bv64 := FlagCommand | FlagOption | FlagControl | FlagShift

  /** The Carbon bits matching the held Command, Option, Control and Shift flags. */
  function CarbonBits(flags: bv64): (r: bv32)
    ensures (r & CmdKey != 0) <==> (flags & FlagCommand != 0)
    ensures (r & OptionKey != 0) <==> (flags & FlagOption != 0)
    ensures (r & ControlKey != 0) <==> (flags & FlagControl != 0)
    ensures (r & ShiftKey != 0) <==> (flags & FlagShift != 0)
    ensures r & !CarbonModifierMask == 0
  {
    (if flags & FlagCommand != 0 then CmdKey else 0) |
    (if flags & FlagOption != 0 then OptionKey else 0) |
    (if flags & FlagControl != 0 then ControlKey else 0) |
    (if flags & FlagShift != 0 then ShiftKey else 0)
  }

  /** `NSEvent.ModifierFlags.carbonModifiers`, accumulating into `result`. */
  method CarbonModifiers(flags: bv64) returns (result: bv32)
    ensures result == CarbonBits(flags)
  {
    result := 0;
    if flags & FlagCommand != 0 { result := result | CmdKey; }
    if flags & FlagOption != 0 { result := result | OptionKey; }
    if flags & FlagControl != 0 { result := result | ControlKey; }
    if flags & FlagShift != 0 { result := result | ShiftKey; }
  }

  /** Flags outside Command, Option, Control and Shift do not change the bits. */
  lemma CarbonBitsIgnoreOtherFlags(flags: bv64)
    ensures CarbonBits(flags) == CarbonBits(flags & FlagMask)
  {
  }

  // Glyphs for the four modifiers, in display order.
  const CommandGlyph: string := "\U{2318}"
  const OptionGlyph: string := "\U{2325}"
  const ControlGlyph: string := "\U{2303}"
  const ShiftGlyph: string := "\U{21E7}"

  /** The glyphs of the set modifier bits, in the order Command, Option,
      Control, Shift. */
  function ModifierParts(mods: bv32): seq<string>
  {
    (if mods & CmdKey != 0 then [CommandGlyph] else []) +
    (if mods & OptionKey != 0 then [OptionGlyph] else []) +
    (if mods & ControlKey != 0 then [ControlGlyph] else []) +
    (if mods & ShiftKey != 0 then [ShiftGlyph] else [])
  }

  /** Display rank of a glyph: Command, Option, Control, Shift. */
  function GlyphRank(g: string): int
  {
    if g == CommandGlyph then 0
    else if g == OptionGlyph then 1
    else if g == ControlGlyph then 2
    else if g == ShiftGlyph then 3
    else 4
  }

  /** One glyph per set bit, in fixed order, each a single character; bits
      other than the four are ignored. */
  lemma ModifierPartsSpec(mods: bv32)
    ensures (CommandGlyph in ModifierParts(mods)) <==> (mods & CmdKey != 0)
    ensures (OptionGlyph in ModifierParts(mods)) <==> (mods & OptionKey != 0)
    ensures (ControlGlyph in ModifierParts(mods)) <==> (mods & ControlKey != 0)
    ensures (ShiftGlyph in ModifierParts(mods)) <==> (mods & ShiftKey != 0)
    ensures forall i, j :: 0 <= i < j < |ModifierParts(mods)| ==>
              GlyphRank(ModifierParts(mods)[i]) < GlyphRank(ModifierParts(mods)[j])
    ensures forall i :: 0 <= i < |ModifierParts(mods)| ==>
              |ModifierParts(mods)[i]| == 1 && ModifierParts(mods)[i][0] != ' '
    ensures ModifierParts(mods) == ModifierParts(mods & CarbonModifierMask)
    ensures ModifierParts(mods) == [] <==> mods & CarbonModifierMask == 0
  {
    ModifierPartsMembership(mods);
    ModifierPartsOrder(mods);
    ModifierPartsIgnoreOtherBits(mods);
  }

  /** Each glyph is present exactly when its bit is set. */
  lemma ModifierPartsMembership(mods: bv32)
    ensures (CommandGlyph in ModifierParts(mods)) <==> (mods & CmdKey != 0)
    ensures (OptionGlyph in ModifierParts(mods)) <==> (mods & OptionKey != 0)
    ensures (ControlGlyph in ModifierParts(mods)) <==> (mods & ControlKey != 0)
    ensures (ShiftGlyph in ModifierParts(mods)) <==> (mods & ShiftKey != 0)
  {
  }

  /** The glyphs come in the fixed order, one character each. */
  lemma ModifierPartsOrder(mods: bv32)
    ensures forall i, j :: 0 <= i < j < |ModifierParts(mods)| ==>
              GlyphRank(ModifierParts(mods)[i]) < GlyphRank(ModifierParts(mods)[j])
    ensures forall i :: 0 <= i < |ModifierParts(mods)| ==>
              |ModifierParts(mods)[i]| == 1 && ModifierParts(mods)[i][0] != ' '
  {
  }

  /** Only the four modifier bits decide the glyphs. */
  lemma ModifierPartsIgnoreOtherBits(mods: bv32)
    ensures ModifierParts(mods) == ModifierParts(mods & CarbonModifierMask)
    ensures ModifierParts(mods) == [] <==> mods & CarbonModifierMask == 0
  {
    var masked := mods & CarbonModifierMask;
    assert masked & CmdKey == mods & CmdKey;
    assert masked & OptionKey == mods & OptionKey;
    assert masked & ControlKey == mods & ControlKey;
    assert masked & ShiftKey == mods & ShiftKey;
  }

  /** `UInt32.modifierSymbols`: the glyphs appended to `parts` and joined
      without a separator. */
  method ModifierSymbols(mods: bv32) returns (s: string)
    ensures s == Join(ModifierParts(mods), "")
  {
    var parts: seq<string> := [];
    if mods & CmdKey != 0 { parts := parts + [CommandGlyph]; }
    if mods & OptionKey != 0 { parts := parts + [OptionGlyph]; }
    if mods & ControlKey != 0 { parts := parts + [ControlGlyph]; }
    if mods & ShiftKey != 0 { parts := parts + [ShiftGlyph]; }
    assert parts == ModifierParts(mods);
    s := Join(parts, "");
  }

  /** The joined glyphs have one character per set modifier bit and list
      them in display order. */
  lemma ModifierSymbolsLayout(mods: bv32)
    ensures |Join(ModifierParts(mods), "")| == |ModifierParts(mods)|
    ensures forall k :: 0 <= k < |ModifierParts(mods)| ==>
              Join(ModifierParts(mods), "")[k] == ModifierParts(mods)[k][0]
  {
    ModifierPartsSpec(mods);
    JoinedSingles(ModifierParts(mods));
  }

  lemma {:induction false} JoinedSingles(parts: seq<string>)
    requires forall i :: 0 <= i < |parts| ==> |parts[i]| == 1
    ensures |Join(parts, "")| == |parts|
    ensures forall k :: 0 <= k < |parts| ==> Join(parts, "")[k] == parts[k][0]
  {
    if |parts| > 1 {
      JoinedSingles(parts[1..]);
      assert Join(parts, "") == parts[0] + Join(parts[1..], "");
    }
  }
}
