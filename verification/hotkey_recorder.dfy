/** The shortcut recorder of Settings/HotkeySettingsPane.swift: while
    recording, a key press with at least one of Command, Option, Control or
    Shift becomes the new global shortcut. */
module Recorder {
  import opened Base
  import opened KeyCodes
  import opened Hotkeys

  /** The combo a key press records while recording, if any. */
  function RecordedCombo(keyCode: KeyCode, flags: bv64): (r: Option<HotkeyCombo>)
    ensures keyCode == Escape ==> r.None?
    ensures flags & FlagMask == 0 ==> r.None?
    ensures r.Some? <==> keyCode != Escape && flags & FlagMask != 0
    ensures r.Some? ==> r.value.keyCode == keyCode
    ensures r.Some? ==> r.value.modifiers == CarbonBits(flags) && r.value.modifiers != 0
  {
    if keyCode == Escape then None
    else
      var modifiers := flags & FlagMask;
      if modifiers == 0 then None
      else
        CarbonBitsIgnoreOtherFlags(flags);
        Some(HotkeyCombo(keyCode, CarbonBits(modifiers)))
  }

  /** `HotkeyRecorderNSView` together with the pane state it writes: the
      recording flag (the pane's `isRecording`, which SwiftUI copies into the
      view) and the stored `globalHotkey`. */
  class HotkeyRecorder {
    var isRecording: bool
    var globalHotkey: HotkeyCombo

    constructor (stored: HotkeyCombo)
      ensures !isRecording && globalHotkey == stored
    {
      isRecording := false;
      globalHotkey := stored;
    }

    /** The `onHotkeyRecorded` closure: store the combo, stop recording. */
    method OnHotkeyRecorded(keyCode: KeyCode, modifiers: bv32)
      modifies this
      ensures globalHotkey == HotkeyCombo(keyCode, modifiers) && !isRecording
    {
      var newHotkey := HotkeyCombo(keyCode, modifiers);
      globalHotkey := newHotkey;
      isRecording := false;
    }

    /** `keyDown(with:)`; `forwarded` is the pass to `super` when not recording. */
    method KeyDown(keyCode: KeyCode, flags: bv64) returns (forwarded: bool)
      modifies this
      ensures forwarded == !old(isRecording)
      ensures !old(isRecording) || RecordedCombo(keyCode, flags).None? ==>
                isRecording == old(isRecording) && globalHotkey == old(globalHotkey)
      ensures old(isRecording) && RecordedCombo(keyCode, flags).Some? ==>
                globalHotkey == RecordedCombo(keyCode, flags).value && !isRecording
    {
      if !isRecording {
        return true;
      }
      forwarded := false;
      if keyCode == Escape {
        return;
      }
      var modifiers := flags & FlagMask;
      if modifiers == 0 {
        return;
      }
      var carbonModifiers := CarbonModifiers(modifiers);
      CarbonBitsIgnoreOtherFlags(flags);
      OnHotkeyRecorded(keyCode, carbonModifiers);
    }
  }
}
