# Kiwa interaction engine in Dafny

Kiwa is a macOS menu-bar utility. A system-wide shortcut opens a floating
panel near the mouse. The panel lists up to nine symbols, such as the
corner brackets 「」 or an em dash, ordered by slot number. The user moves
the highlight with the arrow keys and commits with Return or Command-digit.
Committing closes the panel, copies the symbol's text to the pasteboard and
re-activates the application that was frontmost before.

This project models that engine and proves its contracts:

- the `Symbol` record and its factory list;
- the symbol store: the slot-sorted view, lookup by slot, first free slot,
  and in-place update, capped add, remove and reset;
- the selection state of `AppState`: the `didSet` mirror, the no-wrap moves
  and the two commits;
- the pasteboard writer;
- the floating panel: open, close, toggle, the two event monitors,
  first-match key dispatch, click-outside closing, placement and resize;
- the Carbon hotkey manager: register, unregister, update and the modifier
  masking;
- the key tables, the shortcut text and the shortcut recorder of the
  settings pane.

Files and modules:

| file | module | source |
|---|---|---|
| `base.dfy` | `Base` | Swift's `Optional`, `first(where:)`, `removeAll(where:)`, `joined(separator:)` |
| `symbol.dfy` | `Symbols` | Models/Symbol.swift |
| `symbol_store.dfy` | `Store` | Observables/SymbolStore.swift |
| `selection.dfy` | `Selection` | the navigation rules of Observables/AppState.swift |
| `symbol_inserter.dfy` | `Inserter` | Core/SymbolInserter.swift |
| `key_codes.dfy` | `KeyCodes` | Extensions/KeyCode+Mappings.swift |
| `hotkey_combo.dfy` | `Hotkeys` | Models/HotkeyCombo.swift |
| `hotkey_recorder.dfy` | `Recorder` | `HotkeyRecorderNSView` and the recording closure of Settings/HotkeySettingsPane.swift |
| `hotkey_manager.dfy` | `HotkeyRegistration` | Core/HotkeyManager.swift |
| `panel_rules.dfy` | `PanelRules` | the pure rules of Core/FloatingPanel.swift: key dispatch, click test, geometry |
| `interaction.dfy` | `Interaction` | `AppState` and `FloatingPanel`, which call each other |

Objects the source mutates are classes:

- `SymbolStore`, `AppState` and `FloatingPanel`;
- `HotkeyManager` and `HotkeyRecorder`;
- `Pasteboard` and `SymbolInserter`.

Their methods state the new state in `ensures`. Queries are functions, and
their properties are lemmas.

Calls into the operating system are handled as follows:

- The result of each call is a parameter: the frontmost application, the
  main screen's visible frame, the mouse location, the monitor handles,
  and the outcome of `InstallEventHandler` and `RegisterEventHotKey`.
- The effects of each call are ghost logs:
  - live and removed monitors;
  - installed handlers and registered hotkeys;
  - released references;
  - re-activated applications;
  - shown settings windows.

Constants come from the sources and from Carbon's `Events.h`:

- the virtual key codes;
- `cmdKey` = 0x100, `shiftKey` = 0x200, `optionKey` = 0x800, `controlKey` = 0x1000;
- the AppKit modifier flags: Shift 1<<17, Control 1<<18, Option 1<<19, Command 1<<20.

Behaviour the model follows:

- `verticallyResize(to:)` keeps the top edge fixed (origin.y + height).
- `updateHotkey(_:)` unregisters first. So when the new registration fails,
  no shortcut is registered afterwards.
- `Symbol` declares no `usage` field, although the symbol edit sheet binds one.
- Slot numbers are plain integers. `SymbolStore` itself does not keep them
  in 1..9 or unique, and the persisted list is loaded unchecked. The
  settings pane adds symbols only at `nextAvailableSlot()`, the edit sheet
  has no slot field, and a reset restores slots 1..9.
- The content view of the panel is the hosting view installed by `init` on
  a full-size-content panel. So in window coordinates it covers the whole
  frame and follows every resize.

Lengths in the contracts count Dafny characters, which are Unicode scalar
values. Swift's `String.count` counts grapheme clusters, and those counts
need not add up under concatenation.

## Model

| member | source | states |
|---|---|---|
| Base.FirstIndex | Observables/SymbolStore.swift:31 | `firstIndex(where:)`: none iff no element matches; otherwise a matching index with no match before it |
| Base.First | Observables/SymbolStore.swift:25 | `first(where:)`: none iff no element matches; otherwise a matching element with no match before it |
| Base.Join | Models/HotkeyCombo.swift:22 | `joined(separator:)`; JoinSnoc (used by Hotkeys.DisplayStringAppendsKey), JoinSingles and JoinedSingles state its shape |
| Base.RemoveAll | Observables/SymbolStore.swift:41 | no survivor matches; each non-matching value keeps its multiplicity |
| Base.RemoveAllConcat | Observables/SymbolStore.swift:40-42 | removal distributes over concatenation, so survivors keep their relative order |
| Base.RemoveAllNothingMatches | Observables/SymbolStore.swift:40-42 | removing an id nobody has leaves the list unchanged |
| Symbols.Symbol.IsPaired | Models/Symbol.swift:10-13 | the computed property; IsPairedIff states its meaning |
| Symbols.Symbol.DisplayText | Models/Symbol.swift:15-21 | the text always starts with the opening; DisplayTextPaired and DisplayTextUnpaired give each case |
| Symbols.NewSymbol | Models/Symbol.swift:23-29 | `init` with its nil default for the closing; NewSymbolWithoutClosing states what the default gives |
| Symbols.IsPairedIff | Models/Symbol.swift:10-13 | `isPaired` iff closing is present and non-empty; false for nil and for "" |
| Symbols.DisplayTextPaired | Models/Symbol.swift:15-17 | a paired symbol shows opening then closing: length is the sum, prefix is opening, suffix is closing |
| Symbols.DisplayTextUnpaired | Models/Symbol.swift:18-20 | an unpaired symbol shows its opening alone |
| Symbols.NewSymbolWithoutClosing | Models/Symbol.swift:23-29 | `init` without a closing yields an unpaired symbol that shows its opening |
| Symbols.DefaultSymbols | Models/Symbol.swift:31-41 | nine entries; entry i has the i-th id and slot i + 1 |
| Symbols.DefaultSymbolsShape | Models/Symbol.swift:31-41 | slots strictly increase (1..9, distinct); entries 1-6 are paired, 7-9 have nil closing and are unpaired |
| Symbols.DefaultPaperText | Models/Symbol.swift:32 | the first factory entry shows 「」 |
| Store.InsertBySlot | Observables/SymbolStore.swift:20-22 | insertion into a slot-sorted list stays sorted and adds exactly one element |
| Store.SortBySlot | Observables/SymbolStore.swift:20-22 | `sortedSymbols` is sorted by non-decreasing slot and is a permutation (same multiset) of `symbols` |
| Store.SortedMembers | Observables/SymbolStore.swift:20-22 | the sorted view has the same members as the list |
| Store.SortedHeadIsMinimum | Observables/SymbolStore.swift:20-22 | the head of the sorted view is a member with the smallest slot |
| Store.SymbolFor | Observables/SymbolStore.swift:24-26 | `symbol(for:)` is none iff no symbol has the slot; otherwise it has the slot and no earlier symbol does |
| Store.SymbolForUnique | Observables/SymbolStore.swift:24-26 | with distinct slots the lookup returns the one symbol holding the slot |
| Store.UsedSlots | Observables/SymbolStore.swift:45 | the set of used slots holds exactly the slots some symbol carries |
| Store.FirstFreeSlotFrom | Observables/SymbolStore.swift:46 | the first n..9 not in the set: free, everything before it used; none iff all used |
| Store.NextAvailableSlot | Observables/SymbolStore.swift:44-47 | the smallest slot in 1..9 no symbol uses; none iff all of 1..9 are used |
| Store.FewSymbolsLeaveAFreeSlot | Observables/SymbolStore.swift:44-47 | fewer than nine symbols always leave a free slot |
| Store.AllSlotsNeedNine | Observables/SymbolStore.swift:46 | a set containing 1..9 has at least nine members |
| Store.UsedSlotsBound | Observables/SymbolStore.swift:45 | there are no more used slots than symbols |
| Store.SymbolWithId | Observables/AppState.swift:36-38 | the lookup in `selectWithoutScrolling`: nil id or unknown id gives none; otherwise a member with that id |
| Store.SymbolWithIdOfMember | Observables/AppState.swift:36-38 | with unique ids, looking up a member's id returns that member |
| Store.SymbolStore.constructor | Observables/SymbolStore.swift:14-16 | loads the persisted list; nothing selected |
| Store.SymbolStore.UpdateSymbol | Observables/SymbolStore.swift:30-33 | replaces only the first entry with the id, at its index; same length; unknown id changes nothing |
| Store.SymbolStore.AddSymbol | Observables/SymbolStore.swift:35-38 | appends below nine entries, otherwise no change; never grows past nine |
| Store.SymbolStore.RemoveSymbol | Observables/SymbolStore.swift:40-42 | every entry with the id is gone, the others keep their order and multiplicity |
| Store.SymbolStore.ResetToDefaults | Observables/SymbolStore.swift:51-53 | the list becomes the factory list |
| Selection.IndexOf | Observables/AppState.swift:48 | `firstIndex(of:)` by full-record equality: none iff absent; otherwise the first occurrence |
| Selection.SortedPosition | Observables/AppState.swift:48 | position in the sorted view; none iff the symbol (as a whole record) is not in the list |
| Selection.FirstTarget | Observables/AppState.swift:40-43 | `highlightFirst` target: none iff the list is empty; otherwise the id of a member whose slot is the smallest |
| Selection.PreviousIn | Observables/AppState.swift:45-51 | no move when nothing is selected, the selection is absent, or it is first |
| Selection.NextIn | Observables/AppState.swift:53-59 | no move when nothing is selected or the selection is absent |
| Selection.PreviousTarget | Observables/AppState.swift:45-51 | `highlightPrevious` target: none for nil, a stale copy, or the first sorted symbol |
| Selection.NextTarget | Observables/AppState.swift:53-59 | `highlightNext` target: none for nil or a stale copy |
| Selection.PreviousInIsNeighbour | Observables/AppState.swift:45-51 | any move up lands on the element just before the selected one |
| Selection.NextInIsNeighbour | Observables/AppState.swift:53-59 | any move down lands on the element just after the selected one |
| Selection.IndexOfMember | Observables/AppState.swift:48 | with unique ids, element k is found at k |
| Selection.StepsIn | Observables/AppState.swift:45-59 | with unique ids, up from k gives k - 1 (none at 0), down gives k + 1 (none at the end) |
| Selection.InsertedMembers | Observables/SymbolStore.swift:20-22 | inserting adds exactly the new element to the members |
| Selection.ConsKeepsUniqueIds | Observables/SymbolStore.swift:20-22 | prefixing a symbol with a fresh id keeps ids unique |
| Selection.InsertKeepsUniqueIds | Observables/SymbolStore.swift:20-22 | sorted insertion of a fresh id keeps ids unique |
| Selection.SortKeepsUniqueIds | Observables/SymbolStore.swift:20-22 | sorting keeps ids unique |
| Selection.MirrorOfSorted | Observables/AppState.swift:16-21 | selecting the id of sorted element k mirrors exactly that element |
| Selection.AfterNextOfSorted | Observables/AppState.swift:53-59 | one `highlightNext` from sorted element j mirrors j + 1, or stays on the last |
| Selection.WalkVisitsInSlotOrder | Observables/AppState.swift:40-59 | `highlightFirst` then k × `highlightNext` mirrors sorted element k, then stays on the last |
| Selection.WalkStart | Observables/AppState.swift:40-43 | `highlightFirst` mirrors the head of the sorted view |
| Selection.WalkStep | Observables/AppState.swift:53-59 | each further `highlightNext` advances one sorted position, up to the last |
| Selection.NoWrapAtEnds | Observables/AppState.swift:45-59 | no move down from the last, no move up from the first |
| Selection.StepsBetweenNeighbours | Observables/AppState.swift:45-59 | up from sorted k > 0 selects k - 1; down from k < n - 1 selects k + 1 |
| Inserter.Pasteboard.constructor | Core/SymbolInserter.swift:17 | an empty pasteboard |
| Inserter.Pasteboard.ClearContents | Core/SymbolInserter.swift:18 | the pasteboard is emptied |
| Inserter.Pasteboard.SetString | Core/SymbolInserter.swift:19 | the pasteboard holds exactly the text |
| Inserter.InsertionText | Core/SymbolInserter.swift:9-14 | the written text is `displayText`: opening + non-empty closing, else opening alone |
| Inserter.SymbolInserter.constructor | Core/SymbolInserter.swift:4-6 | the inserter writes to the given pasteboard |
| Inserter.SymbolInserter.Insert | Core/SymbolInserter.swift:8-20 | afterwards the pasteboard holds exactly the symbol's `displayText`, replacing what was there; only the pasteboard changes |
| KeyCodes.SlotNumber | Extensions/KeyCode+Mappings.swift:29-32 | none iff the code is not a digit key; otherwise a slot in 1..9 whose key is the code |
| KeyCodes.NumberKeysDistinct | Extensions/KeyCode+Mappings.swift:7-27 | the nine digit keys are pairwise distinct |
| KeyCodes.SlotNumberOfNumberKey | Extensions/KeyCode+Mappings.swift:29-32 | digit key i selects slot i + 1 |
| KeyCodes.SlotNumberOfOtherKeys | Extensions/KeyCode+Mappings.swift:18-21 | Escape, comma, left arrow and V select no slot |
| KeyCodes.KeyCharacter | Extensions/KeyCode+Mappings.swift:38-78 | every code prints as one character |
| KeyCodes.KeyCharacterClasses | Extensions/KeyCode+Mappings.swift:38-78 | ANSI letter and digit keys print as A-Z or 0-9; exactly the other codes print "?" |
| KeyCodes.KeyCharacterNotSpace | Extensions/KeyCode+Mappings.swift:38-78 | no key prints as a space |
| KeyCodes.KeyCodeOf | Extensions/KeyCode+Mappings.swift:38-78 | the inverse table yields only ANSI letter and digit keys |
| KeyCodes.KeyCharacterRoundTrip | Extensions/KeyCode+Mappings.swift:38-78 | reading back a printed key gives the key; "?" reads back as none |
| KeyCodes.LowCodesRoundTrip | Extensions/KeyCode+Mappings.swift:38-78 | the round trip for codes up to 0x11 |
| KeyCodes.HighCodesRoundTrip | Extensions/KeyCode+Mappings.swift:38-78 | the round trip for codes above 0x11 |
| KeyCodes.KeyCharacterInjective | Extensions/KeyCode+Mappings.swift:38-78 | different printable keys print differently |
| KeyCodes.DigitKeysPrintTheirSlot | Extensions/KeyCode+Mappings.swift:67-75 | digit key i prints as the digit i + 1 |
| KeyCodes.CarbonBits | Extensions/KeyCode+Mappings.swift:86-93 | each Carbon bit is set iff its flag is held; no other bit is set |
| KeyCodes.CarbonModifiers | Extensions/KeyCode+Mappings.swift:86-93 | the accumulating loop computes exactly those bits |
| KeyCodes.CarbonBitsIgnoreOtherFlags | Extensions/KeyCode+Mappings.swift:86-93 | flags other than the four do not change the result |
| KeyCodes.ModifierPartsSpec | Extensions/KeyCode+Mappings.swift:97-104 | one glyph per set bit, in the order ⌘ ⌥ ⌃ ⇧, one character each; other bits ignored; empty iff none of the four is set |
| KeyCodes.ModifierPartsMembership | Extensions/KeyCode+Mappings.swift:99-102 | each glyph is present iff its bit is set |
| KeyCodes.ModifierPartsOrder | Extensions/KeyCode+Mappings.swift:99-102 | glyphs appear in strictly increasing display rank, one non-space character each |
| KeyCodes.ModifierPartsIgnoreOtherBits | Extensions/KeyCode+Mappings.swift:99-102 | only the four bits decide the glyphs |
| KeyCodes.ModifierSymbols | Extensions/KeyCode+Mappings.swift:97-104 | `modifierSymbols` is the glyph list joined without separator |
| KeyCodes.ModifierSymbolsLayout | Extensions/KeyCode+Mappings.swift:97-104 | one character per set bit, in display order, with no separator |
| KeyCodes.JoinedSingles | Extensions/KeyCode+Mappings.swift:103 | joining one-character parts without separator lists their characters |
| Hotkeys.DisplayString | Models/HotkeyCombo.swift:13-23 | `displayString`: the glyph parts and the key character joined by " "; DisplayStringLayout and DisplayStringSpaces state its shape |
| Hotkeys.DisplayStringAppendsKey | Models/HotkeyCombo.swift:20-22 | appending the key character last: the text is the key alone without glyphs, otherwise the glyphs joined by spaces, a space, then the key |
| Hotkeys.DisplayStringLayout | Models/HotkeyCombo.swift:13-23 | length 2m + 1 for m set bits; glyphs at even positions, spaces at odd ones; ends with the key character |
| Hotkeys.DisplayStringSpaces | Models/HotkeyCombo.swift:13-23 | the spaces are exactly the separators (odd positions), so there are m + 1 space-separated parts |
| Hotkeys.DisplayStringWithoutModifiers | Models/HotkeyCombo.swift:13-23 | with none of the four bits set, the text is the key character alone |
| Hotkeys.DefaultHotkeyDisplay | Models/HotkeyCombo.swift:8-11 | the factory shortcut is key D with Shift and Option, shown as "⌥ ⇧ D" |
| Hotkeys.ComboEquality | Models/HotkeyCombo.swift:4-6 | equality is equality of key code and modifier word |
| Recorder.RecordedCombo | Settings/HotkeySettingsPane.swift:70-84 | while recording: nothing for Escape or for no held modifier; otherwise the key with exactly the Carbon bits of the held flags, never zero |
| Recorder.HotkeyRecorder.constructor | Settings/HotkeySettingsPane.swift:6-7 | not recording; the stored shortcut is kept |
| Recorder.HotkeyRecorder.OnHotkeyRecorded | Settings/HotkeySettingsPane.swift:31-35 | stores `HotkeyCombo(keyCode, modifiers)` and stops recording |
| Recorder.HotkeyRecorder.KeyDown | Settings/HotkeySettingsPane.swift:64-85 | forwards iff not recording; records nothing when forwarded, on Escape or with no modifier; otherwise stores the recorded combo and stops recording |
| HotkeyRegistration.Registered | Core/HotkeyManager.swift:85-92 | the combo handed to Carbon keeps the key code and only the four modifier bits, each of Command, Option, Control and Shift set iff it was set; an already masked combo passes through unchanged |
| HotkeyRegistration.CarbonModifierWord | Core/HotkeyManager.swift:51-55 | the word equals `modifiers & (cmdKey or optionKey or controlKey or shiftKey)`, bit by bit |
| HotkeyRegistration.HotkeyManager.constructor | Core/HotkeyManager.swift:8-14 | no references, no callback, nothing registered with the OS |
| HotkeyRegistration.HotkeyManager.RegisterCarbonHotkey | Core/HotkeyManager.swift:49-99 | failed install: nothing changes and no registration is attempted; failed registration: handler installed, hotkey unchanged; success: the masked combo is registered under the new reference |
| HotkeyRegistration.HotkeyManager.Register | Core/HotkeyManager.swift:24-28 | stores the callback; from a clean state exactly the stored combo (masked) fires it, or nothing fires when the OS refused |
| HotkeyRegistration.HotkeyManager.Unregister | Core/HotkeyManager.swift:30-40 | all three fields nil; each held reference released once (a second call releases nothing); nothing fires |
| HotkeyRegistration.HotkeyManager.UpdateHotkey | Core/HotkeyManager.swift:42-47 | no-op without a callback; otherwise the old references are released, the same callback is kept and exactly the new combo fires it, or nothing fires when the OS refused |
| PanelRules.KeyCommand | Core/FloatingPanel.swift:177-216 | first-match dispatch; passes through iff the key is none of Escape/Up/Down/Return and not Command-comma or Command-digit; a slot commit needs Command and a digit key |
| PanelRules.FixedKeysIgnoreCommand | Core/FloatingPanel.swift:177-204 | Escape closes, Up/Down move, Return commits, with or without Command |
| PanelRules.DigitKeys | Core/FloatingPanel.swift:207-216 | Command-digit i + 1 commits slot i + 1; a bare digit passes through |
| PanelRules.CommaNeedsCommand | Core/FloatingPanel.swift:183-186 | comma opens the settings only with Command |
| PanelRules.Clamped | Core/FloatingPanel.swift:122-127 | the clamped coordinate is at least the lower edge; fits below the upper edge when the panel fits; keeps a centred position that fits; sticks to the lower edge when the panel is too big |
| PanelRules.PlacedOrigin | Core/FloatingPanel.swift:115-130 | placed x ≥ minX, y ≥ minY; x + width ≤ maxX and y + height ≤ maxY when the panel fits |
| PanelRules.PlacementInsideScreen | Core/FloatingPanel.swift:122-127 | a panel that fits lies inside the screen; a centred position that fits is kept |
| PanelRules.VerticallyResized | Core/FloatingPanel.swift:100-105 | new height; top edge (y + height), x and width unchanged |
| PanelRules.ResizeComposes | Core/FloatingPanel.swift:100-105 | two resizes equal one to the final height; resizing to the current height changes nothing |
| PanelRules.ClickCloses | Core/FloatingPanel.swift:220-224 | `handleMouseDown`'s test on `contentView?.frame ?? .zero`; ClickClosesCases states both cases |
| PanelRules.ClickClosesCases | Core/FloatingPanel.swift:219-226 | without a content view every click closes; with one, a click closes iff it is outside the frame |
| Interaction.AppState.constructor | Observables/AppState.swift:29-32 | nothing selected, keyboard navigation on, no previous application |
| Interaction.AppState.AttachPanel | Observables/AppState.swift:13 | the panel reference is set |
| Interaction.AppState.SelectWithoutScrolling | Observables/AppState.swift:36-38 | the mirrored symbol is the first with the id, none for nil or unknown ids |
| Interaction.AppState.SetSelection | Observables/AppState.swift:16-21 | after an assignment to `selection`, `scrollTarget` equals it and the mirror is the first symbol with that id |
| Interaction.AppState.HighlightFirst | Observables/AppState.swift:40-43 | an empty list changes nothing; otherwise selects the head of the sorted view, mirrored |
| Interaction.AppState.HighlightPrevious | Observables/AppState.swift:45-51 | keyboard navigation set even on a no-op; moves to the previous-target or changes nothing |
| Interaction.AppState.HighlightNext | Observables/AppState.swift:53-59 | keyboard navigation set even on a no-op; moves to the next-target or changes nothing |
| Interaction.AppState.ClosePopup | Observables/Popup.swift:20-22 | an attached panel ends as `close()` leaves it: closed, hidden, button unhighlighted, frame unchanged, each held monitor removed once and logged; bookkeeping kept with no monitor live |
| Interaction.AppState.Commit | Observables/AppState.swift:66-68 | panel closed as by `close()` (hidden, unhighlighted, frame kept, exact removal log), pasteboard holds the symbol's text, previous application re-activated once |
| Interaction.AppState.SelectCurrentSymbol | Observables/AppState.swift:64-69 | no selection: no close, no write, no activation; otherwise commits the selected symbol |
| Interaction.AppState.SelectSymbol | Observables/AppState.swift:72-77 | commits exactly `symbol(for:)` of the slot; an unused slot does nothing |
| Interaction.AppState.OpenSettings | Observables/AppState.swift:79-82 | the panel ends closed as by `close()` (hidden, unhighlighted, frame kept, exact removal log) and the settings window is shown once more |
| Interaction.FloatingPanel.constructor | Core/FloatingPanel.swift:21-43 | not presented, no monitors, monitor bookkeeping consistent |
| Interaction.FloatingPanel.StartEventMonitors | Core/FloatingPanel.swift:134-155 | both handles stored and live; bookkeeping kept when none were held |
| Interaction.FloatingPanel.StopEventMonitors | Core/FloatingPanel.swift:157-166 | both handles nil; each held monitor removed exactly once, none removed twice |
| Interaction.FloatingPanel.Close | Core/FloatingPanel.swift:92-98 | closed (not presented, no handles) and hidden, button unhighlighted, frame unchanged, removal log grows by exactly the held handles; bookkeeping kept with no monitor live; a second close removes nothing more |
| Interaction.FloatingPanel.PositionNearMouse | Core/FloatingPanel.swift:115-130 | the origin becomes the clamped placement; no main screen leaves the frame |
| Interaction.FloatingPanel.VerticallyResize | Core/FloatingPanel.swift:100-111 | the frame becomes the resized frame (top edge kept); the content frame takes the new height |
| Interaction.FloatingPanel.PresentNearMouse | Core/FloatingPanel.swift:80-86 | placed, ordered front, presented, monitors started, button highlighted |
| Interaction.FloatingPanel.Open | Core/FloatingPanel.swift:76-90 | presented with both handles set, `previousApp` is the former frontmost application, the first symbol is highlighted |
| Interaction.FloatingPanel.Toggle | Core/FloatingPanel.swift:68-74 | flips `isPresented`: closes an open panel exactly as `close()` does without touching the app state, opens a closed one exactly as `open()` does (visible, button highlighted, placed near the mouse with its size kept, the new handles live and nothing removed, previous application recorded, first symbol highlighted); monitor bookkeeping kept |
| Interaction.FloatingPanel.OnUpArrow | Core/FloatingPanel.swift:189-192 | moves to the previous-target; the panel, the pasteboard, activations and the settings count are unchanged |
| Interaction.FloatingPanel.OnDownArrow | Core/FloatingPanel.swift:193-196 | moves to the next-target; the panel, the pasteboard, activations and the settings count are unchanged |
| Interaction.FloatingPanel.OnReturn | Core/FloatingPanel.swift:199-204 | commits the selected symbol; selection, mirror, symbol list and settings count unchanged |
| Interaction.FloatingPanel.OnCommandDigit | Core/FloatingPanel.swift:207-214 | commits `symbol(for:)` of the slot; selection, mirror, symbol list and settings count unchanged |
| Interaction.FloatingPanel.HandleKeyDown | Core/FloatingPanel.swift:171-217 | not presented or unmatched: event returned, nothing changes. Each matched key is swallowed, runs its command and changes nothing else: Escape closes exactly as `close()` does and leaves the app state and pasteboard alone; Command-comma closes as `close()` does and shows settings without writing or activating; the arrows only move the highlight; Return and Command-digit commit (closing as `close()` does) without moving it. Monitor bookkeeping is kept throughout |
| Interaction.FloatingPanel.HandleMouseDown | Core/FloatingPanel.swift:219-229 | a click outside the current content frame closes exactly as `close()` does, one inside changes nothing; always returns the event |
| Interaction.FloatingPanel.LocalMonitor | Core/FloatingPanel.swift:141-154 | ignores everything while not presented; key events as `handleKeyDown` with its per-command frame; a mouse-down outside the content frame closes exactly as `close()` does, one inside leaves the panel unchanged, and neither touches the app state or pasteboard; other events returned unchanged |
| Interaction.FloatingPanel.GlobalMonitor | Core/FloatingPanel.swift:136-138 | a key press elsewhere goes through the same key handling, with the same per-command frame, closing paths included |

## Left out

- Persistence: the `Defaults` writes and reads of the symbol list and the shortcut. The stored values are constructor and method parameters.
- The `Defaults.updates` stream that calls `updateHotkey`. Each update is an explicit `UpdateHotkey` call.
- The C callback that Carbon runs on a hotkey press. `Fires` states which callback the OS would run.
- The OS itself is not modelled: pasteboard, event monitors, Carbon, `NSWorkspace`, `NSApp.activate`, `NSScreen`. Results are parameters; effects are ghost logs.
- PanelRules.Rect: the edges are `origin` and `origin + size` as stored. CGRect's `minX`, `maxX` and `height` standardize a negative size first, so the model matches them only for the non-negative sizes AppKit gives windows and screens.
- Interaction.FloatingPanel.HandleMouseDown: the `?? .zero` fallback for a missing content view is never reached, because `init` always installs one. PanelRules.ClickClosesCases states that case on its own.
- Window chrome, `NSHostingView` content and `configurePanel` are left out, because they are rendering only.
- The `NSAnimationContext` animation is not modelled: the resize takes the final frame.
- `CGFloat` rounding is not modelled: geometry is over `real`.
- `onClose` is not modelled. The application delegate passes a closure that does nothing.
- The unused `simulatePaste` and `simulateLeftArrow` helpers of the inserter.
- `openAbout`, `quit`, the views, menus and localised strings. Labels are opaque strings.
- Interaction.FloatingPanel.HandleKeyDown: Return and Command-digit run their commit synchronously. The source schedules it on the main actor with `Task`, so it runs after the handler returns.
- Interaction.FloatingPanel.Open: the monitor bookkeeping is promised only when opening a closed panel. Opening an open panel overwrites both handles without removing the old monitors, as the source does.
- Interaction.FloatingPanel.Close: `super.close()` is modelled as the panel no longer being visible. Nothing else about the window is modelled.
- Store.SortBySlot: Swift's `sorted(by:)` is not documented as stable. The model is a stable insertion sort, so symbols sharing a slot keep their list order.
- HotkeyRegistration.HotkeyManager.RegisterCarbonHotkey: when `InstallEventHandler` fails, the model leaves `eventHandler` as it was. Likewise, when `RegisterEventHotKey` fails, it leaves `hotKeyRef` as it was. The model does not cover anything Carbon might write to either out-parameter on failure.
- Recorder.HotkeyRecorder: the pane's `isRecording` and the view's copy of it, which SwiftUI synchronises, are one field.
- Symbols.NewSymbol: the random `UUID()` default of `id` is a parameter.
