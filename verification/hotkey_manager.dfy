/** Core/HotkeyManager.swift: keeps one system-wide shortcut registered with
    the Carbon event manager and re-registers it when the stored combo
    changes. The operating system's side (installed handlers, registered
    hotkeys, release calls) is ghost state; each OS call's outcome is a
    parameter. */
module HotkeyRegistration {
  import opened Base
  import opened KeyCodes
  import opened Hotkeys

  /** An `EventHotKeyRef` returned by `RegisterEventHotKey`. */
  type HotKeyRef = nat
  /** An `EventHandlerRef` returned by `InstallEventHandler`. */
  type HandlerRef = nat
  /** The registered closure, by identity. */
  type Callback = nat

  /** The combo as handed to `RegisterEventHotKey`: the four modifier bits kept. */
  function Registered(hotkey: HotkeyCombo): (r: HotkeyCombo)
    ensures r.keyCode == hotkey.keyCode
    ensures r.modifiers & CarbonModifierMask == r.modifiers
    ensures hotkey.modifiers & CarbonModifierMask == hotkey.modifiers ==> r == hotkey
    ensures r.modifiers & CmdKey != 0 <==> hotkey.modifiers & CmdKey != 0
    ensures r.modifiers & OptionKey != 0 <==> hotkey.modifiers & OptionKey != 0
    ensures r.modifiers & ControlKey != 0 <==> hotkey.modifiers & ControlKey != 0
    ensures r.modifiers & ShiftKey != 0 <==> hotkey.modifiers & ShiftKey != 0
  {
    HotkeyCombo(hotkey.keyCode, hotkey.modifiers & CarbonModifierMask)
  }

  /** The modifier conversion at the head of `registerCarbonHotkey`: each of
      Command, Option, Control and Shift is copied when set. */
  method CarbonModifierWord(modifiers: bv32) returns (carbonModifiers: bv32)
    ensures carbonModifiers == modifiers & CarbonModifierMask
    ensures carbonModifiers & CmdKey != 0 <==> modifiers & CmdKey != 0
    ensures carbonModifiers & OptionKey != 0 <==> modifiers & OptionKey != 0
    ensures carbonModifiers & ControlKey != 0 <==> modifiers & ControlKey != 0
    ensures carbonModifiers & ShiftKey != 0 <==> modifiers & ShiftKey != 0
  {
    carbonModifiers := 0;
    if modifiers & CmdKey != 0 { carbonModifiers := carbonModifiers | CmdKey; }
    if modifiers & OptionKey != 0 { carbonModifiers := carbonModifiers | OptionKey; }
    if modifiers & ControlKey != 0 { carbonModifiers := carbonModifiers | ControlKey; }
    if modifiers & ShiftKey != 0 { carbonModifiers := carbonModifiers | ShiftKey; }
  }

  class HotkeyManager {
    var hotKeyRef: Option<HotKeyRef>
    var hotkeyCallback: Option<Callback>
    var eventHandler: Option<HandlerRef>

    /** Hotkeys registered with the OS and not yet unregistered. */
    ghost var osHotkeys: map<HotKeyRef, HotkeyCombo>
    /** Handlers installed with the OS and not yet removed. */
    ghost var osHandlers: set<HandlerRef>
    /** `UnregisterEventHotKey` and `RemoveEventHandler` calls, in order. */
    ghost var releasedHotkeys: seq<HotKeyRef>
    ghost var removedHandlers: seq<HandlerRef>

    /** What the OS holds is exactly what the manager remembers. */
    ghost predicate Valid()
      reads this
    {
      osHotkeys.Keys == OptionSet(hotKeyRef) && osHandlers == OptionSet(eventHandler)
    }

    /** The callback the OS runs when `keyCode` is pressed with exactly
        `modifiers`: the manager's current one, once some handler is
        installed and the combo is registered. */
    ghost function Fires(keyCode: KeyCode, modifiers: bv32): Option<Callback>
      reads this
    {
      if osHandlers != {} && HotkeyCombo(keyCode, modifiers) in osHotkeys.Values then hotkeyCallback
      else None
    }

    constructor ()
      ensures hotKeyRef == None && hotkeyCallback == None && eventHandler == None
      ensures osHotkeys == map[] && osHandlers == {}
      ensures releasedHotkeys == [] && removedHandlers == []
      ensures Valid()
    {
      hotKeyRef := None;
      hotkeyCallback := None;
      eventHandler := None;
      osHotkeys := map[];
      osHandlers := {};
      releasedHotkeys := [];
      removedHandlers := [];
    }

    /** `registerCarbonHotkey(_:)`. `installed` is the handler the OS hands
        back, none when `InstallEventHandler` fails; `registration` likewise
        for `RegisterEventHotKey`. A failed install stops before
        registering; a failed registration leaves the handler installed. */
    method RegisterCarbonHotkey(hotkey: HotkeyCombo, installed: Option<HandlerRef>,
                                registration: Option<HotKeyRef>)
      requires installed.Some? ==> installed.value !in osHandlers
      requires registration.Some? ==> registration.value !in osHotkeys
      modifies this
      ensures hotkeyCallback == old(hotkeyCallback)
      ensures releasedHotkeys == old(releasedHotkeys) && removedHandlers == old(removedHandlers)
      ensures installed.None? ==>
                eventHandler == old(eventHandler) && osHandlers == old(osHandlers) &&
                hotKeyRef == old(hotKeyRef) && osHotkeys == old(osHotkeys)
      ensures installed.Some? ==>
                eventHandler == installed && osHandlers == old(osHandlers) + {installed.value}
      ensures installed.Some? && registration.None? ==>
                hotKeyRef == old(hotKeyRef) && osHotkeys == old(osHotkeys)
      ensures installed.Some? && registration.Some? ==>
                hotKeyRef == registration &&
                osHotkeys == old(osHotkeys)[registration.value := Registered(hotkey)]
    {
      var carbonModifiers := CarbonModifierWord(hotkey.modifiers);
      if installed.None? {
        return;
      }
      eventHandler := installed;
      osHandlers := osHandlers + {installed.value};
      if registration.Some? {
        hotKeyRef := registration;
        osHotkeys := osHotkeys[registration.value := HotkeyCombo(hotkey.keyCode, carbonModifiers)];
      }
    }

    /** `register(callback:)` with the stored shortcut `stored`. Registering
        once from a clean state makes exactly the stored combo fire the
        callback. */
    method Register(callback: Callback, stored: HotkeyCombo, installed: Option<HandlerRef>,
                    registration: Option<HotKeyRef>)
      requires installed.Some? ==> installed.value !in osHandlers
      requires registration.Some? ==> registration.value !in osHotkeys
      modifies this
      ensures hotkeyCallback == Some(callback)
      ensures releasedHotkeys == old(releasedHotkeys) && removedHandlers == old(removedHandlers)
      ensures installed.Some? ==> eventHandler == installed
      ensures installed.Some? && registration.Some? ==> hotKeyRef == registration
      ensures installed.None? ==> eventHandler == old(eventHandler) && hotKeyRef == old(hotKeyRef)
      ensures old(Valid()) && old(eventHandler).None? && old(hotKeyRef).None? ==>
                Valid() &&
                forall k: KeyCode, m: bv32 :: Fires(k, m) ==
                  (if installed.Some? && registration.Some? && HotkeyCombo(k, m) == Registered(stored)
                   then Some(callback) else None)
    {
      hotkeyCallback := Some(callback);
      RegisterCarbonHotkey(stored, installed, registration);
    }

    /** `unregister()`: releases the hotkey and the handler it holds, each
        once, and forgets the callback. */
    method Unregister()
      modifies this
      ensures hotKeyRef == None && eventHandler == None && hotkeyCallback == None
      ensures releasedHotkeys == old(releasedHotkeys) + OptionSeq(old(hotKeyRef))
      ensures removedHandlers == old(removedHandlers) + OptionSeq(old(eventHandler))
      ensures osHotkeys == old(osHotkeys) - OptionSet(old(hotKeyRef))
      ensures osHandlers == old(osHandlers) - OptionSet(old(eventHandler))
      ensures old(Valid()) ==> Valid() && osHotkeys == map[] && osHandlers == {}
      ensures forall k: KeyCode, m: bv32 :: Fires(k, m) == None
    {
      if hotKeyRef.Some? {
        releasedHotkeys := releasedHotkeys + [hotKeyRef.value];
        osHotkeys := osHotkeys - {hotKeyRef.value};
        hotKeyRef := None;
      }
      if eventHandler.Some? {
        removedHandlers := removedHandlers + [eventHandler.value];
        osHandlers := osHandlers - {eventHandler.value};
        eventHandler := None;
      }
      hotkeyCallback := None;
    }

    /** `updateHotkey(_:)`: without a callback nothing happens; otherwise the
        old registration is released first and the new combo registered,
        so afterwards exactly the new combo fires the same callback, or
        nothing fires when the OS refused. */
    method UpdateHotkey(hotkey: HotkeyCombo, installed: Option<HandlerRef>,
                        registration: Option<HotKeyRef>)
      requires installed.Some? ==> installed.value !in osHandlers - OptionSet(eventHandler)
      requires registration.Some? ==> registration.value !in osHotkeys.Keys - OptionSet(hotKeyRef)
      modifies this
      ensures old(hotkeyCallback).None? ==>
                hotKeyRef == old(hotKeyRef) && eventHandler == old(eventHandler) &&
                hotkeyCallback == None && osHotkeys == old(osHotkeys) && osHandlers == old(osHandlers) &&
                releasedHotkeys == old(releasedHotkeys) && removedHandlers == old(removedHandlers)
      ensures old(hotkeyCallback).Some? ==>
                hotkeyCallback == old(hotkeyCallback) &&
                releasedHotkeys == old(releasedHotkeys) + OptionSeq(old(hotKeyRef)) &&
                removedHandlers == old(removedHandlers) + OptionSeq(old(eventHandler))
      ensures old(hotkeyCallback).Some? && installed.Some? ==> eventHandler == installed
      ensures old(hotkeyCallback).Some? && installed.Some? && registration.Some? ==> hotKeyRef == registration
      ensures old(hotkeyCallback).Some? && (installed.None? || registration.None?) ==> hotKeyRef == None
      ensures old(Valid()) ==> Valid()
      ensures old(Valid()) && old(hotkeyCallback).Some? ==>
                forall k: KeyCode, m: bv32 :: Fires(k, m) ==
                  (if installed.Some? && registration.Some? && HotkeyCombo(k, m) == Registered(hotkey)
                   then old(hotkeyCallback) else None)
    {
      if hotkeyCallback.None? {
        return;
      }
      var callback := hotkeyCallback.value;
      Unregister();
      hotkeyCallback := Some(callback);
      RegisterCarbonHotkey(hotkey, installed, registration);
    }
  }
}
