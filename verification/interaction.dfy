/** The interaction engine: `AppState` of Observables/AppState.swift (the
    selection and the commit actions) and `FloatingPanel` of
    Core/FloatingPanel.swift (open/close, event monitors, key and mouse
    routing). The two refer to each other, so they share one module.
    Operating-system effects are ghost logs: activated applications, shown
    settings windows, installed and removed event monitors. */
module Interaction {
  import opened Base
  import opened Symbols
  import opened Store
  import opened Selection
  import opened Inserter
  import opened KeyCodes
  import opened PanelRules

  /** An `NSRunningApplication`, by identity. */
  type AppId = nat
  /** The opaque object `NSEvent.add…MonitorForEvents` returns. */
  type MonitorHandle = nat

  /** The events the two monitors see. */
  datatype Event =
    | KeyDown(keyCode: KeyCode, flags: bv64)
    | LeftMouseDown(location: Point)
    | RightMouseDown(location: Point)
    | OtherEvent

  /** The command a key event means to a presented panel. */
  function CommandOf(ev: Event): Command
    requires ev.KeyDown?
  {
    KeyCommand(ev.keyCode, HasCommand(ev.flags))
  }

  class AppState {
    const store: SymbolStore
    const inserter: SymbolInserter
    /** Set by the application delegate once the panel exists. */
    var panel: FloatingPanel?

    var selection: Option<Uuid>
    var scrollTarget: Option<Uuid>
    var isKeyboardNavigating: bool
    var previousApp: Option<AppId>

    /** Applications re-activated with `activate(options:)`, in order. */
    ghost var activations: seq<AppId>
    /** How often the settings window was shown. */
    ghost var settingsShown: nat

    constructor (store: SymbolStore, inserter: SymbolInserter)
      ensures this.store == store && this.inserter == inserter && panel == null
      ensures selection == None && scrollTarget == None && isKeyboardNavigating
      ensures previousApp == None && activations == [] && settingsShown == 0
    {
      this.store := store;
      this.inserter := inserter;
      panel := null;
      selection := None;
      scrollTarget := None;
      isKeyboardNavigating := true;
      previousApp := None;
      activations := [];
      settingsShown := 0;
    }

    method AttachPanel(p: FloatingPanel?)
      modifies this`panel
      ensures panel == p
    {
      panel := p;
    }

    /** What the `didSet` of `selection` maintains: the scroll target and the
        mirrored symbol follow the selected id. */
    ghost predicate SelectionMirrored()
      reads this, store
    {
      scrollTarget == selection && store.selectedSymbol == SymbolWithId(store.symbols, selection)
    }

    /** A move to `target`: selected and mirrored, or no change at all when
        there is no target. */
    twostate predicate MovedTo(target: Option<Uuid>)
      reads this, store
    {
      if target.None? then
        selection == old(selection) && scrollTarget == old(scrollTarget) &&
        store.selectedSymbol == old(store.selectedSymbol)
      else
        selection == target && SelectionMirrored()
    }

    /** The selection, its mirror and the symbol list are as they were. */
    twostate predicate NavigationKept()
      reads this, store
    {
      selection == old(selection) && scrollTarget == old(scrollTarget) &&
      isKeyboardNavigating == old(isKeyboardNavigating) && unchanged(store)
    }

    /** A commit of `symbol`: the panel is closed, the pasteboard holds the
        symbol's text and the previous application is re-activated; with no
        symbol, none of this happens. */
    twostate predicate Committed(new symbol: Option<Symbol>)
      reads this, inserter.pasteboard, panel
    {
      panel == old(panel) &&
      if symbol.None? then
        unchanged(inserter.pasteboard) && activations == old(activations) &&
        (panel != null ==> unchanged(panel))
      else
        inserter.pasteboard.contents == Some(symbol.value.DisplayText()) &&
        activations == old(activations) + OptionSeq(previousApp) &&
        (panel != null ==> panel.ClosedKeepingTrack())
    }

    /** `selectWithoutScrolling(_:)`. */
    method SelectWithoutScrolling(id: Option<Uuid>)
      modifies store`selectedSymbol
      ensures store.selectedSymbol == SymbolWithId(store.symbols, id)
    {
      store.selectedSymbol := SymbolWithId(store.symbols, id);
    }

    /** An assignment to `selection`, running its `didSet`. */
    method SetSelection(id: Option<Uuid>)
      modifies this`selection, this`scrollTarget, store`selectedSymbol
      ensures selection == id && SelectionMirrored()
    {
      selection := id;
      SelectWithoutScrolling(selection);
      scrollTarget := selection;
    }

    /** `highlightFirst()`. */
    method HighlightFirst()
      modifies this`selection, this`scrollTarget, store`selectedSymbol
      ensures MovedTo(FirstTarget(store.symbols))
    {
      if |store.symbols| == 0 {
        return;
      }
      var sorted := SortBySlot(store.symbols);
      SetSelection(Some(sorted[0].id));
    }

    /** `highlightPrevious()`: marks keyboard navigation even when it does
        not move. */
    method HighlightPrevious()
      modifies this`selection, this`scrollTarget, this`isKeyboardNavigating, store`selectedSymbol
      ensures isKeyboardNavigating
      ensures MovedTo(PreviousTarget(store.symbols, old(store.selectedSymbol)))
    {
      isKeyboardNavigating := true;
      if store.selectedSymbol.None? {
        return;
      }
      var sorted := SortBySlot(store.symbols);
      var index := SortedPosition(store.symbols, store.selectedSymbol.value);
      if index.None? || index.value == 0 {
        return;
      }
      SetSelection(Some(sorted[index.value - 1].id));
    }

    /** `highlightNext()`: marks keyboard navigation even when it does not
        move. */
    method HighlightNext()
      modifies this`selection, this`scrollTarget, this`isKeyboardNavigating, store`selectedSymbol
      ensures isKeyboardNavigating
      ensures MovedTo(NextTarget(store.symbols, old(store.selectedSymbol)))
    {
      isKeyboardNavigating := true;
      if store.selectedSymbol.None? {
        return;
      }
      var sorted := SortBySlot(store.symbols);
      var index := SortedPosition(store.symbols, store.selectedSymbol.value);
      if index.None? || index.value >= |sorted| - 1 {
        return;
      }
      SetSelection(Some(sorted[index.value + 1].id));
    }

    /** `popup.close()`, which closes the attached panel if there is one. */
    method ClosePopup()
      modifies panel
      ensures panel != null ==> panel.ClosedKeepingTrack()
    {
      if panel != null {
        panel.Close();
      }
    }

    /** Close, insert, re-activate: the shared tail of the two commits. */
    method Commit(symbol: Symbol)
      modifies panel, inserter.pasteboard, this`activations
      ensures Committed(Some(symbol))
    {
      ClosePopup();
      inserter.Insert(symbol);
      if previousApp.Some? {
        activations := activations + [previousApp.value];
      }
    }

    /** `selectCurrentSymbol()`: commits the highlighted symbol, if any. */
    method SelectCurrentSymbol()
      modifies panel, inserter.pasteboard, this`activations
      ensures Committed(store.selectedSymbol)
    {
      if store.selectedSymbol.None? {
        return;
      }
      Commit(store.selectedSymbol.value);
    }

    /** `selectSymbol(at:)`: commits the first symbol in slot `slotNumber`,
        if any. */
    method SelectSymbol(slotNumber: int)
      modifies panel, inserter.pasteboard, this`activations
      ensures Committed(SymbolFor(store.symbols, slotNumber))
    {
      var symbol := SymbolFor(store.symbols, slotNumber);
      if symbol.None? {
        return;
      }
      Commit(symbol.value);
    }

    /** `openSettings()`: closes the panel and shows the settings window. */
    method OpenSettings()
      modifies panel, this`settingsShown
      ensures settingsShown == old(settingsShown) + 1
      ensures panel != null ==> panel.ClosedKeepingTrack()
    {
      ClosePopup();
      settingsShown := settingsShown + 1;
    }
  }

  class FloatingPanel {
    /** The shared `AppState` the panel drives. */
    const app: AppState
    const hasStatusBarButton: bool

    var isPresented: bool
    /** Ordered in front (`makeKeyAndOrderFront`) and not yet closed. */
    var isVisible: bool
    /** `statusBarButton?.isHighlighted`; meaningless without a button. */
    var statusBarHighlighted: bool
    var localEventMonitor: Option<MonitorHandle>
    var globalEventMonitor: Option<MonitorHandle>
    var frame: Rect

    /** Monitors installed with the OS and not yet removed. */
    ghost var liveMonitors: set<MonitorHandle>
    /** `NSEvent.removeMonitor` calls, in order. */
    ghost var removedMonitors: seq<MonitorHandle>

    constructor (app: AppState, frame: Rect, hasStatusBarButton: bool)
      ensures this.app == app && this.frame == frame
      ensures this.hasStatusBarButton == hasStatusBarButton
      ensures !isPresented && !isVisible && !statusBarHighlighted
      ensures localEventMonitor == None && globalEventMonitor == None
      ensures liveMonitors == {} && removedMonitors == []
      ensures MonitorsTracked()
    {
      this.app := app;
      this.hasStatusBarButton := hasStatusBarButton;
      this.frame := frame;
      isPresented := false;
      isVisible := false;
      statusBarHighlighted := false;
      localEventMonitor := None;
      globalEventMonitor := None;
      liveMonitors := {};
      removedMonitors := [];
    }

    predicate IsClosed()
      reads this
    {
      !isPresented && localEventMonitor.None? && globalEventMonitor.None?
    }

    /** `contentView?.frame`, in window coordinates. `init` installs the
        hosting view as the content view of a `.fullSizeContentView` panel,
        so it covers the whole frame and follows every resize. */
    function ContentFrame(): Rect
      reads this
    {
      Rect(Point(0.0, 0.0), frame.size)
    }

    /** The monitors the OS holds are exactly the two handles, which are
        distinct; no monitor was removed twice or is removed and still
        live. */
    ghost predicate HandlesTracked()
      reads this
    {
      liveMonitors == OptionSet(localEventMonitor) + OptionSet(globalEventMonitor) &&
      (localEventMonitor.Some? && globalEventMonitor.Some? ==>
         localEventMonitor.value != globalEventMonitor.value) &&
      (forall i, j :: 0 <= i < j < |removedMonitors| ==> removedMonitors[i] != removedMonitors[j]) &&
      (forall i :: 0 <= i < |removedMonitors| ==> removedMonitors[i] !in liveMonitors)
    }

    /** The handles are tracked, and a panel that is not presented holds no
        monitor. */
    ghost predicate MonitorsTracked()
      reads this
    {
      HandlesTracked() && (!isPresented ==> localEventMonitor.None? && globalEventMonitor.None?)
    }

    /** What `close()` leaves behind: closed and hidden, the status bar
        button (if any) unhighlighted, the frame where it was, each held
        monitor removed once; bookkeeping that held before still holds,
        with no monitor left live. */
    twostate predicate ClosedKeepingTrack()
      reads this
    {
      IsClosed() && !isVisible &&
      statusBarHighlighted == (if hasStatusBarButton then false else old(statusBarHighlighted)) &&
      frame == old(frame) &&
      removedMonitors ==
        old(removedMonitors) + OptionSeq(old(localEventMonitor)) + OptionSeq(old(globalEventMonitor)) &&
      liveMonitors ==
        old(liveMonitors) - OptionSet(old(localEventMonitor)) - OptionSet(old(globalEventMonitor)) &&
      (old(MonitorsTracked()) ==> MonitorsTracked() && liveMonitors == {})
    }

    /** Handles the OS hands out are new: neither live nor removed before. */
    ghost predicate FreshMonitors(local: Option<MonitorHandle>, global: Option<MonitorHandle>)
      reads this
    {
      (local.Some? ==> local.value !in liveMonitors && local.value !in removedMonitors) &&
      (global.Some? ==> global.value !in liveMonitors && global.value !in removedMonitors) &&
      (local.Some? && global.Some? ==> local.value != global.value)
    }

    /** `startEventMonitors()`; `local` and `global` are what the OS returns. */
    method StartEventMonitors(local: Option<MonitorHandle>, global: Option<MonitorHandle>)
      requires FreshMonitors(local, global)
      modifies this`localEventMonitor, this`globalEventMonitor, this`liveMonitors
      ensures localEventMonitor == local && globalEventMonitor == global
      ensures liveMonitors == old(liveMonitors) + OptionSet(local) + OptionSet(global)
      ensures old(HandlesTracked()) && old(localEventMonitor).None? && old(globalEventMonitor).None? ==>
                HandlesTracked()
    {
      globalEventMonitor := global;
      localEventMonitor := local;
      liveMonitors := liveMonitors + OptionSet(local) + OptionSet(global);
    }

    /** `stopEventMonitors()`: removes each held monitor once and forgets it. */
    method StopEventMonitors()
      modifies this`localEventMonitor, this`globalEventMonitor, this`liveMonitors, this`removedMonitors
      ensures localEventMonitor == None && globalEventMonitor == None
      ensures removedMonitors ==
                old(removedMonitors) + OptionSeq(old(localEventMonitor)) + OptionSeq(old(globalEventMonitor))
      ensures liveMonitors ==
                old(liveMonitors) - OptionSet(old(localEventMonitor)) - OptionSet(old(globalEventMonitor))
      ensures old(HandlesTracked()) ==> HandlesTracked() && liveMonitors == {}
    {
      if localEventMonitor.Some? {
        removedMonitors := removedMonitors + [localEventMonitor.value];
        liveMonitors := liveMonitors - {localEventMonitor.value};
        localEventMonitor := None;
      }
      if globalEventMonitor.Some? {
        removedMonitors := removedMonitors + [globalEventMonitor.value];
        liveMonitors := liveMonitors - {globalEventMonitor.value};
        globalEventMonitor := None;
      }
    }

    /** `close()`: a second close removes nothing again. */
    method Close()
      modifies this
      ensures ClosedKeepingTrack()
    {
      StopEventMonitors();
      isVisible := false;
      isPresented := false;
      if hasStatusBarButton {
        statusBarHighlighted := false;
      }
    }

    /** `positionNearMouse()`; no main screen leaves the frame where it is. */
    method PositionNearMouse(mouse: Point, screen: Option<Rect>)
      modifies this`frame
      ensures frame.size == old(frame.size)
      ensures screen.None? ==> frame == old(frame)
      ensures screen.Some? ==> frame.origin == PlacedOrigin(mouse, old(frame.size), screen.value)
    {
      if screen.None? {
        return;
      }
      var panelSize := frame.size;
      var screenFrame := screen.value;
      var x := mouse.x - panelSize.width / 2.0;
      var y := mouse.y - panelSize.height / 2.0;
      x := Max(screenFrame.MinX(), Min(x, screenFrame.MaxX() - panelSize.width));
      y := Max(screenFrame.MinY(), Min(y, screenFrame.MaxY() - panelSize.height));
      frame := Rect(Point(x, y), panelSize);
    }

    /** `verticallyResize(to:)`, taking the frame the animation ends in; the
        content view resizes with the window. */
    method VerticallyResize(newHeight: real)
      modifies this`frame
      ensures frame == VerticallyResized(old(frame), newHeight)
      ensures ContentFrame() == Rect(Point(0.0, 0.0), Size(old(frame.size.width), newHeight))
    {
      var newSize := Size(frame.size.width, newHeight);
      var newOrigin := Point(frame.origin.x, frame.origin.y + (frame.size.height - newSize.height));
      frame := Rect(newOrigin, newSize);
    }

    /** The panel's own part of `open()`: placed near the mouse, ordered
        front, marked presented, monitors started, status bar button
        highlighted. */
    method PresentNearMouse(mouse: Point, screen: Option<Rect>, local: Option<MonitorHandle>, global: Option<MonitorHandle>)
      requires FreshMonitors(local, global)
      modifies this
      ensures isPresented && isVisible && (hasStatusBarButton ==> statusBarHighlighted)
      ensures localEventMonitor == local && globalEventMonitor == global
      ensures liveMonitors == old(liveMonitors) + OptionSet(local) + OptionSet(global)
      ensures removedMonitors == old(removedMonitors)
      ensures frame.size == old(frame.size)
      ensures screen.Some? ==> frame.origin == PlacedOrigin(mouse, old(frame.size), screen.value)
      ensures old(MonitorsTracked()) && !old(isPresented) ==> MonitorsTracked()
    {
      PositionNearMouse(mouse, screen);
      isVisible := true;
      isPresented := true;
      StartEventMonitors(local, global);
      if hasStatusBarButton {
        statusBarHighlighted := true;
      }
    }

    /** `open()`: `frontmost` is the frontmost application, `mouse` and
        `screen` the mouse location and the main screen's visible frame, `local` and
        `global` the monitors the OS returns. Opening an open panel
        overwrites its monitor handles without removing them. */
    method Open(frontmost: Option<AppId>, mouse: Point, screen: Option<Rect>,
                local: Option<MonitorHandle>, global: Option<MonitorHandle>)
      requires FreshMonitors(local, global)
      modifies this, app`previousApp, app`selection, app`scrollTarget, app.store`selectedSymbol
      ensures isPresented && isVisible && (hasStatusBarButton ==> statusBarHighlighted)
      ensures localEventMonitor == local && globalEventMonitor == global
      ensures liveMonitors == old(liveMonitors) + OptionSet(local) + OptionSet(global)
      ensures removedMonitors == old(removedMonitors)
      ensures app.previousApp == frontmost
      ensures frame.size == old(frame.size)
      ensures screen.Some? ==> frame.origin == PlacedOrigin(mouse, old(frame.size), screen.value)
      ensures app.MovedTo(FirstTarget(app.store.symbols))
      ensures old(MonitorsTracked()) && !old(isPresented) ==> MonitorsTracked()
    {
      app.previousApp := frontmost;
      PresentNearMouse(mouse, screen, local, global);
      app.HighlightFirst();
    }

    /** `toggle()`. */
    method Toggle(frontmost: Option<AppId>, mouse: Point, screen: Option<Rect>,
                  local: Option<MonitorHandle>, global: Option<MonitorHandle>)
      requires FreshMonitors(local, global)
      modifies this, app`previousApp, app`selection, app`scrollTarget, app.store`selectedSymbol
      ensures isPresented == !old(isPresented)
      ensures old(isPresented) ==> ClosedKeepingTrack() && unchanged(app, app.store)
      ensures !old(isPresented) ==>
                isVisible && (hasStatusBarButton ==> statusBarHighlighted) &&
                localEventMonitor == local && globalEventMonitor == global &&
                liveMonitors == old(liveMonitors) + OptionSet(local) + OptionSet(global) &&
                removedMonitors == old(removedMonitors) &&
                frame.size == old(frame.size) &&
                (screen.Some? ==> frame.origin == PlacedOrigin(mouse, old(frame.size), screen.value)) &&
                app.previousApp == frontmost && app.MovedTo(FirstTarget(app.store.symbols))
      ensures old(MonitorsTracked()) ==> MonitorsTracked()
    {
      if isPresented {
        Close();
      } else {
        Open(frontmost, mouse, screen, local, global);
      }
    }

    /** A key moved the highlight to `target`, or nowhere when there is
        none; nothing else changed but the navigation flag. */
    twostate predicate MovedByKey(target: Option<Uuid>)
      reads this, app, app.store, app.inserter.pasteboard, app.panel
    {
      app.panel == old(app.panel) &&
      app.isKeyboardNavigating && app.MovedTo(target) && app.store.symbols == old(app.store.symbols) &&
      unchanged(this) && (app.panel != null ==> unchanged(app.panel)) &&
      unchanged(app.inserter.pasteboard) &&
      app.activations == old(app.activations) && app.settingsShown == old(app.settingsShown)
    }

    /** A key committed `symbol` (or nothing, when it is none), leaving the
        selection and the settings window alone. */
    twostate predicate CommittedByKey(new symbol: Option<Symbol>)
      reads this, app, app.store, app.inserter.pasteboard, app.panel
    {
      app.panel == old(app.panel) &&
      app.Committed(symbol) && app.NavigationKept() && app.settingsShown == old(app.settingsShown) &&
      (app.panel != this ==> unchanged(this))
    }

    /** The effect of `handleKeyDown(_:)` for key event `ev` with result `r`:
        unpresented panels and unmatched keys pass the event through and
        change nothing; every matched key is swallowed and runs its command,
        which touches nothing beyond what that command changes. Whatever
        runs, monitor bookkeeping that held before still holds. */
    twostate predicate KeyHandled(ev: Event, new r: Option<Event>)
      requires ev.KeyDown?
      reads this, app, app.store, app.inserter.pasteboard, app.panel
    {
      var command := CommandOf(ev);
      app.panel == old(app.panel) &&
      (old(MonitorsTracked()) ==> MonitorsTracked()) &&
      if !old(isPresented) || command.PassThrough? then
        r == Some(ev) && unchanged(this, app, app.store, app.inserter.pasteboard) &&
        (app.panel != null ==> unchanged(app.panel))
      else
        r == None &&
        match command
        case Close =>
          ClosedKeepingTrack() && unchanged(app, app.store, app.inserter.pasteboard) &&
          (app.panel != null && app.panel != this ==> unchanged(app.panel))
        case OpenSettings =>
          app.settingsShown == old(app.settingsShown) + 1 &&
          (app.panel != null ==> app.panel.ClosedKeepingTrack()) &&
          (app.panel != this ==> unchanged(this)) &&
          app.NavigationKept() && unchanged(app.inserter.pasteboard) &&
          app.activations == old(app.activations)
        case MovePrevious => MovedByKey(PreviousTarget(app.store.symbols, old(app.store.selectedSymbol)))
        case MoveNext => MovedByKey(NextTarget(app.store.symbols, old(app.store.selectedSymbol)))
        case CommitCurrent => CommittedByKey(app.store.selectedSymbol)
        case CommitSlot(slot) => CommittedByKey(SymbolFor(app.store.symbols, slot))
        case PassThrough => false
    }

    /** The Up-arrow branch of `handleKeyDown(_:)`: `highlightPrevious()`. */
    method OnUpArrow()
      modifies app`selection, app`scrollTarget, app`isKeyboardNavigating, app.store`selectedSymbol
      ensures MovedByKey(PreviousTarget(app.store.symbols, old(app.store.selectedSymbol)))
    {
      app.HighlightPrevious();
    }

    /** The Down-arrow branch of `handleKeyDown(_:)`: `highlightNext()`. */
    method OnDownArrow()
      modifies app`selection, app`scrollTarget, app`isKeyboardNavigating, app.store`selectedSymbol
      ensures MovedByKey(NextTarget(app.store.symbols, old(app.store.selectedSymbol)))
    {
      app.HighlightNext();
    }

    /** The Return branch of `handleKeyDown(_:)`: `selectCurrentSymbol()`. */
    method OnReturn()
      modifies app`activations, app.inserter.pasteboard, app.panel
      ensures CommittedByKey(app.store.selectedSymbol)
    {
      app.SelectCurrentSymbol();
    }

    /** The Command-digit branch of `handleKeyDown(_:)`: `selectSymbol(at:)`. */
    method OnCommandDigit(slotNumber: int)
      modifies app`activations, app.inserter.pasteboard, app.panel
      ensures CommittedByKey(SymbolFor(app.store.symbols, slotNumber))
    {
      app.SelectSymbol(slotNumber);
    }

    /** `handleKeyDown(_:)`. */
    method HandleKeyDown(ev: Event) returns (r: Option<Event>)
      requires ev.KeyDown?
      modifies this, app`selection, app`scrollTarget, app`isKeyboardNavigating, app`activations,
               app`settingsShown, app.store`selectedSymbol, app.inserter.pasteboard, app.panel
      ensures KeyHandled(ev, r)
    {
      if !isPresented {
        return Some(ev);
      }
      var keyCode := ev.keyCode;
      if keyCode == Escape {
        assert CommandOf(ev).Close?;
        Close();
        return None;
      }
      if keyCode == Comma && HasCommand(ev.flags) {
        assert CommandOf(ev).OpenSettings?;
        app.OpenSettings();
        return None;
      }
      if keyCode == UpArrow {
        assert CommandOf(ev).MovePrevious?;
        OnUpArrow();
        return None;
      }
      if keyCode == DownArrow {
        assert CommandOf(ev).MoveNext?;
        OnDownArrow();
        return None;
      }
      if keyCode == Return {
        assert CommandOf(ev).CommitCurrent?;
        OnReturn();
        return None;
      }
      if HasCommand(ev.flags) {
        var slotNumber := SlotNumber(keyCode);
        if slotNumber.Some? {
          assert CommandOf(ev) == CommitSlot(slotNumber.value);
          OnCommandDigit(slotNumber.value);
          return None;
        }
      }
      assert CommandOf(ev).PassThrough?;
      return Some(ev);
    }

    /** `handleMouseDown(_:)`: closes on a click outside the content frame
        and never swallows the click. */
    method HandleMouseDown(ev: Event) returns (r: Option<Event>)
      requires ev.LeftMouseDown? || ev.RightMouseDown?
      modifies this
      ensures r == Some(ev)
      ensures ClickCloses(Some(old(ContentFrame())), ev.location) ==> ClosedKeepingTrack()
      ensures !ClickCloses(Some(old(ContentFrame())), ev.location) ==> unchanged(this)
      ensures old(MonitorsTracked()) ==> MonitorsTracked()
    {
      if ClickCloses(Some(ContentFrame()), ev.location) {
        Close();
      }
      return Some(ev);
    }

    /** The local monitor's closure: routes key and mouse-down events of a
        presented panel, returns anything else unchanged. */
    method LocalMonitor(ev: Event) returns (r: Option<Event>)
      modifies this, app`selection, app`scrollTarget, app`isKeyboardNavigating, app`activations,
               app`settingsShown, app.store`selectedSymbol, app.inserter.pasteboard, app.panel
      ensures !old(isPresented) || ev.OtherEvent? ==>
                r == Some(ev) && unchanged(this, app, app.store, app.inserter.pasteboard) &&
                (app.panel != null ==> unchanged(app.panel))
      ensures ev.KeyDown? ==> KeyHandled(ev, r)
      ensures ev.LeftMouseDown? || ev.RightMouseDown? ==>
                r == Some(ev) && unchanged(app, app.store, app.inserter.pasteboard) &&
                (app.panel != null && app.panel != this ==> unchanged(app.panel)) &&
                (old(MonitorsTracked()) ==> MonitorsTracked())
      ensures old(isPresented) && (ev.LeftMouseDown? || ev.RightMouseDown?) ==>
                (ClickCloses(Some(old(ContentFrame())), ev.location) <==> !isPresented) &&
                (ClickCloses(Some(old(ContentFrame())), ev.location) ==> ClosedKeepingTrack()) &&
                (!ClickCloses(Some(old(ContentFrame())), ev.location) ==> unchanged(this))
    {
      if !isPresented {
        return Some(ev);
      }
      match ev
      case KeyDown(_, _) =>
        r := HandleKeyDown(ev);
      case LeftMouseDown(_) =>
        r := HandleMouseDown(ev);
      case RightMouseDown(_) =>
        r := HandleMouseDown(ev);
      case OtherEvent =>
        r := Some(ev);
    }

    /** The global monitor's closure: key presses in other applications go
        through the same handler; its result is dropped. */
    method GlobalMonitor(ev: Event)
      requires ev.KeyDown?
      modifies this, app`selection, app`scrollTarget, app`isKeyboardNavigating, app`activations,
               app`settingsShown, app.store`selectedSymbol, app.inserter.pasteboard, app.panel
      ensures exists r :: KeyHandled(ev, r)
    {
      var r := HandleKeyDown(ev);
    }
  }
}
