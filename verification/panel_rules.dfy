/** The pure rules inside Core/FloatingPanel.swift: which command a key
    press means while the panel is shown (first match wins), whether a
    click closes the panel, and the two geometric rules for placing and
    resizing it. Geometry is over `real`. */
module PanelRules {
  import opened Base
  import opened KeyCodes

  const UpArrow: KeyCode := 0x7E
  const DownArrow: KeyCode := 0x7D
  const Return: KeyCode := 0x24

  /** What `handleKeyDown` does with a key while the panel is presented. */
  datatype Command =
    | PassThrough
    | Close
    | OpenSettings
    | MovePrevious
    | MoveNext
    | CommitCurrent
    | CommitSlot(slot: int)

  /** `modifierFlags.contains(.command)`. */
  predicate HasCommand(flags: bv64)
  {
    flags & FlagCommand != 0
  }

  /** The dispatch of `handleKeyDown`: Escape, Command-comma, Up, Down,
      Return, Command-digit, in that order; anything else passes through. */
  function KeyCommand(keyCode: KeyCode, command: bool): (c: Command)
    ensures c.CommitSlot? ==> command && 1 <= c.slot <= 9 && NumberKeys[c.slot - 1] == keyCode
    ensures c == PassThrough <==>
              keyCode !in {Escape, UpArrow, DownArrow, Return} &&
              !(command && (keyCode == Comma || keyCode in NumberKeys))
  {
    if keyCode == Escape then Close
    else if keyCode == Comma && command then OpenSettings
    else if keyCode == UpArrow then MovePrevious
    else if keyCode == DownArrow then MoveNext
    else if keyCode == Return then CommitCurrent
    else if command && SlotNumber(keyCode).Some? then CommitSlot(SlotNumber(keyCode).value)
    else PassThrough
  }

  /** Escape closes whatever modifiers are held; the arrows and Return act
      with or without Command. */
  lemma FixedKeysIgnoreCommand(command: bool)
    ensures KeyCommand(Escape, command) == Close
    ensures KeyCommand(UpArrow, command) == MovePrevious
    ensures KeyCommand(DownArrow, command) == MoveNext
    ensures KeyCommand(Return, command) == CommitCurrent
  {
  }

  /** Command with digit `i + 1` commits slot `i + 1`; the bare digit passes
      through and selects nothing. */
  lemma DigitKeys(i: nat)
    requires i < 9
    ensures KeyCommand(NumberKeys[i], true) == CommitSlot(i + 1)
    ensures KeyCommand(NumberKeys[i], false) == PassThrough
  {
    SlotNumberOfNumberKey(i);
    NumberKeysDistinct();
  }

  /** Comma opens the settings only with Command. */
  lemma CommaNeedsCommand()
    ensures KeyCommand(Comma, true) == OpenSettings
    ensures KeyCommand(Comma, false) == PassThrough
  {
  }

  // ---------------------------------------------------------------------
  // Geometry
  // ---------------------------------------------------------------------

  datatype Point = Point(x: real, y: real)
  datatype Size = Size(width: real, height: real)

  /** An `NSRect`: an origin and a size. The edges are `origin` and
      `origin + size` as stored: unlike `CGRect`'s `minX`/`maxX`/`height`,
      a negative size is not standardized first, so the two agree only on
      the non-negative sizes AppKit hands out for windows and screens. */
  datatype Rect = Rect(origin: Point, size: Size)
  {
    function MinX(): real { origin.x }
    function MinY(): real { origin.y }
    function MaxX(): real { origin.x + size.width }
    function MaxY(): real { origin.y + size.height }

    /** `contains(_:)`: the lower edges are inside, the upper ones are not. */
    predicate Contains(p: Point)
    {
      MinX() <= p.x < MaxX() && MinY() <= p.y < MaxY()
    }
  }

  const ZeroRect: Rect := Rect(Point(0.0, 0.0), Size(0.0, 0.0))

  function Max(a: real, b: real): real { if a >= b then a else b }
  function Min(a: real, b: real): real { if a <= b then a else b }

  /** One coordinate of `positionNearMouse`: centre on the mouse, then
      clamp into `[low, high - extent]`, the lower bound winning. */
  function Clamped(cursor: real, extent: real, low: real, high: real): (v: real)
    ensures v >= low
    ensures extent <= high - low ==> v + extent <= high
    ensures low <= cursor - extent / 2.0 && cursor - extent / 2.0 + extent <= high ==>
              v == cursor - extent / 2.0
    ensures extent > high - low ==> v == low
  {
    Max(low, Min(cursor - extent / 2.0, high - extent))
  }

  /** The origin `positionNearMouse` gives a panel of `size` on `screen`
      (the visible frame of the main screen) for the mouse at `mouse`. */
  function PlacedOrigin(mouse: Point, size: Size, screen: Rect): (p: Point)
    ensures p.x >= screen.MinX() && p.y >= screen.MinY()
    ensures size.width <= screen.size.width ==> p.x + size.width <= screen.MaxX()
    ensures size.height <= screen.size.height ==> p.y + size.height <= screen.MaxY()
  {
    Point(Clamped(mouse.x, size.width, screen.MinX(), screen.MaxX()),
          Clamped(mouse.y, size.height, screen.MinY(), screen.MaxY()))
  }

  /** A panel that fits on the screen stays entirely inside it, and one whose
      centred position already fits is left centred on the cursor. */
  lemma PlacementInsideScreen(mouse: Point, size: Size, screen: Rect)
    requires 0.0 <= size.width <= screen.size.width && 0.0 <= size.height <= screen.size.height
    ensures var p := PlacedOrigin(mouse, size, screen);
            var placed := Rect(p, size);
            screen.MinX() <= placed.MinX() && placed.MaxX() <= screen.MaxX() &&
            screen.MinY() <= placed.MinY() && placed.MaxY() <= screen.MaxY()
    ensures var centred := Point(mouse.x - size.width / 2.0, mouse.y - size.height / 2.0);
            var r := Rect(centred, size);
            screen.MinX() <= r.MinX() && r.MaxX() <= screen.MaxX() &&
            screen.MinY() <= r.MinY() && r.MaxY() <= screen.MaxY() ==>
            PlacedOrigin(mouse, size, screen) == centred
  {
  }

  /** `verticallyResize(to:)`: the frame the animation ends in. */
  function VerticallyResized(frame: Rect, newHeight: real): (r: Rect)
    ensures r.size.height == newHeight
    ensures r.MaxY() == frame.MaxY()
    ensures r.origin.x == frame.origin.x && r.size.width == frame.size.width
  {
    Rect(Point(frame.origin.x, frame.origin.y + (frame.size.height - newHeight)),
         Size(frame.size.width, newHeight))
  }

  /** Resizing twice is resizing once to the final height, and resizing to
      the current height changes nothing. */
  lemma ResizeComposes(frame: Rect, h1: real, h2: real)
    ensures VerticallyResized(VerticallyResized(frame, h1), h2) == VerticallyResized(frame, h2)
    ensures VerticallyResized(frame, frame.size.height) == frame
  {
  }

  /** `handleMouseDown`'s test: the click closes the panel when it is outside
      the content view's frame, or always when there is no content view. */
  predicate ClickCloses(contentFrame: Option<Rect>, click: Point)
  {
    !(if contentFrame.Some? then contentFrame.value else ZeroRect).Contains(click)
  }

  /** Without a content view every click closes; a click inside the content
      frame never does. */
  lemma ClickClosesCases(contentFrame: Option<Rect>, click: Point)
    ensures contentFrame.None? ==> ClickCloses(contentFrame, click)
    ensures contentFrame.Some? ==>
              (ClickCloses(contentFrame, click) <==> !contentFrame.value.Contains(click))
    ensures contentFrame.Some? && contentFrame.value.origin == click &&
            contentFrame.value.size.width > 0.0 && contentFrame.value.size.height > 0.0 ==>
              !ClickCloses(contentFrame, click)
  {
  }
}
