/** The custom cursor (`CustomCursor`, `useCursorHandlers`): the per-type appearance table,
    the hover handlers, and the coalescing of pointer samples into animation frames. */
module CustomCursor {
  import opened Wrappers
  import opened AppContext

  /** Sizes in pixels; colours as CSS strings. */
  datatype CursorConfig = CursorConfig(dotSize: nat, ringSize: nat, ringOpacity: real,
                                       dotColor: string, ringColor: string, scale: real)

  /** `getCursorConfig`: one preset per cursor type; `default` and `text` share the last
      branch of the switch. */
  function GetCursorConfig(kind: CursorType): (c: CursorConfig)
    ensures kind == Hidden ==> c.dotSize == 0 && c.ringSize == 0 && c.ringOpacity == 0.0 && c.scale == 0.0
    ensures c.ringSize > 0 <==> kind == Button || kind == Link || kind == Hover
    ensures kind == TextCursor || kind == Default ==> c == DefaultPreset
    ensures c.dotSize <= 6 && c.ringSize <= 28
  {
    match kind
    case Button => CursorConfig(6, 28, 0.4, "rgba(167, 139, 250, 1)", "rgba(167, 139, 250, 0.3)", 1.2)
    case Link => CursorConfig(4, 24, 0.35, "rgba(103, 232, 249, 1)", "rgba(103, 232, 249, 0.25)", 1.1)
    case Hover => CursorConfig(5, 20, 0.3, "rgba(167, 139, 250, 0.9)", "rgba(167, 139, 250, 0.2)", 1.0)
    case Hidden => CursorConfig(0, 0, 0.0, "transparent", "transparent", 0.0)
    case _ => DefaultPreset
  }

  const DefaultPreset := CursorConfig(4, 0, 0.0, "rgba(103, 232, 249, 1)", "transparent", 1.0)

  /** What is drawn for a cursor state: the ring (if its size is positive) and the dot,
      each with its animated scale and opacity. */
  datatype Layer = Layer(size: nat, scale: real, opacity: real)
  datatype Drawing = Drawing(ring: Option<Layer>, dot: Layer)

  function Draw(cursor: CursorState, isTouchDevice: bool): (r: Option<Drawing>)
    ensures r.None? <==> isTouchDevice
    ensures r.Some? ==> (r.value.ring.Some? <==> GetCursorConfig(cursor.kind).ringSize > 0)
    ensures r.Some? && cursor.kind == Hidden ==> r.value.dot.scale == 0.0 && r.value.ring.None?
    ensures r.Some? && !cursor.isVisible ==>
              r.value.dot.opacity == 0.0 && (r.value.ring.Some? ==> r.value.ring.value.opacity == 0.0)
  {
    if isTouchDevice then None
    else
      var c := GetCursorConfig(cursor.kind);
      var ring := if c.ringSize > 0
                  then Some(Layer(c.ringSize, if cursor.kind == Hidden then 0.0 else c.scale,
                                  if cursor.isVisible then c.ringOpacity else 0.0))
                  else None;
      Some(Drawing(ring, Layer(c.dotSize, if cursor.kind == Hidden then 0.0 else 1.0,
                               if cursor.isVisible then 1.0 else 0.0)))
  }

  // ---------------------------------------------------------------- hover handlers

  /** A cursor change an element asks for: type and label. */
  datatype CursorRequest = CursorRequest(kind: CursorType, text: Option<string>)

  datatype Handlers = NoHandlers | Handlers(onEnter: CursorRequest, onLeave: CursorRequest)

  /** The element types `useCursorHandlers` accepts. */
  predicate HoverKind(kind: CursorType)
  {
    kind == Button || kind == Link || kind == TextCursor || kind == Hover
  }

  /** `useCursorHandlers(type = 'hover', text?)`. */
  function UseCursorHandlers(kind: Option<CursorType>, text: Option<string>, isTouchDevice: bool): (r: Handlers)
    requires kind.Some? ==> HoverKind(kind.value)
    ensures isTouchDevice <==> r.NoHandlers?
    ensures r.Handlers? ==> r.onEnter == CursorRequest(kind.GetOr(Hover), text)
    ensures r.Handlers? ==> r.onLeave == CursorRequest(Default, None)
  {
    if isTouchDevice then NoHandlers
    else Handlers(CursorRequest(kind.GetOr(Hover), text), CursorRequest(Default, None))
  }

  method MouseEnter(app: App, h: Handlers)
    modifies app`cursor
    ensures h.NoHandlers? ==> app.cursor == old(app.cursor)
    ensures h.Handlers? ==> app.cursor == old(app.cursor).(kind := h.onEnter.kind, text := h.onEnter.text)
  {
    if h.Handlers? {
      app.SetCursorType(h.onEnter.kind, h.onEnter.text);
    }
  }

  method MouseLeave(app: App, h: Handlers)
    modifies app`cursor
    ensures h.NoHandlers? ==> app.cursor == old(app.cursor)
    ensures h.Handlers? ==> app.cursor == old(app.cursor).(kind := h.onLeave.kind, text := h.onLeave.text)
  {
    if h.Handlers? {
      app.SetCursorType(h.onLeave.kind, h.onLeave.text);
    }
  }

  /** On a touch device hovering in and out never changes the cursor; elsewhere leaving
      an element restores the default cursor without a label. */
  method HoverScenario(app: App, touch: bool)
    modifies app`cursor
    ensures touch ==> app.cursor == old(app.cursor)
    ensures !touch ==> app.cursor.kind == Default && app.cursor.text == None
  {
    var h := UseCursorHandlers(Some(Button), Some("Open"), touch);
    MouseEnter(app, h);
    MouseLeave(app, h);
  }

  // ---------------------------------------------------------------- frame coalescing

  /** The component's refs: the last pointer sample, the id of the last requested frame
      (0 before any), the frames requested and neither fired nor cancelled, the motion
      values, and whether the `mousemove` listener is attached. */
  class Tracker {
    const app: App
    var mouseX: real
    var mouseY: real
    var frameId: nat
    var pendingFrames: set<nat>
    /** The id the next `requestAnimationFrame` returns; ids are positive. */
    var nextFrame: nat
    var cursorX: real
    var cursorY: real
    var listening: bool

    ghost predicate Valid()
      reads this
    {
      nextFrame > 0
      && (pendingFrames == {} || (frameId != 0 && pendingFrames == {frameId}))
      && frameId < nextFrame
    }

    constructor (app: App)
      ensures Valid() && this.app == app
      ensures mouseX == 0.0 && mouseY == 0.0 && cursorX == 0.0 && cursorY == 0.0
      ensures frameId == 0 && pendingFrames == {} && !listening && nextFrame == 1
    {
      this.app := app;
      mouseX, mouseY := 0.0, 0.0;
      frameId := 0;
      pendingFrames := {};
      nextFrame := 1;
      cursorX, cursorY := 0.0, 0.0;
      listening := false;
    }

    /** The effect: on a touch device nothing is attached. */
    method Attach(isTouchDevice: bool)
      requires Valid()
      modifies this`listening
      ensures Valid()
      ensures listening == (old(listening) || !isTouchDevice)
    {
      if isTouchDevice {
        return;
      }
      listening := true;
    }

    /** `handleMouseMove`: records the sample, cancels the pending frame if any, and
        requests one new frame. */
    method MouseMove(x: real, y: real)
      requires Valid() && listening
      modifies this`mouseX, this`mouseY, this`frameId, this`pendingFrames, this`nextFrame
      ensures Valid()
      ensures mouseX == x && mouseY == y
      ensures frameId == old(nextFrame) && pendingFrames == {frameId}
      ensures nextFrame == old(nextFrame) + 1
      ensures |pendingFrames| == 1
    {
      mouseX, mouseY := x, y;
      if frameId != 0 {
        pendingFrames := pendingFrames - {frameId};
      }
      frameId := nextFrame;
      nextFrame := nextFrame + 1;
      pendingFrames := pendingFrames + {frameId};
    }

    /** A requested frame runs `updatePosition`: it publishes the latest sample, not the
        one current when the frame was requested. */
    method FrameFired(id: nat)
      requires Valid() && id in pendingFrames
      modifies this`pendingFrames, this`cursorX, this`cursorY, app`cursor
      ensures Valid()
      ensures pendingFrames == {}
      ensures cursorX == mouseX && cursorY == mouseY
      ensures app.cursor == old(app.cursor).(x := mouseX, y := mouseY, isVisible := true)
    {
      pendingFrames := pendingFrames - {id};
      cursorX, cursorY := mouseX, mouseY;
      app.UpdateCursorPosition(mouseX, mouseY);
    }

    /** The effect's cleanup: the listener goes and no frame stays pending. */
    method Detach()
      requires Valid()
      modifies this`listening, this`pendingFrames
      ensures Valid()
      ensures !listening && pendingFrames == {}
    {
      listening := false;
      if frameId != 0 {
        pendingFrames := pendingFrames - {frameId};
      }
    }
  }

  /** Three moves before a frame runs leave one frame pending, and it publishes the last
      sample. */
  method CoalesceScenario() {
    var app := new App();
    var t := new Tracker(app);
    t.Attach(false);
    t.MouseMove(10.0, 10.0);
    t.MouseMove(20.0, 25.0);
    t.MouseMove(30.0, 40.0);
    assert t.pendingFrames == {3};
    t.FrameFired(3);
    assert app.cursor == CursorState(30.0, 40.0, Default, None, true);
  }
}
