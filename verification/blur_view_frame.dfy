/**
 One frame of `RealtimeBlurView`: the pre-draw hook that prepares the buffers,
 captures the window into the capture bitmap under the re-entrancy guard and
 blurs it; the `draw` guard that aborts the view's own nested draw and
 suppresses other blur views during a capture; and the composite step that
 paints the blurred bitmap and the overlay colour.
 */
module BlurViewFrame {
  import opened Platform
  import opened BlurViewState
  import opened BlurViewPrepare

  /** What `draw(canvas)` does: throw the stop signal, draw nothing, or draw. */
  datatype DrawAction = Abort | Suppress | Paint

  /** The guard at the head of `draw`. */
  function DrawGuard(isRendering: bool, renderingCount: int): (a: DrawAction)
    ensures a == Abort <==> isRendering
    ensures a == Suppress <==> !isRendering && renderingCount > 0
    ensures a == Paint <==> !isRendering && renderingCount <= 0
  {
    if isRendering then Abort
    else if renderingCount > 0 then Suppress
    else Paint
  }

  /** How a view of the window's tree reacts when a capture draws it; the capturing
      view's own flag is `selfRendering`. */
  function NodeAction(n: Node, selfRendering: bool, renderingCount: int): (a: DrawAction)
    // a plain view always draws; only a capturing blur view throws the stop signal
    ensures n.PlainView? ==> a == Paint
    ensures a == Abort <==> (n.ThisBlurView? && selfRendering) || (n.OtherBlurView? && n.isRendering)
    ensures !n.PlainView? && a != Abort ==> (a == Suppress <==> renderingCount > 0)
  {
    match n
    case PlainView(_) => Paint
    case ThisBlurView => DrawGuard(selfRendering, renderingCount)
    case OtherBlurView(_, isRendering) => DrawGuard(isRendering, renderingCount)
  }

  /** The index of the first view that throws the stop signal, or `|nodes|`. */
  function FirstAbort(nodes: seq<Node>, selfRendering: bool, renderingCount: int): (i: nat)
    ensures i <= |nodes|
    ensures forall k :: 0 <= k < i ==> NodeAction(nodes[k], selfRendering, renderingCount) != Abort
    ensures i < |nodes| ==> NodeAction(nodes[i], selfRendering, renderingCount) == Abort
    decreases |nodes|
  {
    if nodes == [] || NodeAction(nodes[0], selfRendering, renderingCount) == Abort then 0
    else 1 + FirstAbort(nodes[1..], selfRendering, renderingCount)
  }

  /** The views of `nodes` that paint, in order. */
  function Painting(nodes: seq<Node>, selfRendering: bool, renderingCount: int): (s: seq<Node>)
    decreases |nodes|
  {
    if nodes == [] then []
    else if NodeAction(nodes[0], selfRendering, renderingCount) == Paint then
      [nodes[0]] + Painting(nodes[1..], selfRendering, renderingCount)
    else Painting(nodes[1..], selfRendering, renderingCount)
  }

  /** A draw traversal of the window's tree: the views that painted, and whether the
      stop signal ended it. */
  datatype Traversal = Traversal(drawn: seq<Node>, stopped: bool)

  /** `decor.draw(canvas)` inside the capture's `try`: views draw in order until one
      throws the stop signal, which the capture catches. */
  function Traverse(nodes: seq<Node>, selfRendering: bool, renderingCount: int): (t: Traversal)
    ensures t.stopped <==> exists i :: 0 <= i < |nodes| && NodeAction(nodes[i], selfRendering, renderingCount) == Abort
    ensures forall n :: n in t.drawn ==> n in nodes && NodeAction(n, selfRendering, renderingCount) == Paint
    ensures renderingCount > 0 ==> forall n :: n in t.drawn ==> n.PlainView?
    ensures t.drawn == Painting(nodes[..FirstAbort(nodes, selfRendering, renderingCount)], selfRendering, renderingCount)
    decreases |nodes|
  {
    if nodes == [] then Traversal([], false)
    else
      match NodeAction(nodes[0], selfRendering, renderingCount)
      case Abort => Traversal([], true)
      case Suppress =>
        PrefixAfterHead(nodes, selfRendering, renderingCount);
        Traverse(nodes[1..], selfRendering, renderingCount)
      case Paint =>
        PrefixAfterHead(nodes, selfRendering, renderingCount);
        var t := Traverse(nodes[1..], selfRendering, renderingCount);
        Traversal([nodes[0]] + t.drawn, t.stopped)
  }

  /** Past a head that does not abort, the prefix before the first abort is the
      head followed by the tail's prefix. */
  lemma PrefixAfterHead(nodes: seq<Node>, selfRendering: bool, renderingCount: int)
    requires nodes != [] && NodeAction(nodes[0], selfRendering, renderingCount) != Abort
    ensures var i := FirstAbort(nodes, selfRendering, renderingCount);
      && i == 1 + FirstAbort(nodes[1..], selfRendering, renderingCount)
      && nodes[..i][0] == nodes[0]
      && nodes[..i][1..] == nodes[1..][..i - 1]
  {
  }

  datatype Rect = Rect(left: int, top: int, right: int, bottom: int)

  datatype PaintOp = DrawBitmap(bitmap: Bitmap, src: Rect, dst: Rect) | DrawColor(color: int)

  /** `drawBlurredBitmap(canvas, blurredBitmap, overlayColor)`: the whole bitmap
      stretched over the whole view when there is one, then the overlay colour,
      always and last. */
  function DrawBlurredBitmap(blurredBitmap: Option<Bitmap>, overlayColor: int, width: int, height: int): (ops: seq<PaintOp>)
    ensures |ops| > 0 && ops[|ops| - 1] == DrawColor(overlayColor)
    ensures |ops| == 2 <==> blurredBitmap.Some?
    ensures |ops| <= 2
    ensures blurredBitmap.Some? ==>
      ops[0] == DrawBitmap(blurredBitmap.value,
                           Rect(0, 0, blurredBitmap.value.width, blurredBitmap.value.height),
                           Rect(0, 0, width, height))
  {
    var bitmap := if blurredBitmap.Some? then
      var b := blurredBitmap.value;
      [DrawBitmap(b, Rect(0, 0, b.width, b.height), Rect(0, 0, width, height))]
    else [];
    bitmap + [DrawColor(overlayColor)]
  }

  datatype DrawResult = Aborted | Suppressed | Painted(ops: seq<PaintOp>)

  /** `draw(canvas)` of the view, whose `onDraw` composites through
      `drawBlurredBitmap`. */
  function Draw(v: View, g: Statics, width: int, height: int): (d: DrawResult)
    ensures d == Aborted <==> v.isRendering
    ensures d == Suppressed <==> !v.isRendering && g.renderingCount > 0
    ensures d.Painted? ==> d.ops == DrawBlurredBitmap(v.blurredBitmap, v.overlayColor, width, height)
  {
    match DrawGuard(v.isRendering, g.renderingCount)
    case Abort => Aborted
    case Suppress => Suppressed
    case Paint => Painted(DrawBlurredBitmap(v.blurredBitmap, v.overlayColor, width, height))
  }

  /** `blur()`: capture bitmap into the input allocation, kernel into the output
      allocation, output allocation into the blurred bitmap. */
  function BlurCapture(v: View): (r: View)
    requires Ready(v)
    ensures Ready(r)
    ensures r.blurredBitmap.value.pixels == Blurred(v.bitmapToBlur.value.pixels, v.blurScript.value.radius)
    ensures r.blurredBitmap.value.width == v.blurredBitmap.value.width
    ensures r.blurredBitmap.value.height == v.blurredBitmap.value.height
    ensures r.bitmapToBlur == v.bitmapToBlur && SameScript(r, v) && SameConfig(r, v)
    ensures r.dirty == v.dirty && r.isRendering == v.isRendering && r.blurringCanvas == v.blurringCanvas
  {
    var input := v.blurInput.value.(pixels := v.bitmapToBlur.value.pixels);
    var output := v.blurOutput.value.(pixels := Blurred(input.pixels, v.blurScript.value.radius));
    v.(blurInput := Some(input), blurOutput := Some(output), blurredBitmap := Some(v.blurredBitmap.value.(pixels := output.pixels)))
  }

  /** The activity window: where its decor view sits in the window, and the colour
      of its background when that is a `ColorDrawable`. */
  datatype Window = Window(decorX: int, decorY: int, colorBackground: Option<int>)

  /** What the pre-draw hook sees of the view tree: whether the view is shown, the
      activity window if the context leads to one, the view's location in the
      window, and the views a draw of the decor meets, in order. */
  datatype Host = Host(shown: bool, activity: Option<Window>, x: int, y: int, nodes: seq<Node>)

  /** The foreign decisions a `prepare` may ask for. */
  datatype Device = Device(ctx: Option<Context>, creation: ScriptCreation, supply: BitmapSupply)

  /** One pre-draw: the new view and statics, how the hook ended, and whether a
      capture was blurred. */
  datatype Frame = Frame(view: View, statics: Statics, outcome: Outcome, captured: bool)

  /** The capture offset: the view's window location minus the decor's, so that
      the decor drawn at this offset puts the view's own origin at the bitmap's. */
  function CaptureOffsetX(host: Host): (dx: int)
    requires host.activity.Some?
    ensures host.activity.value.decorX + dx == host.x
  {
    -host.activity.value.decorX + host.x
  }

  function CaptureOffsetY(host: Host): (dy: int)
    requires host.activity.Some?
    ensures host.activity.value.decorY + dy == host.y
  {
    -host.activity.value.decorY + host.y
  }


  /** The host with the view and its decor both moved by `(mx, my)` on screen. */
  function MoveWindow(host: Host, mx: int, my: int): Host
    requires host.activity.Some?
  {
    var w := host.activity.value;
    host.(activity := Some(w.(decorX := w.decorX + mx, decorY := w.decorY + my)),
          x := host.x + mx, y := host.y + my)
  }

  /** The colour the capture bitmap is erased to: the decor's colour background, or
      transparent. */
  function EraseColor(w: Window): (c: int)
    ensures w.colorBackground.Some? ==> c == w.colorBackground.value
    ensures c != TRANSPARENT ==> w.colorBackground == Some(c)
  {
    if w.colorBackground.Some? then w.colorBackground.value else TRANSPARENT
  }

  /** The rest of `onPreDraw()` once `isShown() && prepare()` has been evaluated
      with result `p`: without an activity nothing happens; otherwise the capture
      bitmap is erased, the decor is drawn into it with the flag and the counter
      raised (the `finally` lowers both again), and the capture is blurred. A
      `prepare` that returned true without a full set of handles leads to a null
      dereference. */
  function AfterPrepare(g: Statics, host: Host, p: Prepared): (f: Frame)
    // the counter is balanced and the debug cache is the one `prepare` left
    ensures f.statics == g.(debug := p.debug)
    ensures f.outcome.Returned? ==> f.outcome.ok
    ensures p.outcome.Threw? ==> f == Frame(p.view, f.statics, p.outcome, false)
    ensures f.captured <==> p.outcome == Returned(true) && host.activity.Some? && Ready(p.view)
    ensures !f.captured ==> f.view == p.view
    ensures f.outcome.Threw? && p.outcome.Returned? ==>
      f.outcome.error == NullPointerException && p.outcome.ok && host.activity.Some? && !Ready(p.view)
    ensures f.captured ==>
      var t := Traverse(host.nodes, true, g.renderingCount + 1);
      && f.outcome == Returned(true) && Ready(f.view) && !f.view.isRendering
      && SameScript(f.view, p.view) && SameConfig(f.view, p.view) && f.view.dirty == p.view.dirty
      && f.view.bitmapToBlur.value.pixels ==
           Scene(EraseColor(host.activity.value), CaptureOffsetX(host), CaptureOffsetY(host), t.drawn)
      && f.view.blurredBitmap.value.pixels == Blurred(f.view.bitmapToBlur.value.pixels, p.view.blurScript.value.radius)
  {
    var g1 := g.(debug := p.debug);
    if p.outcome.Threw? then Frame(p.view, g1, p.outcome, false)
    else if !p.outcome.ok || host.activity.None? then Frame(p.view, g1, Returned(true), false)
    else if !Ready(p.view) then Frame(p.view, g1, Threw(NullPointerException), false)
    else
      var capture := p.view.bitmapToBlur.value;
      var erased := capture.(pixels := Scene(EraseColor(host.activity.value), CaptureOffsetX(host), CaptureOffsetY(host), []));
      // try: flag and counter up, draw the decor; finally: both back down
      var rendering := p.view.(bitmapToBlur := Some(erased), isRendering := true);
      var count := g1.renderingCount + 1;
      var t := Traverse(host.nodes, rendering.isRendering, count);
      var drawn := erased.(pixels := erased.pixels.(drawn := t.drawn));
      var done := rendering.(bitmapToBlur := Some(drawn), isRendering := false);
      Frame(BlurCapture(done), g1.(renderingCount := count - 1), Returned(true), true)
  }

  /** `onPreDraw()` as written, over the code's `prepare`. */
  function OnPreDrawAsWritten(v: View, g: Statics, width: nat, height: nat, host: Host, device: Device): (f: Frame)
    requires v.downsampleFactor > 0.0
    // the hook never vetoes the frame, and the capture counter is balanced
    ensures f.outcome.Returned? ==> f.outcome.ok
    ensures f.statics.renderingCount == g.renderingCount
    ensures !host.shown ==> f == Frame(v, g, Returned(true), false)
    ensures SameConfig(f.view, v)
    // the `finally` clears the flag: a view that was not rendering is not after
    ensures f.captured ==> host.shown && host.activity.Some? && f.outcome == Returned(true) && !f.view.isRendering
    ensures !v.isRendering ==> !f.view.isRendering
    // a capture is the window erased to its background, drawn up to the view
    // itself, then blurred with the script's radius
    ensures f.captured ==>
      var t := Traverse(host.nodes, true, g.renderingCount + 1);
      && Ready(f.view)
      && f.view.bitmapToBlur.value.pixels ==
           Scene(EraseColor(host.activity.value), CaptureOffsetX(host), CaptureOffsetY(host), t.drawn)
      && f.view.blurredBitmap.value.pixels == Blurred(f.view.bitmapToBlur.value.pixels, f.view.blurScript.value.radius)
  {
    if !host.shown then Frame(v, g, Returned(true), false)
    else AfterPrepare(g, host, PrepareAsWritten(v, g.debug, device.ctx, device.creation, device.supply, width, height))
  }

  /** `onPreDraw()` over the corrected `prepare`. */
  function OnPreDraw(v: View, g: Statics, width: nat, height: nat, host: Host, device: Device): (f: Frame)
    requires v.downsampleFactor > 0.0
    // the hook never vetoes the frame, and the capture counter is balanced
    ensures f.outcome.Returned? ==> f.outcome.ok
    ensures f.statics.renderingCount == g.renderingCount
    ensures !host.shown ==> f == Frame(v, g, Returned(true), false)
    ensures SameConfig(f.view, v)
    ensures f.captured ==> host.shown && host.activity.Some? && f.outcome == Returned(true) && !f.view.isRendering
    ensures !v.isRendering ==> !f.view.isRendering
    ensures Healthy(v) ==> f.outcome != Threw(NullPointerException)
    ensures Healthy(v) && f.outcome.Threw? ==>
      || (&& !device.creation.Created? && IsDebug(g.debug, device.ctx).debug
          && f.outcome.error == DebugCreationError(device.creation.message))
      || (f.outcome.error == EMPTY_BITMAP && EmptyBuffers(v, width, height))
    ensures Healthy(v) && f.outcome.Returned? ==> Healthy(f.view)
    ensures Healthy(v) && host.shown && host.activity.Some? ==>
      (f.captured <==> Prepare(v, g.debug, device.ctx, device.creation, device.supply, width, height).outcome == Returned(true))
    // a capture is the window erased to its background, drawn up to the view itself
    // (other blur views suppressed), then blurred with the clamped radius
    ensures Healthy(v) && f.captured ==>
      var t := Traverse(host.nodes, true, g.renderingCount + 1);
      && Ready(f.view)
      && f.view.bitmapToBlur.value.pixels ==
           Scene(EraseColor(host.activity.value), CaptureOffsetX(host), CaptureOffsetY(host), t.drawn)
      && f.view.blurredBitmap.value.pixels ==
           Blurred(f.view.bitmapToBlur.value.pixels, Some(ClampRadius(v.blurRadius, v.downsampleFactor).radius))
  {
    if !host.shown then Frame(v, g, Returned(true), false)
    else AfterPrepare(g, host, Prepare(v, g.debug, device.ctx, device.creation, device.supply, width, height))
  }

  /** A captured frame followed by the view's own draw outside any capture shows the
      blurred capture over the whole view, then the overlay. */
  lemma {:induction false} CapturedFrameIsComposited(v: View, g: Statics, width: nat, height: nat, host: Host, device: Device)
    requires Healthy(v) && g.renderingCount == 0
    requires OnPreDraw(v, g, width, height, host, device).captured
    ensures var f := OnPreDraw(v, g, width, height, host, device);
      var b := f.view.blurredBitmap.value;
      Draw(f.view, f.statics, width, height)
        == Painted([DrawBitmap(b, Rect(0, 0, b.width, b.height), Rect(0, 0, width, height)), DrawColor(v.overlayColor)])
  {
    var f := OnPreDraw(v, g, width, height, host, device);
    assert !f.view.isRendering && f.statics.renderingCount == 0;
    assert f.view.overlayColor == v.overlayColor;
  }

  /** The views that end a capture's decor draw: the capturing view itself and a
      blur view that is capturing too. */
  predicate StopsCapture(n: Node) {
    n.ThisBlurView? || (n.OtherBlurView? && n.isRendering)
  }

  /** A view that paints and comes before the first view that throws the stop
      signal is drawn. */
  lemma {:induction false} PaintedBeforeAbort(nodes: seq<Node>, selfRendering: bool, renderingCount: int, i: nat)
    requires i < FirstAbort(nodes, selfRendering, renderingCount)
    requires NodeAction(nodes[i], selfRendering, renderingCount) == Paint
    ensures nodes[i] in Traverse(nodes, selfRendering, renderingCount).drawn
    decreases |nodes|
  {
    if i > 0 {
      PaintedBeforeAbort(nodes[1..], selfRendering, renderingCount, i - 1);
    }
  }

  /** Inside the capture of `onPreDraw`: no blur view paints into the capture, only
      views of the window do, and every plain view met before the first view that
      ends the draw is in it. */
  lemma NestedDrawsDuringCapture(v: View, g: Statics, width: nat, height: nat, host: Host, device: Device, i: nat)
    requires Healthy(v) && g.renderingCount >= 0
    requires OnPreDraw(v, g, width, height, host, device).captured
    ensures var drawn := OnPreDraw(v, g, width, height, host, device).view.bitmapToBlur.value.pixels.drawn;
      forall n :: n in drawn ==> n.PlainView? && n in host.nodes
    ensures var drawn := OnPreDraw(v, g, width, height, host, device).view.bitmapToBlur.value.pixels.drawn;
      i < |host.nodes| && host.nodes[i].PlainView? && (forall k :: 0 <= k < i ==> !StopsCapture(host.nodes[k])) ==>
        host.nodes[i] in drawn
  {
    var count := g.renderingCount + 1;
    if i < |host.nodes| && host.nodes[i].PlainView? && (forall k :: 0 <= k < i ==> !StopsCapture(host.nodes[k])) {
      assert forall k :: 0 <= k <= i ==> NodeAction(host.nodes[k], true, count) != Abort;
      PaintedBeforeAbort(host.nodes, true, count, i);
    }
  }

  /** The hook's frame depends on where the view sits relative to its decor, not on
      where the window is: moving both together changes nothing, in the code and in
      the corrected definition alike. */
  lemma CaptureIgnoresWindowMove(v: View, g: Statics, width: nat, height: nat, host: Host, device: Device,
                                 mx: int, my: int)
    requires v.downsampleFactor > 0.0 && host.activity.Some?
    ensures OnPreDraw(v, g, width, height, MoveWindow(host, mx, my), device)
         == OnPreDraw(v, g, width, height, host, device)
    ensures OnPreDrawAsWritten(v, g, width, height, MoveWindow(host, mx, my), device)
         == OnPreDrawAsWritten(v, g, width, height, host, device)
  {
  }
}
