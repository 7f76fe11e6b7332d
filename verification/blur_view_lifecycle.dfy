/**
 The life of one `RealtimeBlurView`: any sequence of configuration calls,
 pre-draw hooks and detaches, run until the end or until a call throws.
 */
module BlurViewLifecycle {
  import opened Platform
  import opened BlurViewState
  import opened BlurViewPrepare
  import opened BlurViewFrame

  /** A call the owner or the view tree makes on the view. */
  datatype Event =
    | SetRadius(radius: real)
    | SetFactor(factor: real)
    | SetColor(color: int)
    | PreDraw(width: nat, height: nat, host: Host, device: Device)
    | Detach

  /** The state after a run, and the exception that ended it early, if any. */
  datatype Run = Run(view: View, statics: Statics, error: Option<Exception>)

  /** `onDetachedFromWindow()`: the listener goes away (not modelled) and every
      resource is released. */
  function OnDetached(v: View): (r: View)
    ensures NoBitmaps(r) && NoScript(r) && SameConfig(r, v)
  {
    Release(v)
  }

  /** Which `prepare` the pre-draw hook runs: the code's, or the corrected one. */
  datatype Version = AsWritten | Corrected

  /** One event. */
  function Step(version: Version, v: View, g: Statics, e: Event): (r: Run)
    requires v.downsampleFactor > 0.0
    ensures r.view.downsampleFactor > 0.0
    ensures r.statics.renderingCount == g.renderingCount
  {
    match e
    case SetRadius(radius) => Run(SetBlurRadius(v, radius), g, None)
    case SetFactor(factor) =>
      (match SetDownsampleFactor(v, factor)
       case Accepted(w) => Run(w, g, None)
       case Rejected(error) => Run(v, g, Some(error)))
    case SetColor(color) => Run(SetOverlayColor(v, color), g, None)
    case PreDraw(width, height, host, device) =>
      var f := if version == Corrected then OnPreDraw(v, g, width, height, host, device)
               else OnPreDrawAsWritten(v, g, width, height, host, device);
      Run(f.view, f.statics, if f.outcome.Threw? then Some(f.outcome.error) else None)
    case Detach => Run(OnDetached(v), g, None)
  }

  /** The events in order, stopping at the first that throws. */
  function RunEvents(version: Version, v: View, g: Statics, events: seq<Event>): (r: Run)
    requires v.downsampleFactor > 0.0
    decreases |events|
  {
    if events == [] then Run(v, g, None)
    else
      var s := Step(version, v, g, events[0]);
      if s.error.Some? then s else RunEvents(version, s.view, s.statics, events[1..])
  }

  /** One event from a healthy view, with the corrected `prepare`: health kept
      unless it throws, the capture counter untouched, never a null dereference,
      and a thrown exception is a rejected factor (the view untouched), the error
      of a debug build whose scripts could not be created, or the bitmap factory
      refusing a view too small for its downsample factor. */
  lemma StepKeepsHealthy(v: View, g: Statics, e: Event)
    requires Healthy(v)
    ensures var s := Step(Corrected, v, g, e);
      && (s.error.None? ==> Healthy(s.view))
      && s.statics.renderingCount == g.renderingCount
      && s.error != Some(NullPointerException)
      && (s.error.Some? && e.SetFactor? ==> s.error.value.IllegalArgumentException? && s.view == v)
      && (s.error.Some? && e.PreDraw? ==>
            || (!e.device.creation.Created? && IsDebug(g.debug, e.device.ctx).debug
                && s.error.value == DebugCreationError(e.device.creation.message))
            || (s.error.value == EMPTY_BITMAP && EmptyBuffers(v, e.width, e.height)))
      && (s.error.Some? ==> e.SetFactor? || e.PreDraw?)
  {
    match e
    case SetRadius(radius) => SettersKeepHealthy(v, radius, v.downsampleFactor, v.overlayColor);
    case SetFactor(factor) => SettersKeepHealthy(v, v.blurRadius, factor, v.overlayColor);
    case SetColor(color) => SettersKeepHealthy(v, v.blurRadius, v.downsampleFactor, color);
    case PreDraw(_, _, _, _) =>
    case Detach => SettersKeepHealthy(v, v.blurRadius, v.downsampleFactor, v.overlayColor);
  }

  /** Over any run from a healthy view, with the corrected `prepare`: the capture
      counter ends where it started, no null is ever dereferenced, a run that
      completes leaves the view healthy, and after a completed run the view is not
      in the middle of a capture. */
  lemma {:induction false} RunKeepsHealthy(v: View, g: Statics, events: seq<Event>)
    requires Healthy(v) && !v.isRendering
    ensures var r := RunEvents(Corrected, v, g, events);
      && r.statics.renderingCount == g.renderingCount
      && r.error != Some(NullPointerException)
      && (r.error.None? ==> Healthy(r.view) && !r.view.isRendering)
    decreases |events|
  {
    if events != [] {
      StepKeepsHealthy(v, g, events[0]);
      var s := Step(Corrected, v, g, events[0]);
      if s.error.None? {
        StepKeepsNotRendering(Corrected, v, g, events[0]);
        RunKeepsHealthy(s.view, s.statics, events[1..]);
      }
    }
  }

  /** No event leaves the view marked as rendering. */
  lemma StepKeepsNotRendering(version: Version, v: View, g: Statics, e: Event)
    requires v.downsampleFactor > 0.0 && !v.isRendering
    ensures Step(version, v, g, e).error.None? ==> !Step(version, v, g, e).view.isRendering
  {
  }

  /** Over any run of the code as written from an idle view: the capture counter
      ends where it started, and a run that completes leaves the view not
      rendering. */
  lemma {:induction false} RunAsWrittenBalancesCount(v: View, g: Statics, events: seq<Event>)
    requires v.downsampleFactor > 0.0 && !v.isRendering
    ensures var r := RunEvents(AsWritten, v, g, events);
      && r.statics.renderingCount == g.renderingCount
      && (r.error.None? ==> !r.view.isRendering)
    decreases |events|
  {
    if events != [] {
      var s := Step(AsWritten, v, g, events[0]);
      if s.error.None? {
        StepKeepsNotRendering(AsWritten, v, g, events[0]);
        RunAsWrittenBalancesCount(s.view, s.statics, events[1..]);
      }
    }
  }

  /** Finding, over a whole run: from a newly inflated view in a release build, a
      shown frame whose script factory fails, followed by any frame with bitmaps to
      spare, crashes the code with a null dereference; the same events never make
      the corrected definition dereference null. */
  lemma HalfCreatedScriptCrashesRun(radius: real, factor: real, color: int, g: Statics, width: nat, height: nat,
                                    host: Host, ctx: Context, message: Option<string>,
                                    ctx2: Option<Context>, creation2: ScriptCreation)
    requires radius != 0.0 && factor > 0.0 && host.shown && host.activity.Some?
    requires !Debuggable(ctx) && g.debug != Some(true)
    requires ScaledSize(width, factor) > 0 && ScaledSize(height, factor) > 0
    ensures var events := [PreDraw(width, height, host, Device(Some(ctx), ScriptFailed(message), Plenty)),
                           PreDraw(width, height, host, Device(ctx2, creation2, Plenty))];
      && RunEvents(AsWritten, Inflate(radius, factor, color), g, events).error == Some(NullPointerException)
      && RunEvents(Corrected, Inflate(radius, factor, color), g, events).error != Some(NullPointerException)
  {
    var events := [PreDraw(width, height, host, Device(Some(ctx), ScriptFailed(message), Plenty)),
                   PreDraw(width, height, host, Device(ctx2, creation2, Plenty))];
    var v := Inflate(radius, factor, color);
    var s1 := Step(AsWritten, v, g, events[0]);
    assert s1.error.None? && s1.view.renderScript.Some? && s1.view.blurScript.None? && !s1.view.dirty;
    assert s1.view.downsampleFactor == factor;
    assert Step(AsWritten, s1.view, s1.statics, events[1]).error == Some(NullPointerException);
    InflateHealthy(radius, factor, color);
    RunKeepsHealthy(v, g, events);
  }
}
