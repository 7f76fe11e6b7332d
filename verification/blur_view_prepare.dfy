/**
 `RealtimeBlurView.prepare()`: the radius-zero teardown, the lazy creation of the
 RenderScript context and blur script, the radius push with its clamp at 25,
 and the (re)allocation of the capture/blurred bitmap set.

 `PrepareAsWritten` follows the code's control flow. `Prepare` is the corrected
 definition; it differs in two places, each shown to matter by a lemma about
 `PrepareAsWritten`:
 - the clamped downsample factor sizes the buffers on every call, not only on
   the call that pushes the radius (`ClampedFactorLostOnNextFrame`);
 - a release-build creation failure releases the half-created script handles
   (`HalfCreatedScriptBreaksNextFrame`).
 */
module BlurViewPrepare {
  import opened Platform
  import opened BlurViewState
  import VanillaBlurImpl

  /** The largest radius `ScriptIntrinsicBlur` accepts. */
  const MAX_RADIUS: real := 25.0

  /** The radius pushed to the script and the downsample factor that goes with it. */
  datatype Clamp = Clamp(radius: real, factor: real)

  /** The radius clamp: a scaled radius above 25 is cut to 25 and the factor grows
      by the same proportion, so their product — the blur radius on screen — is
      the configured one. */
  function ClampRadius(blurRadius: real, downsampleFactor: real): (c: Clamp)
    requires downsampleFactor > 0.0
    ensures c.radius <= MAX_RADIUS && c.factor >= downsampleFactor
    ensures blurRadius / downsampleFactor > MAX_RADIUS ==>
      c.radius == MAX_RADIUS && c.factor == blurRadius / MAX_RADIUS
    ensures blurRadius / downsampleFactor <= MAX_RADIUS ==>
      c.radius == blurRadius / downsampleFactor && c.factor == downsampleFactor
    ensures c.radius * c.factor == blurRadius
  {
    var radius := blurRadius / downsampleFactor;
    if radius > MAX_RADIUS then
      assert downsampleFactor * radius == blurRadius;
      Clamp(MAX_RADIUS, downsampleFactor * radius / MAX_RADIUS)
    else
      Clamp(radius, downsampleFactor)
  }

  /** `(int) (size / factor)`: a view size divided by a positive factor, truncated. */
  function ScaledSize(size: nat, factor: real): (n: int)
    requires factor > 0.0
    ensures 0 <= n <= INT_MAX
    ensures size as real / factor < INT_MAX as real ==> n as real <= size as real / factor < n as real + 1.0
  {
    FloatToInt(size as real / factor)
  }

  /** Whether `Bitmap.createBitmap` returns a bitmap (rather than null) for the
      capture bitmap and for the blurred bitmap; a foreign decision. */
  datatype BitmapSupply = BitmapSupply(captureCreated: bool, blurredCreated: bool)

  const Plenty: BitmapSupply := BitmapSupply(true, true)

  /** A `prepare` call: the view's new state, the new static `DEBUG` cache, how it ended. */
  datatype Prepared = Prepared(view: View, debug: Option<bool>, outcome: Outcome)

  /** The reallocation test: a missing canvas or blurred bitmap, or a blurred bitmap
      of another size than the one asked for. */
  predicate NeedsRealloc(v: View, w: int, h: int) {
    || v.blurringCanvas.None? || v.blurredBitmap.None?
    || v.blurredBitmap.value.width != w || v.blurredBitmap.value.height != h
  }

  /** The buffer half of `prepare`, for the buffer size `w` x `h`. */
  function Allocate(v: View, debug: Option<bool>, w: int, h: int, supply: BitmapSupply): (r: Prepared)
    ensures r.debug == debug && SameScript(r.view, v) && SameConfig(r.view, v)
    ensures r.view.dirty == v.dirty && r.view.isRendering == v.isRendering
    // sizes unchanged: nothing is allocated
    ensures !NeedsRealloc(v, w, h) ==> r == Prepared(v, debug, Returned(true))
    // otherwise the old set is released; a dimension that is not positive makes
    // `Bitmap.createBitmap` throw
    ensures NeedsRealloc(v, w, h) && (w <= 0 || h <= 0) ==> r == Prepared(ReleaseBitmap(v), debug, Threw(EMPTY_BITMAP))
    // and otherwise a whole new set, all of one size, the output typed like the input
    ensures NeedsRealloc(v, w, h) ==>
      (r.outcome == Returned(true) <==>
         w > 0 && h > 0 && supply.captureCreated && supply.blurredCreated && v.renderScript.Some?)
    ensures NeedsRealloc(v, w, h) && r.outcome == Returned(true) ==>
      && BuffersLive(r.view) && SameSize(r.view, w, h)
      && r.view.bitmapToBlur.value.pixels == Blank && r.view.blurredBitmap.value.pixels == Blank
      && r.view.blurInput == Some(AllocationFromBitmap(r.view.bitmapToBlur.value))
    // a failed allocation leaves no blurred bitmap and no allocation behind
    ensures NeedsRealloc(v, w, h) && r.outcome == Returned(false) ==>
      && r.view.blurredBitmap.None? && r.view.blurInput.None? && r.view.blurOutput.None?
      && (r.view.bitmapToBlur.Some? <==> supply.captureCreated)
    ensures r.outcome.Threw? ==>
      || (r.outcome.error == NullPointerException && v.renderScript.None?)
      || (r.outcome.error == EMPTY_BITMAP && (w <= 0 || h <= 0))
  {
    if NeedsRealloc(v, w, h) then
      var released := ReleaseBitmap(v);
      if w <= 0 || h <= 0 then Prepared(released, debug, Threw(EMPTY_BITMAP))
      else if !supply.captureCreated then Prepared(released, debug, Returned(false))
      else
        var capture := Bitmap(w, h, Blank);
        var withCapture := released.(bitmapToBlur := Some(capture));
        if !supply.blurredCreated then Prepared(withCapture, debug, Returned(false))
        else
          var withBoth := withCapture.(blurredBitmap := Some(Bitmap(w, h, Blank)), blurringCanvas := Some(Canvas(w, h)));
          // `Allocation.createFromBitmap` dereferences the context
          if withBoth.renderScript.None? then Prepared(withBoth, debug, Threw(NullPointerException))
          else
            var input := AllocationFromBitmap(capture);
            Prepared(withBoth.(blurInput := Some(input), blurOutput := Some(AllocationTypedLike(input))), debug, Returned(true))
    else
      Prepared(v, debug, Returned(true))
  }

  /** The script-creation half of `prepare`: carry on with the view, or stop with a
      result. */
  datatype Acquired = Continue(view: View, debug: Option<bool>) | Stop(result: Prepared)

  /** Lazy script creation as written: a failure in a release build returns false
      with whatever handles were assigned before the failure. */
  function AcquireScriptAsWritten(v: View, debug: Option<bool>, ctx: Option<Context>, creation: ScriptCreation): (a: Acquired)
    ensures v.renderScript.Some? ==> a == Continue(v, debug)
    ensures v.renderScript.None? && creation.Created? ==>
      a.Continue? && a.debug == debug && a.view.renderScript.Some? && a.view.blurScript.Some?
      && SameBitmaps(a.view, v) && SameConfig(a.view, v) && a.view.dirty == v.dirty
      && a.view.isRendering == v.isRendering
    // a failure stops `prepare`; the context survives a failure of the script
    // factory, and the script handle is never assigned
    ensures v.renderScript.None? && !creation.Created? ==>
      && a.Stop? && a.result.debug == IsDebug(debug, ctx).cache
      && SameBitmaps(a.result.view, v) && SameConfig(a.result.view, v)
      && a.result.view.dirty == v.dirty && a.result.view.isRendering == v.isRendering
      && (a.result.view.renderScript.Some? <==> creation.ScriptFailed?)
      && a.result.view.blurScript == v.blurScript
    // release build: false; debug build: the translated error
    ensures v.renderScript.None? && !creation.Created? && !IsDebug(debug, ctx).debug ==>
      a.result.outcome == Returned(false)
    ensures v.renderScript.None? && !creation.Created? && IsDebug(debug, ctx).debug ==>
      a.result.outcome == Threw(DebugCreationError(creation.message))
  {
    if v.renderScript.Some? then Continue(v, debug)
    else if creation.Created? then
      Continue(v.(renderScript := Some(RenderScript), blurScript := Some(BlurScript(None))), debug)
    else
      var d := IsDebug(debug, ctx);
      var partial := if creation.ScriptFailed? then v.(renderScript := Some(RenderScript)) else v;
      if d.debug then Stop(Prepared(partial, d.cache, Threw(DebugCreationError(creation.message))))
      else Stop(Prepared(partial, d.cache, Returned(false)))
  }

  /** Lazy script creation, corrected: a release-build failure releases both script
      handles, as the vanilla `BlurImpl.setupScript` does. */
  function AcquireScript(v: View, debug: Option<bool>, ctx: Option<Context>, creation: ScriptCreation): (a: Acquired)
    ensures v.renderScript.Some? ==> a == Continue(v, debug)
    ensures v.renderScript.None? && creation.Created? ==>
      a.Continue? && a.debug == debug && a.view.renderScript.Some? && a.view.blurScript.Some?
      && SameBitmaps(a.view, v) && SameConfig(a.view, v) && a.view.dirty == v.dirty
    ensures v.renderScript.None? && !creation.Created? ==>
      a.Stop? && a.result.debug == IsDebug(debug, ctx).cache && SameBitmaps(a.result.view, v)
      && SameConfig(a.result.view, v) && a.result.view.dirty == v.dirty
    ensures v.renderScript.None? && !creation.Created? && !IsDebug(debug, ctx).debug ==>
      a.result.outcome == Returned(false) && NoScript(a.result.view)
    ensures v.renderScript.None? && !creation.Created? && IsDebug(debug, ctx).debug ==>
      a.result.outcome == Threw(DebugCreationError(creation.message))
  {
    if v.renderScript.Some? then Continue(v, debug)
    else if creation.Created? then
      Continue(v.(renderScript := Some(RenderScript), blurScript := Some(BlurScript(None))), debug)
    else
      var d := IsDebug(debug, ctx);
      var partial := if creation.ScriptFailed? then v.(renderScript := Some(RenderScript)) else v;
      if d.debug then Stop(Prepared(partial, d.cache, Threw(DebugCreationError(creation.message))))
      else Stop(Prepared(ReleaseScript(partial), d.cache, Returned(false)))
  }

  /** `prepare()` as written. */
  function PrepareAsWritten(v: View, debug: Option<bool>, ctx: Option<Context>, creation: ScriptCreation,
                            supply: BitmapSupply, width: nat, height: nat): (r: Prepared)
    requires v.downsampleFactor > 0.0
    ensures SameConfig(r.view, v) && r.view.isRendering == v.isRendering
    // radius zero: full teardown, false
    ensures v.blurRadius == 0.0 ==> r.outcome == Returned(false) && NoBitmaps(r.view) && NoScript(r.view)
    // dirty or no context: the clamped radius is pushed and the dirty flag cleared,
    // and the clamped factor sizes the buffers
    ensures Consistent(v) && v.blurRadius != 0.0 && (v.dirty || v.renderScript.None?) && r.outcome == Returned(true) ==>
      var c := ClampRadius(v.blurRadius, v.downsampleFactor);
      && !r.view.dirty && r.view.blurScript == Some(BlurScript(Some(c.radius)))
      && BuffersLive(r.view) && SameSize(r.view, ScaledSize(width, c.factor), ScaledSize(height, c.factor))
    // otherwise the script is left alone and the unadjusted factor sizes the buffers
    ensures v.blurRadius != 0.0 && !v.dirty && v.renderScript.Some? ==>
      && r == Allocate(v, debug, ScaledSize(width, v.downsampleFactor), ScaledSize(height, v.downsampleFactor), supply)
      && SameScript(r.view, v) && (r.outcome.Threw? ==> r.outcome.error == EMPTY_BITMAP)
  {
    if v.blurRadius == 0.0 then Prepared(Release(v), debug, Returned(false))
    else if v.dirty || v.renderScript.None? then
      match AcquireScriptAsWritten(v, debug, ctx, creation)
      case Stop(p) => p
      case Continue(live, d) =>
        var c := ClampRadius(v.blurRadius, v.downsampleFactor);
        var clean := live.(dirty := false);
        if clean.blurScript.None? then Prepared(clean, d, Threw(NullPointerException))
        else
          Allocate(clean.(blurScript := Some(BlurScript(Some(c.radius)))), d,
                   ScaledSize(width, c.factor), ScaledSize(height, c.factor), supply)
    else
      Allocate(v, debug, ScaledSize(width, v.downsampleFactor), ScaledSize(height, v.downsampleFactor), supply)
  }

  /** The state every corrected operation keeps: a positive factor, the resource
      invariant, and — when the view is clean and has a script — the script holds
      the clamp of the current configuration. */
  predicate Healthy(v: View) {
    && v.downsampleFactor > 0.0
    && Consistent(v)
    && (!v.dirty && v.renderScript.Some? ==>
          v.blurScript == Some(BlurScript(Some(ClampRadius(v.blurRadius, v.downsampleFactor).radius))))
  }

  /** The clamped factor scales one of the view's dimensions down to 0: a view
      narrower or shorter than that factor. */
  predicate EmptyBuffers(v: View, width: nat, height: nat)
    requires v.downsampleFactor > 0.0
  {
    var c := ClampRadius(v.blurRadius, v.downsampleFactor);
    ScaledSize(width, c.factor) == 0 || ScaledSize(height, c.factor) == 0
  }

  /** `prepare()`, corrected. */
  function Prepare(v: View, debug: Option<bool>, ctx: Option<Context>, creation: ScriptCreation,
                   supply: BitmapSupply, width: nat, height: nat): (r: Prepared)
    requires v.downsampleFactor > 0.0
    ensures SameConfig(r.view, v) && r.view.isRendering == v.isRendering
    // radius zero: full teardown, false
    ensures v.blurRadius == 0.0 ==> r.outcome == Returned(false) && NoBitmaps(r.view) && NoScript(r.view)
    // clean with a script: the script is not touched and the cache not consulted
    ensures v.blurRadius != 0.0 && !v.dirty && v.renderScript.Some? ==>
      SameScript(r.view, v) && r.debug == debug && (r.outcome.Threw? ==> r.outcome.error == EMPTY_BITMAP)
    // creation failure: false in a release build, the script handles released;
    // the (translated) error in a debug build
    ensures v.blurRadius != 0.0 && v.renderScript.None? && !creation.Created? && !IsDebug(debug, ctx).debug ==>
      r.outcome == Returned(false) && NoScript(r.view)
    ensures v.blurRadius != 0.0 && v.renderScript.None? && !creation.Created? && IsDebug(debug, ctx).debug ==>
      r.outcome == Threw(DebugCreationError(creation.message))
    // from a healthy state: no null dereference, health kept, and success means a
    // ready buffer set sized by the clamped factor with the clamped radius applied
    ensures Healthy(v) ==> r.outcome != Threw(NullPointerException)
    ensures Healthy(v) && r.outcome.Threw? ==>
      || (v.blurRadius != 0.0 && v.renderScript.None? && !creation.Created? && IsDebug(debug, ctx).debug)
      || (r.outcome.error == EMPTY_BITMAP && EmptyBuffers(v, width, height))
    ensures Healthy(v) && r.outcome.Returned? ==> Healthy(r.view)
    ensures Healthy(v) && r.outcome == Returned(true) ==>
      var c := ClampRadius(v.blurRadius, v.downsampleFactor);
      && Ready(r.view) && !r.view.dirty
      && r.view.blurScript == Some(BlurScript(Some(c.radius)))
      && SameSize(r.view, ScaledSize(width, c.factor), ScaledSize(height, c.factor))
  {
    if v.blurRadius == 0.0 then Prepared(Release(v), debug, Returned(false))
    else
      var c := ClampRadius(v.blurRadius, v.downsampleFactor);
      var w := ScaledSize(width, c.factor);
      var h := ScaledSize(height, c.factor);
      if v.dirty || v.renderScript.None? then
        match AcquireScript(v, debug, ctx, creation)
        case Stop(p) => p
        case Continue(live, d) =>
          var clean := live.(dirty := false);
          if clean.blurScript.None? then Prepared(clean, d, Threw(NullPointerException))
          else Allocate(clean.(blurScript := Some(BlurScript(Some(c.radius)))), d, w, h, supply)
      else
        Allocate(v, debug, w, h, supply)
  }

  /** A successful `prepare` is a fixpoint: repeating it with the same view size
      allocates nothing, pushes nothing, creates nothing and returns true, whatever
      the device would do if asked. */
  lemma {:induction false} PrepareIdempotent(v: View, debug: Option<bool>, ctx: Option<Context>, creation: ScriptCreation,
                                             supply: BitmapSupply, width: nat, height: nat,
                                             ctx2: Option<Context>, creation2: ScriptCreation, supply2: BitmapSupply)
    requires Healthy(v)
    requires Prepare(v, debug, ctx, creation, supply, width, height).outcome == Returned(true)
    ensures var p := Prepare(v, debug, ctx, creation, supply, width, height);
      Prepare(p.view, p.debug, ctx2, creation2, supply2, width, height) == p
  {
    var p := Prepare(v, debug, ctx, creation, supply, width, height);
    var c := ClampRadius(v.blurRadius, v.downsampleFactor);
    assert !NeedsRealloc(p.view, ScaledSize(width, c.factor), ScaledSize(height, c.factor));
  }

  /** Finding, as written: when the scaled radius is clamped, the call that pushes
      the radius sizes the buffers with the enlarged factor, and the very next call
      — clean, nothing changed — sizes them with the configured factor and
      reallocates. For a 400x800 view, radius 200 and factor 4 the buffers go from
      50x100 to 100x200, while the script keeps radius 25, so the blur on screen
      drops from 200 to 100. */
  lemma ClampedFactorLostOnNextFrame(color: int, ctx: Option<Context>)
    ensures var v := Inflate(200.0, 4.0, color);
      var p1 := PrepareAsWritten(v, None, ctx, Created, Plenty, 400, 800);
      var p2 := PrepareAsWritten(p1.view, p1.debug, ctx, Created, Plenty, 400, 800);
      && p1.outcome == Returned(true) && p2.outcome == Returned(true)
      && p1.view.blurredBitmap.value.width == 50 && p1.view.blurredBitmap.value.height == 100
      && p2.view.blurredBitmap.value.width == 100 && p2.view.blurredBitmap.value.height == 200
      && p2.view.blurScript == Some(BlurScript(Some(25.0)))
  {
    var v := Inflate(200.0, 4.0, color);
    assert ClampRadius(200.0, 4.0) == Clamp(25.0, 8.0);
    assert ScaledSize(400, 8.0) == 50 && ScaledSize(800, 8.0) == 100;
    assert ScaledSize(400, 4.0) == 100 && ScaledSize(800, 4.0) == 200;
  }

  /** Finding, as written: in a release build, a failure of the script factory after
      the context factory succeeded returns false with the context kept and the
      script null. The next `prepare` then either dereferences the null script
      (when the view is dirty) or returns true with a buffer set but no script, so
      the frame's `blur()` dereferences it. */
  lemma HalfCreatedScriptBreaksNextFrame(v: View, ctx: Context, message: Option<string>,
                                         creation2: ScriptCreation, width: nat, height: nat)
    requires Healthy(v) && NoScript(v) && v.blurRadius != 0.0
    requires !Debuggable(ctx)
    requires ScaledSize(width, v.downsampleFactor) > 0 && ScaledSize(height, v.downsampleFactor) > 0
    ensures var p1 := PrepareAsWritten(v, None, Some(ctx), ScriptFailed(message), Plenty, width, height);
      && p1.outcome == Returned(false)
      && p1.view.renderScript.Some? && p1.view.blurScript.None? && !Consistent(p1.view)
      && var p2 := PrepareAsWritten(p1.view, p1.debug, Some(ctx), creation2, Plenty, width, height);
         && (v.dirty ==> p2.outcome == Threw(NullPointerException))
         && (!v.dirty ==> p2.outcome == Returned(true) && p2.view.blurScript.None? && !Ready(p2.view))
  {
  }

  /** Two worked examples on a 400x800 view with factor 4. Radius 40 needs no
      clamp: 100x200 buffers and radius 10, and here the code and the corrected
      definition agree on both frames. Radius 200 is clamped: 50x100 buffers and
      radius 25 on the first frame from either definition; the corrected one keeps
      them on the next frame (the code does not: `ClampedFactorLostOnNextFrame`). */
  lemma EndToEndScenarios(color: int, ctx: Option<Context>)
    ensures var p := Prepare(Inflate(40.0, 4.0, color), None, ctx, Created, Plenty, 400, 800);
      && p.outcome == Returned(true) && Ready(p.view) && SameSize(p.view, 100, 200)
      && p.view.blurScript == Some(BlurScript(Some(10.0)))
      && PrepareAsWritten(Inflate(40.0, 4.0, color), None, ctx, Created, Plenty, 400, 800) == p
      && PrepareAsWritten(p.view, p.debug, ctx, Created, Plenty, 400, 800) == p
    ensures var p := Prepare(Inflate(200.0, 4.0, color), None, ctx, Created, Plenty, 400, 800);
      && p.outcome == Returned(true) && Ready(p.view) && SameSize(p.view, 50, 100)
      && p.view.blurScript == Some(BlurScript(Some(25.0)))
      && PrepareAsWritten(Inflate(200.0, 4.0, color), None, ctx, Created, Plenty, 400, 800) == p
      && Prepare(p.view, p.debug, ctx, Created, Plenty, 400, 800) == p
  {
    assert ClampRadius(40.0, 4.0) == Clamp(10.0, 4.0);
    assert ScaledSize(400, 4.0) == 100 && ScaledSize(800, 4.0) == 200;
    assert ClampRadius(200.0, 4.0) == Clamp(25.0, 8.0);
    assert ScaledSize(400, 8.0) == 50 && ScaledSize(800, 8.0) == 100;
    PrepareIdempotent(Inflate(200.0, 4.0, color), None, ctx, Created, Plenty, 400, 800, ctx, Created, Plenty);
  }

  /** A newly inflated view with a positive factor is healthy, so every property
      proved from `Healthy` holds from construction on. */
  lemma InflateHealthy(blurRadius: real, downsampleFactor: real, overlayColor: int)
    requires downsampleFactor > 0.0
    ensures Healthy(Inflate(blurRadius, downsampleFactor, overlayColor))
  {
  }

  /** Every setter and `release` keep the view healthy; in particular a clean view
      with a script still holds the clamp of its (possibly new) configuration. */
  lemma SettersKeepHealthy(v: View, radius: real, factor: real, color: int)
    requires Healthy(v)
    ensures Healthy(SetBlurRadius(v, radius))
    ensures SetDownsampleFactor(v, factor).Accepted? ==> Healthy(SetDownsampleFactor(v, factor).view)
    ensures Healthy(SetOverlayColor(v, color))
    ensures Healthy(Release(v))
  {
    SettersKeepConsistent(v, radius, factor, color);
  }

  /** A view narrower or shorter than its downsample factor gets a 0-pixel buffer
      dimension, and `Bitmap.createBitmap` throws for it; both definitions pass the
      exception on. A 3x800 view with radius 10 and factor 4 asks for 0x200. */
  lemma NarrowViewThrows(color: int, ctx: Option<Context>)
    ensures var v := Inflate(10.0, 4.0, color);
      && EmptyBuffers(v, 3, 800)
      && PrepareAsWritten(v, None, ctx, Created, Plenty, 3, 800).outcome == Threw(EMPTY_BITMAP)
      && Prepare(v, None, ctx, Created, Plenty, 3, 800).outcome == Threw(EMPTY_BITMAP)
  {
    assert ClampRadius(10.0, 4.0) == Clamp(2.5, 4.0);
    assert ScaledSize(3, 4.0) == 0;
  }

  /** In a debug build, for every creation failure and every message, the view's
      script acquisition — as written or corrected — applies the same translation
      as the vanilla `BlurImpl.setupScript`: the same upgrade-hint
      `RuntimeException` for a JNI load failure, otherwise each rethrows the
      exception it caught. That is the support library's `RSRuntimeException` in
      the view and the platform's in vanilla, both `Exception.RSRuntimeException`
      here. */
  lemma DebugFailuresMatchVanilla(v: View, debug: Option<bool>, ctx: Option<Context>, creation: ScriptCreation,
                                  impl: VanillaBlurImpl.Impl)
    requires v.renderScript.None? && impl.renderScript.None?
    requires !creation.Created? && IsDebug(debug, ctx).debug
    ensures var setup := VanillaBlurImpl.SetupScript(impl, true, creation);
      && setup.outcome.Threw?
      && AcquireScriptAsWritten(v, debug, ctx, creation).result.outcome == setup.outcome
      && AcquireScript(v, debug, ctx, creation).result.outcome == setup.outcome
    ensures creation.message.Some? && StartsWith(creation.message.value, JNI_LOAD_ERROR_PREFIX) ==>
      AcquireScript(v, debug, ctx, creation).result.outcome == Threw(RuntimeException(UPGRADE_HINT))
    ensures !(creation.message.Some? && StartsWith(creation.message.value, JNI_LOAD_ERROR_PREFIX)) ==>
      AcquireScript(v, debug, ctx, creation).result.outcome == Threw(RSRuntimeException(creation.message))
  {
  }
}
