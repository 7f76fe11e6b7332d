/**
 `AndroidXBlurImpl`, the AndroidX RenderScript implementation of the three-method
 `BlurImpl` interface (`prepare`, `release`, `blur`). Its state is four nullable
 handles; the interface is the three functions `Prepare`, `Release` and `Blur`
 below, and `ImplementsBlurImpl` collects the promises the interface makes.
 */
module AndroidXBlurImpl {
  import opened Platform

  datatype Impl = Impl(
    renderScript: Option<RenderScript>,
    blurScript: Option<BlurScript>,
    blurInput: Option<Allocation>,
    blurOutput: Option<Allocation>)

  /** A newly constructed instance: every handle is null. */
  const Fresh: Impl := Impl(None, None, None, None)

  predicate Released(s: Impl) {
    s.renderScript.None? && s.blurScript.None? && s.blurInput.None? && s.blurOutput.None?
  }

  /** The state `blur` needs: every handle live, the output typed like the input. */
  predicate Prepared(s: Impl) {
    && s.renderScript.Some? && s.blurScript.Some? && s.blurInput.Some? && s.blurOutput.Some?
    && s.blurOutput.value.width == s.blurInput.value.width
    && s.blurOutput.value.height == s.blurInput.value.height
  }

  /** The context and the script are created together or not at all. */
  predicate ScriptsPaired(s: Impl) {
    s.renderScript.Some? <==> s.blurScript.Some?
  }

  /** A `prepare` call: the new instance state, the new value of the class's static
      `DEBUG` cache, and how the call ended. */
  datatype PrepareResult = PrepareResult(impl: Impl, debugCache: Option<bool>, outcome: Outcome)

  /** Lines 32-38 of `prepare`, once a context exists: the radius is set on the
      script and fresh input/output allocations are made over the buffer. */
  function Configure(live: Impl, debugCache: Option<bool>, buffer: Bitmap, radius: real): (r: PrepareResult)
    requires live.renderScript.Some?
    ensures r.debugCache == debugCache && r.impl.renderScript == live.renderScript
    ensures r.outcome == Threw(NullPointerException) <==> live.blurScript.None?
    ensures r.outcome.Returned? ==>
      && r.outcome.ok && Prepared(r.impl)
      && r.impl.blurScript.value.radius == Some(radius)
      && r.impl.blurInput == Some(AllocationFromBitmap(buffer))
      && r.impl.blurOutput.value.pixels == Blank
  {
    if live.blurScript.None? then PrepareResult(live, debugCache, Threw(NullPointerException))
    else
      var input := AllocationFromBitmap(buffer);
      var withRadius := live.(blurScript := Some(BlurScript(Some(radius))));
      PrepareResult(withRadius.(blurInput := Some(input), blurOutput := Some(AllocationTypedLike(input))),
                    debugCache, Returned(true))
  }

  /** The handles after the two factory calls: both on success; after a failure of
      `ScriptIntrinsicBlur.create`, the context the first call assigned. */
  function AfterFactories(s: Impl, creation: ScriptCreation): (r: Impl)
    requires s.renderScript.None?
    ensures r.renderScript.Some? <==> !creation.ContextFailed?
    ensures creation.Created? ==> r.blurScript.Some?
    ensures !creation.Created? ==> r.blurScript == s.blurScript
    ensures r.blurInput == s.blurInput && r.blurOutput == s.blurOutput
  {
    match creation
    case Created => s.(renderScript := Some(RenderScript), blurScript := Some(BlurScript(None)))
    case ScriptFailed(_) => s.(renderScript := Some(RenderScript))
    case ContextFailed(_) => s
  }

  /** `prepare(context, buffer, radius)` as written. The `catch` at line 22 names
      the platform's `android.renderscript.RSRuntimeException`, a class the
      `androidx.renderscript` factories do not throw, so a creation failure
      escapes in every build: `isDebug` is not consulted, `release()` is not
      called, and a context created before the script factory failed stays. */
  function PrepareAsWritten(s: Impl, debugCache: Option<bool>, ctx: Option<Context>,
                            creation: ScriptCreation, buffer: Bitmap, radius: real): (r: PrepareResult)
    ensures r.debugCache == debugCache
    ensures s.renderScript.None? && !creation.Created? ==>
      && r.outcome == Threw(AndroidXRSRuntimeException(creation.message))
      && (r.impl.renderScript.Some? <==> creation.ScriptFailed?) && r.impl.blurScript == s.blurScript
      && r.impl.blurInput == s.blurInput && r.impl.blurOutput == s.blurOutput
    // without a failure it agrees with the corrected `Prepare`
    ensures s.renderScript.Some? || creation.Created? ==> r == Prepare(s, debugCache, ctx, creation, buffer, radius)
    ensures r.outcome != Returned(false)
  {
    if s.renderScript.None? then
      var live := AfterFactories(s, creation);
      if !creation.Created? then PrepareResult(live, debugCache, Threw(AndroidXRSRuntimeException(creation.message)))
      else Configure(live, debugCache, buffer, radius)
    else Configure(s, debugCache, buffer, radius)
  }

  /** `prepare(context, buffer, radius)`, corrected: the `catch` names the class the
      androidx factories throw, so a release build releases everything and
      reports false, and a debug build rethrows. */
  function Prepare(s: Impl, debugCache: Option<bool>, ctx: Option<Context>,
                   creation: ScriptCreation, buffer: Bitmap, radius: real): (r: PrepareResult)
    // a live context is reused: nothing is created and the cache is not consulted
    ensures s.renderScript.Some? ==> r.impl.renderScript == s.renderScript && r.debugCache == debugCache
    ensures s.renderScript.Some? && s.blurScript.Some? ==> r.outcome == Returned(true)
    // success: radius set, fresh allocations over the buffer, output typed like input
    ensures r.outcome == Returned(true) ==>
      && Prepared(r.impl)
      && r.impl.blurScript.value.radius == Some(radius)
      && r.impl.blurInput == Some(AllocationFromBitmap(buffer))
      && r.impl.blurOutput.value.pixels == Blank
    ensures r.outcome == Returned(true) <==>
      (s.renderScript.Some? && s.blurScript.Some?) || (s.renderScript.None? && creation.Created?)
    // release build: a creation failure releases everything and reports false
    ensures r.outcome == Returned(false) <==>
      s.renderScript.None? && !creation.Created? && !IsDebug(debugCache, ctx).debug
    ensures r.outcome == Returned(false) ==> Released(r.impl)
    // debug build: the creation failure propagates unchanged
    ensures s.renderScript.None? && !creation.Created? && IsDebug(debugCache, ctx).debug ==>
      r.outcome == Threw(AndroidXRSRuntimeException(creation.message))
    ensures r.outcome == Threw(NullPointerException) <==> s.renderScript.Some? && s.blurScript.None?
  {
    if s.renderScript.None? then
      var live := AfterFactories(s, creation);
      if creation.Created? then Configure(live, debugCache, buffer, radius)
      else
        var d := IsDebug(debugCache, ctx);
        if d.debug then PrepareResult(live, d.cache, Threw(AndroidXRSRuntimeException(creation.message)))
        else PrepareResult(Release(live), d.cache, Returned(false))
    else Configure(s, debugCache, buffer, radius)
  }

  /** Finding, as written: in a release build a failure of the androidx script
      factory is not caught, so `prepare` throws where the corrected definition
      returns false, and it leaves a context without a script behind; the next
      `prepare` skips creation and dereferences the null script. */
  lemma FailureEscapesPlatformCatch(s: Impl, ctx: Context, message: Option<string>, buffer: Bitmap, radius: real,
                                    creation2: ScriptCreation, buffer2: Bitmap, radius2: real)
    requires Released(s) && !Debuggable(ctx)
    ensures var p := PrepareAsWritten(s, None, Some(ctx), ScriptFailed(message), buffer, radius);
      && p.outcome == Threw(AndroidXRSRuntimeException(message))
      && Prepare(s, None, Some(ctx), ScriptFailed(message), buffer, radius).outcome == Returned(false)
      && p.impl.renderScript.Some? && p.impl.blurScript.None?
      && PrepareAsWritten(p.impl, p.debugCache, Some(ctx), creation2, buffer2, radius2).outcome == Threw(NullPointerException)
  {
  }

  /** `release()`: nulls all four handles; safe when never prepared, idempotent. */
  function Release(s: Impl): (r: Impl)
    ensures Released(r)
    ensures Released(s) ==> r == s
  {
    Impl(None, None, None, None)
  }

  datatype BlurResult = BlurResult(impl: Impl, output: Bitmap)

  /** `blur(input, output)`: copies the input into the input allocation, runs the
      kernel with the script's radius into the output allocation, and copies that
      into the output bitmap. RenderScript rejects bitmaps whose size differs from
      the allocations', so matching sizes are required. */
  function Blur(s: Impl, input: Bitmap, output: Bitmap): (r: BlurResult)
    requires Prepared(s)
    requires input.width == s.blurInput.value.width && input.height == s.blurInput.value.height
    requires output.width == s.blurOutput.value.width && output.height == s.blurOutput.value.height
    ensures r.output.width == output.width && r.output.height == output.height
    ensures r.output.pixels == Blurred(input.pixels, s.blurScript.value.radius)
    ensures Prepared(r.impl)
    ensures r.impl.renderScript == s.renderScript && r.impl.blurScript == s.blurScript
    ensures r.impl.blurInput.value.pixels == input.pixels
    ensures r.impl.blurOutput.value.pixels == r.output.pixels
  {
    var inAlloc := s.blurInput.value.(pixels := input.pixels);
    var outAlloc := s.blurOutput.value.(pixels := Blurred(inAlloc.pixels, s.blurScript.value.radius));
    BlurResult(s.(blurInput := Some(inAlloc), blurOutput := Some(outAlloc)), output.(pixels := outAlloc.pixels))
  }

  /** The promises of the `BlurImpl` interface, for this implementation: every
      operation keeps the context and the script paired unless it throws; a
      successful `prepare` leaves an instance `blur` accepts, whose result is the
      buffer blurred with the requested radius; `release` returns to the
      never-prepared state. */
  lemma ImplementsBlurImpl(s: Impl, debugCache: Option<bool>, ctx: Option<Context>,
                           creation: ScriptCreation, buffer: Bitmap, radius: real, output: Bitmap)
    requires ScriptsPaired(s)
    requires output.width == buffer.width && output.height == buffer.height
    ensures var p := Prepare(s, debugCache, ctx, creation, buffer, radius);
      && (p.outcome.Returned? ==> ScriptsPaired(p.impl))
      && (p.outcome == Returned(true) ==>
            Blur(p.impl, buffer, output).output.pixels == Blurred(buffer.pixels, Some(radius)))
      && p.outcome != Threw(NullPointerException)
    ensures Release(s) == Fresh
  {
  }
}
