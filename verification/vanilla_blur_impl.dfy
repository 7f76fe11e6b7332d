/**
 The `BlurImpl` of the vanilla build type: the older split API in which the
 script handles (`setupScript`/`releaseScript`) and the bitmap allocations
 (`setupBitmap`/`releaseBitmap`) are set up and torn down separately, and the
 radius is pushed with its own call. The debug flag is the caller's argument.
 */
module VanillaBlurImpl {
  import opened Platform

  datatype Impl = Impl(
    renderScript: Option<RenderScript>,
    blurScript: Option<BlurScript>,
    blurInput: Option<Allocation>,
    blurOutput: Option<Allocation>)

  const Fresh: Impl := Impl(None, None, None, None)

  predicate ScriptLive(s: Impl) {
    s.renderScript.Some? && s.blurScript.Some?
  }

  predicate ScriptReleased(s: Impl) {
    s.renderScript.None? && s.blurScript.None?
  }

  predicate BitmapReleased(s: Impl) {
    s.blurInput.None? && s.blurOutput.None?
  }

  datatype Setup = Setup(impl: Impl, outcome: Outcome)

  /** `setupScript(context, debug)`. */
  function SetupScript(s: Impl, debug: bool, creation: ScriptCreation): (r: Setup)
    // an existing context means there is nothing to do
    ensures s.renderScript.Some? ==> r == Setup(s, Returned(true))
    ensures s.renderScript.None? && creation.Created? ==>
      r.outcome == Returned(true) && ScriptLive(r.impl) && r.impl.blurScript.value.radius.None?
    // release build: a creation failure releases both script handles and reports false
    ensures r.outcome == Returned(false) <==> s.renderScript.None? && !creation.Created? && !debug
    ensures r.outcome == Returned(false) ==> ScriptReleased(r.impl)
    // debug build: a JNI load failure becomes the upgrade hint, any other error is rethrown
    ensures s.renderScript.None? && !creation.Created? && debug ==>
      r.outcome.Threw? &&
      (if creation.message.Some? && StartsWith(creation.message.value, JNI_LOAD_ERROR_PREFIX)
       then r.outcome.error == RuntimeException(UPGRADE_HINT)
       else r.outcome.error == RSRuntimeException(creation.message))
    // the allocations are never touched
    ensures r.impl.blurInput == s.blurInput && r.impl.blurOutput == s.blurOutput
  {
    if s.renderScript.Some? then Setup(s, Returned(true))
    else if creation.Created? then
      Setup(s.(renderScript := Some(RenderScript), blurScript := Some(BlurScript(None))), Returned(true))
    else
      var partial := if creation.ScriptFailed? then s.(renderScript := Some(RenderScript)) else s;
      if debug then Setup(partial, Threw(DebugCreationError(creation.message)))
      else Setup(ReleaseScript(partial), Returned(false))
  }

  /** `releaseScript()`: nulls both script handles, leaves the allocations. */
  function ReleaseScript(s: Impl): (r: Impl)
    ensures ScriptReleased(r)
    ensures r.blurInput == s.blurInput && r.blurOutput == s.blurOutput
    ensures ScriptReleased(s) ==> r == s
  {
    s.(renderScript := None, blurScript := None)
  }

  /** `setupBitmap(bitmapToBlur)`: an input allocation over the bitmap and an output
      allocation of the same type. `Allocation.createFromBitmap` dereferences the
      context, so a live context is required. */
  function SetupBitmap(s: Impl, bitmapToBlur: Bitmap): (r: Impl)
    requires s.renderScript.Some?
    ensures r.blurInput == Some(AllocationFromBitmap(bitmapToBlur))
    ensures r.blurOutput.Some? && r.blurOutput.value.width == bitmapToBlur.width
      && r.blurOutput.value.height == bitmapToBlur.height && r.blurOutput.value.pixels == Blank
    ensures r.renderScript == s.renderScript && r.blurScript == s.blurScript
  {
    var input := AllocationFromBitmap(bitmapToBlur);
    s.(blurInput := Some(input), blurOutput := Some(AllocationTypedLike(input)))
  }

  /** `releaseBitmap()`: nulls both allocations, leaves the script handles. */
  function ReleaseBitmap(s: Impl): (r: Impl)
    ensures BitmapReleased(r)
    ensures r.renderScript == s.renderScript && r.blurScript == s.blurScript
    ensures BitmapReleased(s) ==> r == s
  {
    s.(blurInput := None, blurOutput := None)
  }

  /** `setRadius(radius)`: the script must exist. */
  function SetRadius(s: Impl, radius: real): (r: Impl)
    requires s.blurScript.Some?
    ensures r.blurScript == Some(BlurScript(Some(radius)))
    ensures r.renderScript == s.renderScript && r.blurInput == s.blurInput && r.blurOutput == s.blurOutput
  {
    s.(blurScript := Some(BlurScript(Some(radius))))
  }

  datatype BlurResult = BlurResult(impl: Impl, blurred: Bitmap)

  /** `blur(bitmapToBlur, blurredBitmap)`: input bitmap to input allocation, kernel
      into the output allocation, output allocation to the blurred bitmap. */
  function Blur(s: Impl, bitmapToBlur: Bitmap, blurredBitmap: Bitmap): (r: BlurResult)
    requires s.blurScript.Some? && s.blurInput.Some? && s.blurOutput.Some?
    requires bitmapToBlur.width == s.blurInput.value.width && bitmapToBlur.height == s.blurInput.value.height
    requires blurredBitmap.width == s.blurOutput.value.width && blurredBitmap.height == s.blurOutput.value.height
    ensures r.blurred.width == blurredBitmap.width && r.blurred.height == blurredBitmap.height
    ensures r.blurred.pixels == Blurred(bitmapToBlur.pixels, s.blurScript.value.radius)
    ensures r.impl.renderScript == s.renderScript && r.impl.blurScript == s.blurScript
    ensures r.impl.blurInput.Some? && r.impl.blurInput.value.pixels == bitmapToBlur.pixels
  {
    var inAlloc := s.blurInput.value.(pixels := bitmapToBlur.pixels);
    var outAlloc := s.blurOutput.value.(pixels := Blurred(inAlloc.pixels, s.blurScript.value.radius));
    BlurResult(s.(blurInput := Some(inAlloc), blurOutput := Some(outAlloc)), blurredBitmap.(pixels := outAlloc.pixels))
  }

  /** The intended call sequence on a fresh instance — set up the script, set up the
      bitmap, push a radius, blur — yields the buffer blurred with that radius; and
      tearing down the bitmap and then the script returns to the fresh state. */
  lemma {:induction false} LifecycleBlursWithPushedRadius(buffer: Bitmap, out: Bitmap, radius: real, debug: bool)
    requires out.width == buffer.width && out.height == buffer.height
    ensures SetupScript(Fresh, debug, Created).outcome == Returned(true)
    ensures var s := SetRadius(SetupBitmap(SetupScript(Fresh, debug, Created).impl, buffer), radius);
      && Blur(s, buffer, out).blurred.pixels == Blurred(buffer.pixels, Some(radius))
      && ReleaseScript(ReleaseBitmap(Blur(s, buffer, out).impl)) == Fresh
  {
    var s0 := SetupScript(Fresh, debug, Created).impl;
    var s1 := SetupBitmap(s0, buffer);
    var s2 := SetRadius(s1, radius);
    assert s2.blurInput.value.width == buffer.width;
  }
}
