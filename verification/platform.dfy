/**
 The Android and RenderScript collaborators of the blur widget, reduced to the
 little the widget observes of them: presence/absence of handles, sizes, a
 symbolic description of pixel contents, the exceptions that cross the API, and
 the two pieces of arithmetic the widget relies on (Java's float-to-int cast and
 the memoised "is this a debuggable build" answer).
 */
module Platform {

  datatype Option<+T> = None | Some(value: T)

  /** Java's `int` range. */
  const INT_MIN: int := -0x8000_0000
  const INT_MAX: int := 0x7fff_ffff

  /** `Color.TRANSPARENT`. */
  const TRANSPARENT: int := 0

  /** `ApplicationInfo.FLAG_DEBUGGABLE` (bit 1 of the application flags). */
  const FLAG_DEBUGGABLE: bv32 := 0x2

  /** The message prefix RenderScript uses when its JNI library cannot be loaded. */
  const JNI_LOAD_ERROR_PREFIX: string := "Error loading RS jni library: java.lang.UnsatisfiedLinkError:"

  /** The replacement message raised in debug builds for a JNI load failure. */
  const UPGRADE_HINT: string := "Error loading RS jni library, Upgrade buildToolsVersion=\"24.0.2\" or higher may solve this issue"

  predicate StartsWith(s: string, prefix: string) {
    |prefix| <= |s| && s[..|prefix|] == prefix
  }

  /** Java's narrowing conversion `(int) x` of a floating-point value: rounds toward
      zero and saturates at the ends of the `int` range (NaN is not modelled). */
  function FloatToInt(x: real): (r: int)
    ensures INT_MIN <= r <= INT_MAX
    ensures 0.0 <= x < INT_MAX as real ==> r as real <= x < r as real + 1.0
    ensures INT_MIN as real < x <= 0.0 ==> r as real - 1.0 < x <= r as real
    ensures x >= INT_MAX as real ==> r == INT_MAX
    ensures x <= INT_MIN as real ==> r == INT_MIN
  {
    if x >= 0.0 then
      (if x.Floor > INT_MAX then INT_MAX else x.Floor)
    else
      (if -((-x).Floor) < INT_MIN then INT_MIN else -((-x).Floor))
  }

  /** An application context; the widget only reads its `ApplicationInfo.flags`. */
  datatype Context = Context(appFlags: bv32)

  predicate Debuggable(ctx: Context) {
    ctx.appFlags & FLAG_DEBUGGABLE != 0
  }

  /** The answer of `isDebug(ctx)` together with the new value of the static
      `Boolean DEBUG` cache (`None` is Java's `null`). */
  datatype DebugAnswer = DebugAnswer(debug: bool, cache: Option<bool>)

  /** `isDebug`: the first answer computed from a non-null context is cached for the
      rest of the process; without a context and without a cached answer the
      result is `false` and nothing is cached. */
  function IsDebug(cache: Option<bool>, ctx: Option<Context>): (r: DebugAnswer)
    ensures cache.Some? ==> r.cache == cache && r.debug == cache.value
    ensures cache.None? && ctx.Some? ==> r.cache == Some(r.debug) && (r.debug <==> Debuggable(ctx.value))
    ensures cache.None? && ctx.None? ==> r.cache.None? && !r.debug
  {
    var c := if cache.None? && ctx.Some? then Some(Debuggable(ctx.value)) else cache;
    DebugAnswer(c == Some(true), c)
  }

  /** The answers of successive `isDebug` calls made with the given contexts. */
  function DebugAnswers(cache: Option<bool>, ctxs: seq<Option<Context>>): (r: seq<bool>)
    ensures |r| == |ctxs|
    decreases |ctxs|
  {
    if ctxs == [] then []
    else
      var a := IsDebug(cache, ctxs[0]);
      [a.debug] + DebugAnswers(a.cache, ctxs[1..])
  }

  /** Once an answer is cached, every later call returns it, whatever the context. */
  lemma {:induction false} CachedAnswerIsFinal(b: bool, ctxs: seq<Option<Context>>)
    ensures forall j :: 0 <= j < |ctxs| ==> DebugAnswers(Some(b), ctxs)[j] == b
  {
    if ctxs != [] {
      CachedAnswerIsFinal(b, ctxs[1..]);
    }
  }

  /** Starting from an empty cache, every call before the first non-null context
      answers `false`, and the first non-null context decides every answer from
      then on, even when later contexts say otherwise. */
  lemma {:induction false} FirstContextDecides(ctxs: seq<Option<Context>>, i: nat)
    requires i < |ctxs| && ctxs[i].Some?
    requires forall k :: 0 <= k < i ==> ctxs[k].None?
    ensures forall j :: 0 <= j < i ==> !DebugAnswers(None, ctxs)[j]
    ensures forall j :: i <= j < |ctxs| ==> (DebugAnswers(None, ctxs)[j] <==> Debuggable(ctxs[i].value))
  {
    if i == 0 {
      CachedAnswerIsFinal(Debuggable(ctxs[0].value), ctxs[1..]);
    } else {
      FirstContextDecides(ctxs[1..], i - 1);
    }
  }

  /** The exceptions that cross the modelled API. `RSRuntimeException` is the
      runtime exception of the RenderScript package whose factories the caller
      uses and also names in its `catch`: the support library's for the view, the
      platform's for the vanilla `BlurImpl`. `AndroidXRSRuntimeException` is the
      one the `androidx.renderscript` factories throw; it is not a subclass of
      either. */
  datatype Exception =
    | RSRuntimeException(rsMessage: Option<string>)
    | AndroidXRSRuntimeException(axMessage: Option<string>)
    | RuntimeException(message: string)
    | IllegalArgumentException(message: string)
    | NullPointerException

  /** What `Bitmap.createBitmap(width, height, config)` throws for a dimension that
      is not positive. */
  const EMPTY_BITMAP: Exception := IllegalArgumentException("width and height must be > 0")

  /** How a call ended: a returned boolean or a thrown exception. */
  datatype Outcome = Returned(ok: bool) | Threw(error: Exception)

  /** How the two factory calls `RenderScript.create` and
      `ScriptIntrinsicBlur.create` turn out on the running device; a foreign
      decision the model takes as input. */
  datatype ScriptCreation =
    | Created
    | ContextFailed(message: Option<string>)
    | ScriptFailed(message: Option<string>)

  /** The exception a debug build raises for a script-creation failure with the
      given message: the JNI load failure is replaced by a hint, anything else is
      rethrown unchanged. */
  function DebugCreationError(message: Option<string>): (e: Exception)
    ensures message.Some? && StartsWith(message.value, JNI_LOAD_ERROR_PREFIX) ==> e == RuntimeException(UPGRADE_HINT)
    ensures !(message.Some? && StartsWith(message.value, JNI_LOAD_ERROR_PREFIX)) ==> e == RSRuntimeException(message)
  {
    if message.Some? && StartsWith(message.value, JNI_LOAD_ERROR_PREFIX) then RuntimeException(UPGRADE_HINT)
    else RSRuntimeException(message)
  }

  /** A view met by a draw traversal of the window's view tree. */
  datatype Node =
    | PlainView(id: nat)
    | ThisBlurView
    | OtherBlurView(id: nat, isRendering: bool)

  /** Symbolic pixel contents. A capture is the window background colour overlaid
      with the views that painted, translated by `(-dx, -dy)`; a blur result names
      its source and the radius the kernel ran with (`None`: the kernel default). */
  datatype Pixels =
    | Blank
    | Scene(background: int, dx: int, dy: int, drawn: seq<Node>)
    | Blurred(source: Pixels, radius: Option<real>)

  datatype Bitmap = Bitmap(width: int, height: int, pixels: Pixels)

  /** A RenderScript allocation; its type is its size. */
  datatype Allocation = Allocation(width: int, height: int, pixels: Pixels)

  /** A RenderScript context handle. */
  datatype RenderScript = RenderScript

  /** A `ScriptIntrinsicBlur` handle with the radius last set on it. */
  datatype BlurScript = BlurScript(radius: Option<real>)

  /** `Allocation.createFromBitmap(rs, b, MIPMAP_NONE, USAGE_SCRIPT)`: an allocation
      of the bitmap's size holding a copy of its pixels. */
  function AllocationFromBitmap(b: Bitmap): Allocation {
    Allocation(b.width, b.height, b.pixels)
  }

  /** `Allocation.createTyped(rs, a.getType())`: a fresh allocation of the same type. */
  function AllocationTypedLike(a: Allocation): Allocation {
    Allocation(a.width, a.height, Blank)
  }
}
