# RealtimeBlurView resource lifecycle, in Dafny

This project models the resource-lifecycle state machine of `RealtimeBlurView`, an Android
widget that shows a live blur of whatever lies behind it. Each frame the widget does four things:
- it captures the window into a downsampled capture bitmap;
- it blurs that bitmap with a RenderScript `ScriptIntrinsicBlur` into a second bitmap;
- it paints the blurred bitmap stretched over itself;
- it paints an overlay colour on top.

The project also models the two RenderScript wrappers of the `BlurImpl` family: the AndroidX
one (`prepare`/`release`/`blur`) and the vanilla build type's split API.

Pixels, canvases and RenderScript handles are tokens. A nullable field is an `Option`. A bitmap
or allocation carries its size and a symbolic description of its pixels. That description is blank,
a captured scene, or the blur of a source at a radius. The model has no classes. Each Java object's
fields form an immutable datatype, and each method is a function from the old state (plus its
arguments) to the new state and an `Outcome`: a returned boolean or a thrown exception. The
class's static fields `RENDERING_COUNT` and `DEBUG` are passed along explicitly. A null dereference
is the outcome `Threw(NullPointerException)`.

The model also takes the device's decisions as inputs:
- whether `RenderScript.create` / `ScriptIntrinsicBlur.create` fail, and with what message;
- whether `Bitmap.createBitmap` returns null;
- whether the view is shown, whether its context leads to an activity, where the decor and the
  view sit in the window, what the decor background is, and which views a draw of the decor meets.

Arithmetic is over `real` for the radius and the downsample factor. Java's `(int)` cast is
truncation toward zero with saturation at the `int` range (`Platform.FloatToInt`). `25` is the
largest radius `ScriptIntrinsicBlur` accepts.

Modules:
- `Platform` (`platform.dfy`): tokens, exceptions, the float-to-int cast, the memoised `isDebug`.
- `AndroidXBlurImpl` (`androidx_blur_impl.dfy`): the AndroidX implementation of the three-method
  `BlurImpl` interface.
- `VanillaBlurImpl` (`vanilla_blur_impl.dfy`): the vanilla build type's `BlurImpl`.
- `BlurViewState` (`blur_view_state.dfy`): the view's fields, setters and release operations.
- `BlurViewPrepare` (`blur_view_prepare.dfy`): `prepare()`, as written and corrected.
- `BlurViewFrame` (`blur_view_frame.dfy`): the pre-draw hook, the `draw` guard, the composite step.
- `BlurViewLifecycle` (`blur_view_lifecycle.dfy`): detach, and runs of setter, pre-draw and detach
  events.

Three defects are recorded under Findings, two in the view's `prepare()` and one in the AndroidX
`prepare`. Each is modelled twice. `BlurViewPrepare.PrepareAsWritten` and
`AndroidXBlurImpl.PrepareAsWritten` follow the code's control flow. `BlurViewPrepare.Prepare` and
`AndroidXBlurImpl.Prepare` are the corrected definitions. The pre-draw hook and runs of events
exist in both versions: `BlurViewFrame.OnPreDrawAsWritten` runs the code's `prepare` and
`BlurViewFrame.OnPreDraw` runs the corrected one. `BlurViewLifecycle.RunEvents` takes the version
as an argument. The health invariant and "never dereferences null" are proved of the corrected
version only. The count balance is proved of both.

## Model

| member | source | states |
|---|---|---|
| `Platform.FloatToInt` | library/src/com/github/mmin18/widget/RealtimeBlurView.java:162-163 | the `(int)` cast of a float lands in the `int` range; for values inside that range it is the floor of a non-negative value and the ceiling of a negative one |
| `Platform.IsDebug` | library/src/com/github/mmin18/widget/RealtimeBlurView.java:316-323 | a cached answer is returned and kept; with nothing cached, a non-null context decides (debuggable flag bit) and its answer is cached; a null context gives false and caches nothing |
| `Platform.CachedAnswerIsFinal` | library/src/com/github/mmin18/widget/RealtimeBlurView.java:316-323 | once cached, every later `isDebug` call returns the cached answer whatever context it is given |
| `Platform.FirstContextDecides` | library/src-blurimpl/AndroidXBlurImpl.java:70-77 | from an empty cache, calls before the first non-null context answer false, and that context's answer is returned by every later call |
| `Platform.DebugCreationError` | library/build-types/vanilla/java/com/github/mmin18/widget/BlurImpl.java:24-28 | in a debug build, an error whose message starts with the JNI load prefix becomes a `RuntimeException` carrying the upgrade hint; any other error (null message included) is rethrown unchanged; `BlurViewPrepare.DebugFailuresMatchVanilla` ties it to the view's own acquisition |
| `BlurViewPrepare.DebugFailuresMatchVanilla` | library/src/com/github/mmin18/widget/RealtimeBlurView.java:137-142 | in a debug build, for every creation failure and message, the view's acquisition (as written and corrected) applies the same translation as the vanilla `setupScript` (BlurImpl.java:24-28): the same upgrade-hint `RuntimeException` for a JNI load failure, otherwise each rethrows the exception it caught, which is the support library's class in the view and the platform's in vanilla |
| `AndroidXBlurImpl.Prepare` | library/src-blurimpl/AndroidXBlurImpl.java:17-38 | corrected `prepare`, whose `catch` names the class the androidx factories throw: context and script are created only when the context is null, otherwise reused without consulting `isDebug`; success sets the radius and fresh input/output allocations over the buffer (output typed like input) and returns true; in a release build a creation failure releases all four handles and returns false; in a debug build the failure propagates unchanged |
| `AndroidXBlurImpl.PrepareAsWritten` | library/src-blurimpl/AndroidXBlurImpl.java:17-38 | as written: a creation failure escapes the `catch` of line 22 in every build, without consulting `isDebug` and without `release()`, and a context created before the script factory failed stays; with a live context or a successful creation it agrees with the corrected `prepare` |
| `AndroidXBlurImpl.Configure` | library/src-blurimpl/AndroidXBlurImpl.java:32-38 | with a context: a null script is dereferenced; otherwise the script holds the radius, the input allocation copies the buffer and the output allocation is typed like it, and the result is true |
| `AndroidXBlurImpl.AfterFactories` | library/src-blurimpl/AndroidXBlurImpl.java:19-21 | after the two factory calls on a null context: success assigns both handles; a failure of `ScriptIntrinsicBlur.create` leaves the context assigned and the script as it was; a failure of `RenderScript.create` assigns nothing; the allocations are untouched |
| `AndroidXBlurImpl.FailureEscapesPlatformCatch` | library/src-blurimpl/AndroidXBlurImpl.java:18-32 | as written, in a release build a failure of the script factory is thrown where the corrected `prepare` returns false, leaving a context without a script, and the next `prepare` dereferences the null script |
| `AndroidXBlurImpl.Release` | library/src-blurimpl/AndroidXBlurImpl.java:41-59 | nulls input, output, script and context; on an already released instance it changes nothing |
| `AndroidXBlurImpl.Blur` | library/src-blurimpl/AndroidXBlurImpl.java:61-67 | needs every handle live; the output bitmap becomes the input's pixels blurred with the script's radius, by way of the two allocations, and the instance stays prepared |
| `AndroidXBlurImpl.ImplementsBlurImpl` | library/src/com/github/mmin18/widget/BlurImpl.java:6-14 | with the corrected `prepare`, from a state with context and script paired: `prepare` keeps them paired unless it throws, never dereferences null, and on success leaves an instance whose `blur` yields the buffer blurred with the requested radius; `release` returns to the never-prepared state |
| `VanillaBlurImpl.SetupScript` | library/build-types/vanilla/java/com/github/mmin18/widget/BlurImpl.java:18-39 | an existing context means return true and change nothing; creation gives a live context and script; a release-build failure leaves both script handles null and returns false; a debug-build failure throws the upgrade hint for a JNI load error and rethrows otherwise; allocations are never touched |
| `VanillaBlurImpl.ReleaseScript` | library/build-types/vanilla/java/com/github/mmin18/widget/BlurImpl.java:41-50 | nulls both script handles, leaves the allocations, and is idempotent |
| `VanillaBlurImpl.SetupBitmap` | library/build-types/vanilla/java/com/github/mmin18/widget/BlurImpl.java:52-56 | needs a live context; the input allocation copies the bitmap and the output allocation has the same type; script handles untouched |
| `VanillaBlurImpl.ReleaseBitmap` | library/build-types/vanilla/java/com/github/mmin18/widget/BlurImpl.java:58-67 | nulls both allocations, leaves the script handles, and is idempotent |
| `VanillaBlurImpl.SetRadius` | library/build-types/vanilla/java/com/github/mmin18/widget/BlurImpl.java:69-71 | needs the script; the script now holds the radius and nothing else changes |
| `VanillaBlurImpl.Blur` | library/build-types/vanilla/java/com/github/mmin18/widget/BlurImpl.java:73-78 | the blurred bitmap keeps its size and receives the input's pixels blurred with the script's radius; script handles untouched |
| `VanillaBlurImpl.LifecycleBlursWithPushedRadius` | library/build-types/vanilla/java/com/github/mmin18/widget/BlurImpl.java:18-78 | setupScript, setupBitmap, setRadius, blur on a fresh instance blur the buffer with the pushed radius; releaseBitmap then releaseScript return to the fresh state |
| `BlurViewState.Inflate` | library/src/com/github/mmin18/widget/RealtimeBlurView.java:49-58 | a new view holds the configured radius, factor and colour, no handle, and is neither dirty nor rendering |
| `BlurViewState.SetBlurRadius` | library/src/com/github/mmin18/widget/RealtimeBlurView.java:60-66 | the unchanged radius is a no-op; a new radius is stored and sets the dirty flag; handles untouched |
| `BlurViewState.SetDownsampleFactor` | library/src/com/github/mmin18/widget/RealtimeBlurView.java:68-79 | a factor ≤ 0 is rejected with `IllegalArgumentException` and no state change; the same factor changes nothing; a new factor is stored, sets dirty and releases both bitmaps and allocations but not the script |
| `BlurViewState.SetOverlayColor` | library/src/com/github/mmin18/widget/RealtimeBlurView.java:81-86 | only the colour changes; the dirty flag and all handles are untouched |
| `BlurViewState.ReleaseBitmap` | library/src/com/github/mmin18/widget/RealtimeBlurView.java:88-105 | both allocations and both bitmaps become null; the script, the canvas and the configuration are untouched; idempotent |
| `BlurViewState.ReleaseScript` | library/src/com/github/mmin18/widget/RealtimeBlurView.java:107-116 | context and script become null, nothing else changes; idempotent |
| `BlurViewState.Release` | library/src/com/github/mmin18/widget/RealtimeBlurView.java:118-121 | every bitmap, allocation and script handle becomes null; idempotent |
| `BlurViewState.SettersKeepConsistent` | library/src/com/github/mmin18/widget/RealtimeBlurView.java:60-121 | every setter, `releaseBitmap` and `release` keep the resource invariant (script handles paired; a blurred bitmap or allocation exists only in a full set of one size); `releaseScript` keeps it on a view without bitmaps, the only way `release` calls it |
| `BlurViewState.ReleaseScriptAloneBreaksReady` | library/src/com/github/mmin18/widget/RealtimeBlurView.java:107-121 | `releaseScript` on its own breaks the invariant of a view with a ready set, and after `releaseBitmap` (the order `release` uses) it does not |
| `BlurViewPrepare.ClampRadius` | library/src/com/github/mmin18/widget/RealtimeBlurView.java:151-156 | the pushed radius is at most 25; when radius/factor exceeds 25 it is exactly 25 and the factor becomes radius/25, no smaller than the configured factor; otherwise the radius is radius/factor and the factor unchanged; their product is always the configured radius |
| `BlurViewPrepare.ScaledSize` | library/src/com/github/mmin18/widget/RealtimeBlurView.java:159-163 | the buffer dimension is a non-negative `int` whose value is the floor of size/factor, not clamped to 1 |
| `BlurViewPrepare.Allocate` | library/src/com/github/mmin18/widget/RealtimeBlurView.java:165-185 | without a missing canvas or blurred bitmap and without a size change, nothing is allocated and the result is true; otherwise the old set is released, a dimension that is not positive makes `Bitmap.createBitmap` throw `IllegalArgumentException`, and with positive dimensions both bitmaps, the canvas and both allocations are replaced by a set of one size (output typed like input); a null bitmap returns false and leaves no blurred bitmap and no allocation |
| `BlurViewPrepare.AcquireScript` | library/src/com/github/mmin18/widget/RealtimeBlurView.java:131-148 | corrected acquisition, differing from these lines in one place: a release-build failure also releases the context created at line 134, so both script handles are null; otherwise a live context is reused, creation gives both handles, and a debug-build failure throws the translated error |
| `BlurViewPrepare.AcquireScriptAsWritten` | library/src/com/github/mmin18/widget/RealtimeBlurView.java:131-148 | as written: a live context is reused; creation gives both handles; a failure stops `prepare`, the context kept exactly when the script factory was the one that failed and the script handle never assigned; false in a release build, the translated error in a debug build; the `isDebug` cache is updated only on failure |
| `BlurViewPrepare.PrepareAsWritten` | library/src/com/github/mmin18/widget/RealtimeBlurView.java:123-186 | radius 0 releases everything and returns false; a dirty view or one without a context gets the clamped radius pushed, the flag cleared and buffers sized by the clamped factor; a clean view with a context keeps its script, sizes buffers by the unadjusted factor, and throws only for a zero buffer dimension |
| `BlurViewPrepare.Prepare` | library/src/com/github/mmin18/widget/RealtimeBlurView.java:123-186 | corrected `prepare`: radius zero as in the code; a release-build creation failure returns false with both script handles released (the code keeps the context); a debug-build failure throws the translated error; from a healthy view no null dereference, the only other exception is `createBitmap` refusing a zero buffer dimension, health is kept when it returns, and true means a ready buffer set sized by the clamped factor with the clamped radius on the script |
| `BlurViewPrepare.PrepareIdempotent` | library/src/com/github/mmin18/widget/RealtimeBlurView.java:159-185 | with the corrected `prepare`, from a healthy view: after a successful `prepare`, the next one with the same view size changes nothing and returns true, whatever the device would answer |
| `BlurViewPrepare.NarrowViewThrows` | library/src/com/github/mmin18/widget/RealtimeBlurView.java:159-170 | a 3x800 view with radius 10 and factor 4 asks for a 0x200 buffer, and both the code and the corrected `prepare` throw `createBitmap`'s `IllegalArgumentException` |
| `BlurViewPrepare.ClampedFactorLostOnNextFrame` | library/src/com/github/mmin18/widget/RealtimeBlurView.java:129-163 | as written, a 400x800 view with radius 200 and factor 4 gets 50x100 buffers on the first call and is reallocated to 100x200 on the next one, with the script still at 25 |
| `BlurViewPrepare.HalfCreatedScriptBreaksNextFrame` | library/src/com/github/mmin18/widget/RealtimeBlurView.java:131-157 | as written, a release-build failure of the script factory leaves a context without a script; the next `prepare` throws `NullPointerException` if the view is dirty, or else returns true for a view that cannot blur |
| `BlurViewPrepare.EndToEndScenarios` | library/src/com/github/mmin18/widget/RealtimeBlurView.java:123-186 | two worked examples on a 400x800 view with factor 4: radius 40 gives 100x200 buffers and radius 10, from the code and the corrected `prepare` alike, and the code keeps them on the next call; radius 200 gives 50x100 buffers and radius 25 from both on the first call, and the corrected `prepare` keeps them on the next call |
| `BlurViewPrepare.InflateHealthy` | library/src/com/github/mmin18/widget/RealtimeBlurView.java:49-58 | a newly inflated view with a positive factor satisfies the health invariant the corrected frame keeps |
| `BlurViewPrepare.SettersKeepHealthy` | library/src/com/github/mmin18/widget/RealtimeBlurView.java:60-121 | the setters and `release` keep the view healthy: a clean view with a script holds the clamp of its current configuration |
| `BlurViewFrame.DrawGuard` | library/src/com/github/mmin18/widget/RealtimeBlurView.java:267-276 | `draw` throws the stop signal exactly while the view is rendering, draws nothing exactly while it is not and a capture is live, and draws otherwise |
| `BlurViewFrame.FirstAbort` | library/src/com/github/mmin18/widget/RealtimeBlurView.java:235-239 | the position of the first view in draw order that throws the stop signal: none before it does |
| `BlurViewFrame.NodeAction` | library/src/com/github/mmin18/widget/RealtimeBlurView.java:267-276 | how one view of the tree reacts to a draw: a plain view always draws; exactly a rendering blur view throws the stop signal; any other blur view draws nothing exactly while a capture is live |
| `BlurViewFrame.Traverse` | library/src/com/github/mmin18/widget/RealtimeBlurView.java:235-239 | the capture's decor draw ends early exactly when some view throws the stop signal; what got drawn is the painting views before the first such view; during a capture no blur view paints |
| `BlurViewFrame.DrawBlurredBitmap` | library/src/com/github/mmin18/widget/RealtimeBlurView.java:291-300 | the overlay colour is always painted last; the bitmap, whole source onto `0,0,width,height`, is painted first exactly when it is non-null |
| `BlurViewFrame.Draw` | library/src/com/github/mmin18/widget/RealtimeBlurView.java:266-282 | aborts while rendering, suppressed while a capture is live, otherwise paints through `drawBlurredBitmap` with the view's bitmap and colour |
| `BlurViewFrame.BlurCapture` | library/src/com/github/mmin18/widget/RealtimeBlurView.java:188-193 | the blurred bitmap receives the capture blurred with the script's radius; sizes and every other handle unchanged |
| `BlurViewFrame.CaptureOffsetX` | library/src/com/github/mmin18/widget/RealtimeBlurView.java:217-224 | the horizontal capture offset: the decor drawn at it lands the view's left edge at the bitmap's origin |
| `BlurViewFrame.CaptureOffsetY` | library/src/com/github/mmin18/widget/RealtimeBlurView.java:217-224 | the vertical capture offset: the decor drawn at it lands the view's top edge at the bitmap's origin |
| `BlurViewFrame.CaptureIgnoresWindowMove` | library/src/com/github/mmin18/widget/RealtimeBlurView.java:197-250 | the pre-draw hook depends only on where the view sits relative to its decor: moving the view and the decor by the same amount gives the same frame, both as written and corrected |
| `BlurViewFrame.EraseColor` | library/src/com/github/mmin18/widget/RealtimeBlurView.java:226-230 | the colour the capture bitmap is erased to: the decor's `ColorDrawable` colour whenever it has one; a colour other than transparent only comes from that background |
| `BlurViewFrame.OnPreDraw` | library/src/com/github/mmin18/widget/RealtimeBlurView.java:197-250 | the hook with the corrected `prepare`: it always lets the frame proceed and leaves `RENDERING_COUNT` as it found it; not shown means no change; after a capture the view is not rendering; from a healthy view it never dereferences null and throws only a debug build's creation error or `createBitmap`'s refusal of a view smaller than its factor; a capture is the bitmap erased to the decor's colour background (or transparent), the decor drawn at the view's offset up to the view itself, then blurred with the clamped radius |
| `BlurViewFrame.OnPreDrawAsWritten` | library/src/com/github/mmin18/widget/RealtimeBlurView.java:197-250 | the hook as written: it always lets the frame proceed, leaves `RENDERING_COUNT` as it found it and the configuration untouched; after a capture the view is not rendering; a capture is the erased bitmap with the decor drawn up to the view itself, blurred with the script's radius |
| `BlurViewFrame.AfterPrepare` | library/src/com/github/mmin18/widget/RealtimeBlurView.java:199-247 | once `prepare` has run: a throw passes through; false or no activity means no capture; a capture happens exactly when `prepare` returned true with an activity and a full set of handles, and true without the handles is a null dereference; the counter is balanced in every case |
| `BlurViewFrame.CapturedFrameIsComposited` | library/src/com/github/mmin18/widget/RealtimeBlurView.java:232-300 | after a captured frame the view's own draw paints the blurred capture over the whole view and then the overlay colour |
| `BlurViewLifecycle.OnDetached` | library/src/com/github/mmin18/widget/RealtimeBlurView.java:259-264 | detaching releases every bitmap, allocation and script handle and keeps the configuration |
| `BlurViewLifecycle.StepKeepsHealthy` | library/src/com/github/mmin18/widget/RealtimeBlurView.java:60-276 | with the corrected `prepare`, from a healthy view: any one setter, pre-draw or detach keeps the view healthy unless it throws and leaves `RENDERING_COUNT` unchanged; it never dereferences null; the only exceptions are a rejected factor (view untouched), a debug build's script-creation error, and `createBitmap` refusing a view too small for its downsample factor |
| `BlurViewLifecycle.StepKeepsNotRendering` | library/src/com/github/mmin18/widget/RealtimeBlurView.java:232-244 | with either `prepare`, no event that completes leaves the view marked as rendering |
| `BlurViewLifecycle.RunKeepsHealthy` | library/src/com/github/mmin18/widget/RealtimeBlurView.java:60-276 | with the corrected `prepare`, over any sequence of events from a healthy idle view: `RENDERING_COUNT` ends where it started, no null is dereferenced, and a run without exceptions ends healthy and not rendering |
| `BlurViewLifecycle.RunAsWrittenBalancesCount` | library/src/com/github/mmin18/widget/RealtimeBlurView.java:60-276 | for the code as written, over any sequence of events from an idle view: `RENDERING_COUNT` ends where it started, and a run without exceptions ends not rendering |
| `BlurViewLifecycle.HalfCreatedScriptCrashesRun` | library/src/com/github/mmin18/widget/RealtimeBlurView.java:131-193 | as written, from a new view in a release build, a shown frame whose script factory fails followed by a frame with bitmaps to spare ends in a null dereference; the corrected run of the same events does not |
| `BlurViewFrame.NestedDrawsDuringCapture` | library/src/com/github/mmin18/widget/RealtimeBlurView.java:232-276 | in the capture of `onPreDraw`, no blur view paints into the capture, only views of the window do, and every plain view met before the capturing view itself (or another capturing blur view) is in it |
| `BlurViewFrame.PaintedBeforeAbort` | library/src/com/github/mmin18/widget/RealtimeBlurView.java:235-239 | a view that paints and comes before the first view that throws the stop signal is in what the decor draw drew |

## Findings

| source | as written | input that shows it | evidently intended | confidence | as-written member | corrected member |
|---|---|---|---|---|---|---|
| library/src/com/github/mmin18/widget/RealtimeBlurView.java:129-163 | the factor enlarged by the radius clamp is a local, so only the call that pushes the radius sizes buffers with it; the next clean call sizes them with the configured factor while the script keeps radius 25 | 400x800 view, radius 200, factor 4: buffers 50x100 on frame 1, reallocated to 100x200 on frame 2; on-screen blur drops from 200 to 100 and never recovers | apply the clamp on every call so the buffer size matches the pushed radius and a repeated `prepare` allocates nothing | medium; not executed | `BlurViewPrepare.ClampedFactorLostOnNextFrame` | `BlurViewPrepare.PrepareIdempotent` |
| library/src/com/github/mmin18/widget/RealtimeBlurView.java:131-147 | in a release build a failure of `ScriptIntrinsicBlur.create` after `RenderScript.create` succeeded returns false with the context kept and the script null | release build, script factory fails once: the next `prepare` throws `NullPointerException` at `setRadius` (dirty view) or returns true and `blur()` dereferences the null script | release the script handles on failure, as the vanilla `BlurImpl.setupScript` does | medium; not executed | `BlurViewPrepare.HalfCreatedScriptBreaksNextFrame` | `BlurViewPrepare.Prepare` |
| library/src-blurimpl/AndroidXBlurImpl.java:18-32 | the `catch` names `android.renderscript.RSRuntimeException`, while the factories called are those of `androidx.renderscript`, which throw the unrelated `androidx.renderscript.RSRuntimeException`; a creation failure is never caught | release build, `ScriptIntrinsicBlur.create` fails: `prepare` throws instead of returning false, the context stays without a script, and the next `prepare` throws `NullPointerException` at `setRadius` | catch the androidx class, so that a release build releases the handles and returns false and a debug build rethrows | medium; not executed | `AndroidXBlurImpl.FailureEscapesPlatformCatch` | `AndroidXBlurImpl.Prepare` |

## Notes on the code

The model follows the code in each of these points:
- Buffer dimensions are not clamped to at least 1. A view narrower or shorter than its (clamped)
  downsample factor therefore asks `Bitmap.createBitmap` for a 0-pixel dimension. That throws
  `IllegalArgumentException` out of `onPreDraw` on every frame, in the code and in the corrected
  definition alike (`BlurViewPrepare.NarrowViewThrows`).
- Before capture, the capture bitmap is erased to the decor's `ColorDrawable` colour, or to
  transparent. It is not erased to the overlay colour.
- The view uses the support-library RenderScript classes directly. It does not go through a
  `BlurImpl` or choose among backends.
- When the clamp applies, a repeated `prepare` can reallocate the buffers (first Finding).
- A null second bitmap leaves the capture bitmap allocated.
- `releaseBitmap` and `release` leave the canvas field set.
- The AndroidX factories are taken to throw only `androidx.renderscript.RSRuntimeException` on a
  creation failure (third Finding).

## Left out

- `BlurViewPrepare.DebugFailuresMatchVanilla`: one constructor, `Exception.RSRuntimeException`,
  stands for both the support library's class (the view) and the platform's class (vanilla). The
  lemma states that both apply the same translation, not that they throw the same Java class.
- `assertLibrarySupport` (vanilla `BlurImpl`): its body is empty, so there is nothing to model.
- The static class-loader check of the view is a build-configuration guard.
- Registering and removing the pre-draw listener on attach and detach is left out. The release
  done on detach is modelled.
- The loop that unwraps `ContextWrapper`s to find an activity is reduced to an activity present
  or absent.
- The RenderScript kernel, real pixel contents, and the canvas `scale`/`translate`/`save`/`restore`
  matrix effects are symbolic. The capture records its erase colour, its translation and the views
  drawn. The scale factor is not recorded.
- `super.draw` painting the view's background and `super.onDraw` are left out. Only
  `drawBlurredBitmap` is modelled.
- `invalidate()` calls are left out. They request a repaint and change no modelled state.
- IEEE float rounding of `width / downsampleFactor`, of the clamp and of the scale ratios is
  left out. The model uses exact reals, then truncation.
- `Platform.FloatToInt`: NaN and infinities are not modelled. `BlurViewPrepare.PrepareAsWritten`
  and `BlurViewPrepare.Prepare` therefore require a positive downsample factor. With a factor of 0
  read from layout attributes, Java's float division does not throw. It gives an infinite scaled
  radius, so the factor becomes NaN, `setRadius(25)` runs, both sizes cast to 0, and
  `Bitmap.createBitmap` throws. A negative factor from layout is likewise not modelled.
- `BlurViewPrepare.Allocate`: `Bitmap.createBitmap` can also fail with `OutOfMemoryError`. The model
  covers only the null return, through its bitmap-supply input. Its zero-dimension exception is
  modelled.
- `BlurViewPrepare.PrepareAsWritten`: `Allocation.createFromBitmap` and `Allocation.createTyped`
  (lines 181-183) and `ScriptIntrinsicBlur.setRadius` (line 156) are taken never to throw. The same
  holds for `BlurViewPrepare.Prepare` and for both AndroidX `prepare` definitions.
- `BlurViewPrepare.PrepareIdempotent`: proved of the corrected `prepare` from a healthy view only.
  As written, a clamped radius makes the next call reallocate
  (`BlurViewPrepare.ClampedFactorLostOnNextFrame`).
- `AndroidXBlurImpl.Prepare` and `AndroidXBlurImpl.PrepareAsWritten` accept any radius and succeed.
  `ScriptIntrinsicBlur.setRadius` throws for a radius outside 0 < r <= 25, the range noted at
  RealtimeBlurView.java:37. That exception is not modelled.
- `VanillaBlurImpl.SetRadius` accepts any radius, although RenderScript rejects one outside
  0 < r <= 25.
- `BlurViewPrepare.Prepare` and `BlurViewPrepare.PrepareAsWritten` push a non-positive scaled radius
  (a negative `mBlurRadius`) to the script without the exception RenderScript would throw.
- Destruction of handles (`destroy`, `recycle`) is not tracked. Only nulling is modelled. The
  AndroidX `prepare` and the vanilla `setupBitmap` overwrite live allocations without destroying
  them, and the model does not show that leak.
- `AndroidXBlurImpl.Blur` and `VanillaBlurImpl.Blur` require bitmaps of the allocations' size,
  because RenderScript throws on a mismatch.
- `BlurViewFrame.AfterPrepare`: when `prepare` returned true without a full set of handles, the
  model throws `NullPointerException` before erasing. The code reaches this only as written
  (second Finding), and it throws later, in `blur()`. By then the capture has been drawn and the
  flag and counter restored, so only the contents of the capture bitmap and of the input
  allocation (`copyFrom` at line 189) differ.
- `BlurViewFrame.OnPreDraw`: it runs the corrected `prepare`. With the code's `prepare` the hook
  is `BlurViewFrame.OnPreDrawAsWritten`. For that hook the count balance is proved, but health
  and the absence of null dereferences are not, because they fail (second Finding).
- `BlurViewLifecycle.StepKeepsHealthy`: proved for the corrected `prepare` only. As written, a
  step can dereference null (`BlurViewLifecycle.HalfCreatedScriptCrashesRun`).
- `BlurViewLifecycle.RunKeepsHealthy`: proved for the corrected `prepare` only. For the code, only
  the count balance is proved (`BlurViewLifecycle.RunAsWrittenBalancesCount`), and a run can end
  in a null dereference.
- `BlurViewPrepare.AcquireScript`: the corrected acquisition. It releases the
  context that lines 131-148 keep after a release-build failure. The code's acquisition is
  `BlurViewPrepare.AcquireScriptAsWritten`.
- `BlurViewPrepare.EndToEndScenarios`: proves the second call stable for radius
  200 only for the corrected `prepare`. As written, that call reallocates
  (`BlurViewPrepare.ClampedFactorLostOnNextFrame`).
- Exceptions other than the stop signal, thrown by views during the capture's decor draw, are not
  modelled.
