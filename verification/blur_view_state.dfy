/**
 The fields of `RealtimeBlurView`, its configuration setters and its three
 release operations. Every nullable field is an `Option` token; the class's two
 static fields (the live-capture counter and the memoised debug flag) live in
 `Statics`, shared by all instances.
 */
module BlurViewState {
  import opened Platform

  /** A canvas over the capture bitmap; only the size of its target is observed. */
  datatype Canvas = Canvas(width: int, height: int)

  datatype View = View(
    downsampleFactor: real,
    overlayColor: int,
    blurRadius: real,
    dirty: bool,
    bitmapToBlur: Option<Bitmap>,
    blurredBitmap: Option<Bitmap>,
    blurringCanvas: Option<Canvas>,
    renderScript: Option<RenderScript>,
    blurScript: Option<BlurScript>,
    blurInput: Option<Allocation>,
    blurOutput: Option<Allocation>,
    isRendering: bool)

  /** `RENDERING_COUNT` and `DEBUG`, the class's static state. */
  datatype Statics = Statics(renderingCount: int, debug: Option<bool>)

  /** The constructor: the configuration read from the layout attributes, every
      handle null, not dirty, not rendering. */
  function Inflate(blurRadius: real, downsampleFactor: real, overlayColor: int): (v: View)
    ensures NoBitmaps(v) && NoScript(v) && v.blurringCanvas.None? && !v.dirty && !v.isRendering
    ensures v.blurRadius == blurRadius && v.downsampleFactor == downsampleFactor && v.overlayColor == overlayColor
  {
    View(downsampleFactor, overlayColor, blurRadius, false, None, None, None, None, None, None, None, false)
  }

  predicate NoBitmaps(v: View) {
    v.bitmapToBlur.None? && v.blurredBitmap.None? && v.blurInput.None? && v.blurOutput.None?
  }

  predicate NoScript(v: View) {
    v.renderScript.None? && v.blurScript.None?
  }

  /** Both bitmaps, the canvas and both allocations are live, all of one size. */
  predicate BuffersLive(v: View) {
    && v.bitmapToBlur.Some? && v.blurredBitmap.Some? && v.blurringCanvas.Some?
    && v.blurInput.Some? && v.blurOutput.Some?
    && SameSize(v, v.bitmapToBlur.value.width, v.bitmapToBlur.value.height)
  }

  /** Every handle a capture-and-blur frame uses is live. */
  predicate Ready(v: View) {
    BuffersLive(v) && v.renderScript.Some? && v.blurScript.Some?
  }

  predicate SameSize(v: View, w: int, h: int)
    requires v.bitmapToBlur.Some? && v.blurredBitmap.Some? && v.blurringCanvas.Some?
    requires v.blurInput.Some? && v.blurOutput.Some?
  {
    && v.bitmapToBlur.value.width == w && v.bitmapToBlur.value.height == h
    && v.blurredBitmap.value.width == w && v.blurredBitmap.value.height == h
    && v.blurringCanvas.value.width == w && v.blurringCanvas.value.height == h
    && v.blurInput.value.width == w && v.blurInput.value.height == h
    && v.blurOutput.value.width == w && v.blurOutput.value.height == h
  }

  /** The resource invariant: the script handles are created and released as a pair,
      and a blurred bitmap or an allocation exists only as part of a ready set. The
      capture bitmap and the canvas may outlive the set. */
  predicate Consistent(v: View) {
    && (v.renderScript.Some? <==> v.blurScript.Some?)
    && (v.blurredBitmap.Some? || v.blurInput.Some? || v.blurOutput.Some? ==> Ready(v))
  }

  /** The context and script handles are equal. */
  predicate SameScript(a: View, b: View) {
    a.renderScript == b.renderScript && a.blurScript == b.blurScript
  }

  predicate SameBitmaps(a: View, b: View) {
    && a.bitmapToBlur == b.bitmapToBlur && a.blurredBitmap == b.blurredBitmap
    && a.blurringCanvas == b.blurringCanvas && a.blurInput == b.blurInput && a.blurOutput == b.blurOutput
  }

  predicate SameConfig(a: View, b: View) {
    a.downsampleFactor == b.downsampleFactor && a.overlayColor == b.overlayColor && a.blurRadius == b.blurRadius
  }

  /** `setBlurRadius(radius)`: a new value is stored and marks the view dirty; the
      current value changes nothing. */
  function SetBlurRadius(v: View, radius: real): (r: View)
    ensures r.blurRadius == radius
    ensures r.dirty <==> v.dirty || radius != v.blurRadius
    ensures radius == v.blurRadius ==> r == v
    ensures r.downsampleFactor == v.downsampleFactor && r.overlayColor == v.overlayColor
    ensures SameScript(r, v) && SameBitmaps(r, v) && r.isRendering == v.isRendering
  {
    if v.blurRadius != radius then v.(blurRadius := radius, dirty := true) else v
  }

  /** `setDownsampleFactor(factor)`: a non-positive factor is rejected with the
      view untouched; a new positive factor marks the view dirty and releases the
      bitmap set, keeping the script. */
  function SetDownsampleFactor(v: View, factor: real): (r: Result)
    ensures factor <= 0.0 <==> r.Rejected?
    ensures r.Rejected? ==> r.error == IllegalArgumentException("Downsample factor must be greater than 0.")
    ensures factor > 0.0 && factor == v.downsampleFactor ==> r == Accepted(v)
    ensures factor > 0.0 && factor != v.downsampleFactor ==>
      && r.Accepted? && r.view.downsampleFactor == factor && r.view.dirty
      && NoBitmaps(r.view) && SameScript(r.view, v)
      && r.view.blurRadius == v.blurRadius && r.view.overlayColor == v.overlayColor
  {
    if factor <= 0.0 then Rejected(IllegalArgumentException("Downsample factor must be greater than 0."))
    else if v.downsampleFactor != factor then Accepted(ReleaseBitmap(v.(downsampleFactor := factor, dirty := true)))
    else Accepted(v)
  }

  datatype Result = Accepted(view: View) | Rejected(error: Exception)

  /** `setOverlayColor(color)`: only the colour changes; dirtiness and buffers are
      untouched. */
  function SetOverlayColor(v: View, color: int): (r: View)
    ensures r.overlayColor == color
    ensures r.dirty == v.dirty && SameBitmaps(r, v) && SameScript(r, v)
    ensures r.blurRadius == v.blurRadius && r.downsampleFactor == v.downsampleFactor && r.isRendering == v.isRendering
  {
    if v.overlayColor != color then v.(overlayColor := color) else v
  }

  /** `releaseBitmap()`: nulls both allocations and both bitmaps. The canvas is not
      one of the fields it touches and survives. */
  function ReleaseBitmap(v: View): (r: View)
    ensures NoBitmaps(r)
    ensures r.blurringCanvas == v.blurringCanvas && SameScript(r, v) && SameConfig(r, v)
    ensures r.dirty == v.dirty && r.isRendering == v.isRendering
    ensures NoBitmaps(v) ==> r == v
  {
    v.(blurInput := None, blurOutput := None, bitmapToBlur := None, blurredBitmap := None)
  }

  /** `releaseScript()`: nulls the context and the script, nothing else. */
  function ReleaseScript(v: View): (r: View)
    ensures NoScript(r)
    ensures SameBitmaps(r, v) && SameConfig(r, v) && r.dirty == v.dirty && r.isRendering == v.isRendering
    ensures NoScript(v) ==> r == v
  {
    v.(renderScript := None, blurScript := None)
  }

  /** `release()`: both of the above. */
  function Release(v: View): (r: View)
    ensures NoBitmaps(r) && NoScript(r)
    ensures r.blurringCanvas == v.blurringCanvas && SameConfig(r, v) && r.dirty == v.dirty
    ensures NoBitmaps(v) && NoScript(v) ==> r == v
  {
    ReleaseScript(ReleaseBitmap(v))
  }

  /** Every setter, `releaseBitmap` and `release` keep the resource invariant;
      `releaseScript` keeps it only once the bitmap set is gone, which is how
      `release` calls it (the class calls it nowhere else). */
  lemma SettersKeepConsistent(v: View, radius: real, factor: real, color: int)
    requires Consistent(v)
    ensures Consistent(SetBlurRadius(v, radius))
    ensures SetDownsampleFactor(v, factor).Accepted? ==> Consistent(SetDownsampleFactor(v, factor).view)
    ensures Consistent(SetOverlayColor(v, color))
    ensures Consistent(ReleaseBitmap(v))
    ensures NoBitmaps(v) ==> Consistent(ReleaseScript(v))
    ensures Consistent(Release(v))
  {
  }

  /** `releaseScript` on its own breaks the invariant of a view with a ready set:
      the allocations would outlive their context. */
  lemma ReleaseScriptAloneBreaksReady(v: View)
    requires Ready(v)
    ensures !Consistent(ReleaseScript(v)) && Consistent(ReleaseScript(ReleaseBitmap(v)))
  {
  }
}
