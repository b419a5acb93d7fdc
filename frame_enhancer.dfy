/** Frame enhancement before pose detection (app/services/frame_enhancer.py):
    an optional centre crop resized back to the full frame, an optional
    CLAHE contrast pass and an optional unsharp mask, always in that order.
    The kernels are symbolic (see OpenCv); what is modelled is which stages
    run, with which parameters, the integer arithmetic of the crop box, and
    the lazily created CLAHE object. */
module FrameEnhancement {
  import opened PyBuiltins
  import opened OpenCv

  datatype EnhancementConfig = EnhancementConfig(
    enableZoom: bool,
    zoomCropRatio: real,
    enableSharpen: bool,
    sharpenKernelSize: int,
    sharpenSigma: real,
    sharpenStrength: real,
    enableContrast: bool,
    claheClipLimit: real,
    claheTileGridSize: int)

  /** `EnhancementConfig()` */
  const DEFAULT_CONFIG := EnhancementConfig(
    enableZoom := true,
    zoomCropRatio := 0.6,
    enableSharpen := true,
    sharpenKernelSize := 5,
    sharpenSigma := 1.0,
    sharpenStrength := 1.5,
    enableContrast := false,
    claheClipLimit := 2.0,
    claheTileGridSize := 8)

  /** The object `cv2.createCLAHE` returns: its two parameters. */
  datatype ClaheParams = ClaheParams(clipLimit: real, tileGridSize: int)

  function ClaheOf(config: EnhancementConfig): ClaheParams
  {
    ClaheParams(config.claheClipLimit, config.claheTileGridSize)
  }

  /** The OpenCV errors `enhance` can raise: `cv2.resize` refuses the empty
      source an over-small crop leaves, and `cv2.GaussianBlur` refuses a
      kernel size it cannot use. */
  datatype EnhanceError =
    | EmptyCrop(cropH: int, cropW: int)
    | BadBlurKernel(ksize: int, sigma: real)

  /** `cv2.GaussianBlur(image, (k, k), sigma)` takes a positive odd `k`; for
      a `k` that is not positive it derives the size from `sigma`, which must
      then be positive. It raises on anything else: an even positive size,
      as the configuration warns, or a size that is not positive with a
      `sigma` that is not positive either. */
  predicate BlurKernelValid(ksize: int, sigma: real)
  {
    (ksize > 0 && ksize % 2 == 1) || (ksize <= 0 && sigma > 0.0)
  }

  /** The crop box of `_apply_zoom`: height, width and top-left corner.
      `int()` truncates toward zero; `//` by 2 floors, as Dafny's `/` does
      for a positive divisor. */
  datatype CropBox = CropBox(cropH: int, cropW: int, y0: int, x0: int)

  function ZoomBox(h: int, w: int, ratio: real): CropBox
  {
    var cropH := Trunc(h as real * ratio);
    var cropW := Trunc(w as real * ratio);
    CropBox(cropH, cropW, (h - cropH) / 2, (w - cropW) / 2)
  }

  /** `_apply_zoom` */
  function Zoom(image: Image, ratio: real): Result<Image, EnhanceError>
  {
    if ratio >= 1.0 then Ok(image)
    else
      var h, w := Height(image), Width(image);
      var b := ZoomBox(h, w, ratio);
      if b.cropH <= 0 || b.cropW <= 0 then Err(EmptyCrop(b.cropH, b.cropW))
      else Ok(Resize(Crop(image, b.y0, b.x0, b.cropH, b.cropW), h, w))
  }

  /** `_apply_sharpen`: Gaussian blur, then `addWeighted(image, a, blurred, 1 - a, 0)`. */
  function Sharpen(image: Image, config: EnhancementConfig): Result<Image, EnhanceError>
  {
    if !BlurKernelValid(config.sharpenKernelSize, config.sharpenSigma) then
      Err(BadBlurKernel(config.sharpenKernelSize, config.sharpenSigma))
    else
      Ok(UnsharpMask(image, config.sharpenKernelSize, config.sharpenSigma, config.sharpenStrength))
  }

  /** `_apply_clahe` with the CLAHE object `c`. */
  function Contrast(image: Image, c: ClaheParams): Image
  {
    Clahe(image, c.clipLimit, c.tileGridSize)
  }

  /** The frame after the zoom stage of `enhance`. */
  function Zoomed(config: EnhancementConfig, image: Image): Result<Image, EnhanceError>
  {
    if config.enableZoom then Zoom(image, config.zoomCropRatio) else Ok(image)
  }

  /** What `enhance` returns: zoom, then contrast, then sharpen, each only
      when enabled. */
  function Enhanced(config: EnhancementConfig, image: Image): Result<Image, EnhanceError>
  {
    match Zoomed(config, image)
    case Err(e) => Err(e)
    case Ok(z) =>
      var contrasted := if config.enableContrast then Contrast(z, ClaheOf(config)) else z;
      if config.enableSharpen then Sharpen(contrasted, config) else Ok(contrasted)
  }

  class FrameEnhancer {
    const config: EnhancementConfig
    var clahe: Option<ClaheParams>
    /** How many times `cv2.createCLAHE` has run for this enhancer. */
    ghost var clahesCreated: nat

    /** The CLAHE object, once created, is built from the configuration and
        created only once. */
    ghost predicate Valid()
      reads this
    {
      && (clahe.None? <==> clahesCreated == 0)
      && clahesCreated <= 1
      && (clahe.Some? ==> clahe.value == ClaheOf(config))
    }

    /** `FrameEnhancer(config)`: `config or EnhancementConfig()`. */
    constructor (config: Option<EnhancementConfig>)
      ensures this.config == if config.Some? then config.value else DEFAULT_CONFIG
      ensures clahe == None && clahesCreated == 0
      ensures Valid()
    {
      this.config := if config.Some? then config.value else DEFAULT_CONFIG;
      clahe := None;
      clahesCreated := 0;
    }

    method ApplyClahe(image: Image) returns (result: Image)
      requires Valid()
      modifies this
      ensures Valid()
      ensures result == Contrast(image, ClaheOf(config))
      ensures clahe == Some(ClaheOf(config))
      ensures old(clahe).Some? ==> clahesCreated == old(clahesCreated)
    {
      if clahe == None {
        clahe := Some(ClaheParams(config.claheClipLimit, config.claheTileGridSize));
        clahesCreated := clahesCreated + 1;
      }
      result := Clahe(image, clahe.value.clipLimit, clahe.value.tileGridSize);
    }

    /** `enhance`: the result is `Enhanced(config, image)`; the CLAHE object
        is created on the first contrast pass and reused afterwards, and a
        contrast pass runs whenever the zoom succeeds. */
    method Enhance(image: Image) returns (result: Result<Image, EnhanceError>)
      requires Valid()
      modifies this
      ensures Valid()
      ensures result == Enhanced(config, image)
      ensures clahe == if config.enableContrast && Zoomed(config, image).Ok? then Some(ClaheOf(config)) else old(clahe)
    {
      var current := image;
      if config.enableZoom {
        var zoomed := Zoom(current, config.zoomCropRatio);
        if zoomed.Err? {
          return Err(zoomed.error);
        }
        current := zoomed.value;
      }
      if config.enableContrast {
        current := ApplyClahe(current);
      }
      if config.enableSharpen {
        var sharpened := Sharpen(current, config);
        if sharpened.Err? {
          return Err(sharpened.error);
        }
        current := sharpened.value;
      }
      result := Ok(current);
    }
  }

  // ---------------------------------------------------------------------------
  // Properties
  // ---------------------------------------------------------------------------

  /** With every stage disabled the frame passes through unchanged. */
  lemma AllDisabledIsIdentity(config: EnhancementConfig, image: Image)
    requires !config.enableZoom && !config.enableContrast && !config.enableSharpen
    ensures Enhanced(config, image) == Ok(image)
  {
  }

  /** A ratio of 1 or more leaves the frame as it is. */
  lemma ZoomRatioOneIsIdentity(image: Image, ratio: real)
    requires ratio >= 1.0
    ensures Zoom(image, ratio) == Ok(image)
  {
  }

  /** For a ratio in [0, 1) the crop box lies inside the image and is centred:
      the margins above and below (left and right) differ by at most one
      pixel, the odd pixel going below (right). */
  lemma ZoomBoxInside(h: nat, w: nat, ratio: real)
    requires 0.0 <= ratio < 1.0
    ensures var b := ZoomBox(h, w, ratio);
      && 0 <= b.cropH <= h && 0 <= b.cropW <= w
      && (h > 0 ==> b.cropH < h) && (w > 0 ==> b.cropW < w)
      && 0 <= b.y0 && b.y0 + b.cropH <= h
      && 0 <= b.x0 && b.x0 + b.cropW <= w
      && 0 <= (h - b.y0 - b.cropH) - b.y0 <= 1
      && 0 <= (w - b.x0 - b.cropW) - b.x0 <= 1
  {
    var b := ZoomBox(h, w, ratio);
    ScaledBelow(h, ratio);
    ScaledBelow(w, ratio);
  }

  lemma ScaledBelow(n: nat, ratio: real)
    requires 0.0 <= ratio < 1.0
    ensures 0.0 <= n as real * ratio
    ensures 0 <= Trunc(n as real * ratio) <= n
    ensures n > 0 ==> Trunc(n as real * ratio) < n
  {
    var x := n as real * ratio;
    assert 0.0 <= x;
    if n > 0 {
      assert x < n as real;
    } else {
      assert x == 0.0;
    }
  }

  /** A crop ratio too small to keep one row or one column of an h×w frame. */
  predicate TooSmallToCrop(h: int, w: int, ratio: real)
  {
    h as real * ratio < 1.0 || w as real * ratio < 1.0
  }

  /** The zoom fails exactly when the box is empty; for a ratio in [0, 1)
      that is when the ratio is too small for one row or one column. */
  lemma ZoomFailsOnlyOnEmptyCrop(image: Image, ratio: real)
    requires 0.0 <= ratio < 1.0 && Height(image) >= 0 && Width(image) >= 0
    ensures Zoom(image, ratio).Err? <==> TooSmallToCrop(Height(image), Width(image), ratio)
  {
    var h, w := Height(image), Width(image);
    var b := ZoomBox(h, w, ratio);
    var empty := b.cropH <= 0 || b.cropW <= 0;
    assert Zoom(image, ratio).Err? <==> empty by { ZoomErrIffEmptyBox(image, ratio); }
    assert empty <==> TooSmallToCrop(h, w, ratio) by { EmptyBoxExactly(h, w, ratio); }
  }

  lemma ZoomErrIffEmptyBox(image: Image, ratio: real)
    requires ratio < 1.0
    ensures var b := ZoomBox(Height(image), Width(image), ratio);
      Zoom(image, ratio).Err? <==> b.cropH <= 0 || b.cropW <= 0
  {
  }

  lemma EmptyBoxExactly(h: nat, w: nat, ratio: real)
    requires 0.0 <= ratio < 1.0
    ensures var b := ZoomBox(h, w, ratio);
      (b.cropH <= 0 || b.cropW <= 0) <==> TooSmallToCrop(h, w, ratio)
  {
    var x, y := h as real * ratio, w as real * ratio;
    ScaledBelow(h, ratio);
    ScaledBelow(w, ratio);
    TruncPositive(x);
    TruncPositive(y);
  }

  lemma TruncPositive(x: real)
    requires x >= 0.0
    ensures Trunc(x) > 0 <==> x >= 1.0
  {
  }

  /** `enhance` raises exactly when the zoom leaves an empty crop, or when
      the sharpen stage runs with a kernel `cv2.GaussianBlur` refuses; the
      zoom's error comes first. */
  lemma EnhanceFails(config: EnhancementConfig, image: Image)
    ensures Enhanced(config, image).Err? <==>
      Zoomed(config, image).Err? ||
      (config.enableSharpen && !BlurKernelValid(config.sharpenKernelSize, config.sharpenSigma))
    ensures Zoomed(config, image).Err? ==> Enhanced(config, image) == Zoomed(config, image)
    ensures Zoomed(config, image).Ok? && Enhanced(config, image).Err? ==>
      Enhanced(config, image).error == BadBlurKernel(config.sharpenKernelSize, config.sharpenSigma)
    ensures Zoomed(config, image).Err? ==> Zoomed(config, image).error.EmptyCrop?
  {
  }

  /** Every stage keeps the frame's height and width, so `enhance` does too. */
  lemma EnhancePreservesSize(config: EnhancementConfig, image: Image)
    requires Enhanced(config, image).Ok?
    ensures Height(Enhanced(config, image).value) == Height(image)
    ensures Width(Enhanced(config, image).value) == Width(image)
  {
    if config.enableZoom && config.zoomCropRatio < 1.0 {
      var z := Zoom(image, config.zoomCropRatio);
      assert z.Ok?;
      assert Height(z.value) == Height(image) && Width(z.value) == Width(image);
    }
  }

  /** With the defaults, a 100×200 frame is cropped to its central 60×120
      box at (20, 40) and resized back; the unsharp mask runs, CLAHE does not. */
  lemma DefaultEnhancement(path: string)
    ensures Enhanced(DEFAULT_CONFIG, Frame(path, 0, 100, 200)) ==
      Ok(UnsharpMask(Resize(Crop(Frame(path, 0, 100, 200), 20, 40, 60, 120), 100, 200), 5, 1.0, 1.5))
  {
    assert Trunc(100.0 * 0.6) == 60;
    assert Trunc(200.0 * 0.6) == 120;
  }
}
