/**
 * `HighResolutionWireframeProcessor`: line and mesh thickness scaled to the
 * canvas size, scaling factors clamped from the target resolution, the
 * multi-scale outline (per-scale thresholds, a weighted blend, recolouring),
 * the upscale decision and the preset table over five output resolutions.
 *
 * The square root of the pixel-count ratio is taken as a given factor whose
 * square is that ratio. Lanczos resizing, closing and median blur are fields
 * of a `HiresLibrary` record, given per pixel like the other primitives.
 */
module HighResolution {
  import opened Common
  import opened Landmarks
  import opened Wireframe

  /** `HighResolutionConfig`: the base configuration plus the high-resolution knobs. */
  datatype HighResolutionConfig = HighResolutionConfig(
    base: WireframeConfig,
    targetResolution: (int, int),
    maxResolution: (int, int),
    enableSuperResolution: bool,
    vectorConstructionLines: bool,
    lineThicknessScaling: real,
    meshDensityScaling: real,
    dexinedUpscaleFactor: int,
    enableEdgeEnhancement: bool,
    tileProcessing: bool,
    tileSize: (int, int),
    tileOverlap: int)

  /** The high-resolution defaults around a base configuration. */
  function WithDefaults(base: WireframeConfig): HighResolutionConfig
  {
    HighResolutionConfig(base, (3840, 2160), (7680, 4320), true, true, 1.0, 1.0, 2, true, false, (2048, 2048), 256)
  }

  datatype HiresLibrary = HiresLibrary(
    resizeEdgeMap: (EdgeMap, nat, nat, nat) -> real,
    resizeImage: (RgbImage, nat, nat, nat) -> Rgb,
    closeEllipse3: (GrayImage, nat) -> Byte,
    medianBlur3: (GrayImage, nat) -> Byte)

  // ---------------------------------------------------------------------------
  // Thickness scaling

  /** The line thickness at 1080 pixels on the longer side. */
  const BaseResolution := 1080

  /** `max(1, int(base * (max(h, w) / 1080) * scaling))` */
  function ScaledThickness(baseThickness: int, height: nat, width: nat, scaling: real): (t: int)
    ensures t >= 1
  {
    Thickness(LineScale(baseThickness, Max(height, width), scaling))
  }

  /** `base * (n / 1080) * scaling` for a longer side of `n` pixels. */
  function LineScale(baseThickness: int, longerSide: nat, scaling: real): real
  {
    baseThickness as real * (longerSide as real / 1080.0) * scaling
  }

  /** `max(1, int(x))`: a scaled thickness truncated, and at least one pixel. */
  function Thickness(x: real): (t: int)
    ensures t >= 1
  {
    Max(1, Trunc(x))
  }

  lemma ThicknessGrows(x: real, y: real)
    requires x <= y
    ensures Thickness(x) <= Thickness(y)
  {
    TruncMonotone(x, y);
  }

  /** At 1080 pixels with unit scaling the configured thickness is used as is. */
  lemma ThicknessAtBaseResolution(baseThickness: int, height: nat, width: nat)
    requires Max(height, width) == BaseResolution && baseThickness >= 1
    ensures ScaledThickness(baseThickness, height, width, 1.0) == baseThickness
  {
    TruncOfInt(baseThickness);
  }

  /** A larger canvas never gets thinner lines. */
  lemma ThicknessMonotone(baseThickness: int, height: nat, width: nat, height': nat, width': nat, scaling: real)
    requires baseThickness >= 0 && scaling >= 0.0
    requires Max(height, width) <= Max(height', width')
    ensures ScaledThickness(baseThickness, height, width, scaling) <= ScaledThickness(baseThickness, height', width', scaling)
  {
    var n, n' := Max(height, width), Max(height', width');
    LineScaleMonotone(baseThickness, n, n', scaling);
    ThicknessGrows(LineScale(baseThickness, n, scaling), LineScale(baseThickness, n', scaling));
  }

  lemma LineScaleMonotone(baseThickness: int, n: nat, n': nat, scaling: real)
    requires baseThickness >= 0 && scaling >= 0.0 && n <= n'
    ensures LineScale(baseThickness, n, scaling) <= LineScale(baseThickness, n', scaling)
  {
    ScaledProductMonotone(baseThickness as real, n as real, n' as real, scaling,
                          LineScale(baseThickness, n, scaling), LineScale(baseThickness, n', scaling));
  }

  /** `b * (m / 1080) * s` grows with `m` when `b` and `s` are not negative. */
  lemma ScaledProductMonotone(b: real, m: real, m': real, s: real, x: real, x': real)
    requires b >= 0.0 && s >= 0.0 && m <= m'
    requires x == b * (m / 1080.0) * s && x' == b * (m' / 1080.0) * s
    ensures x <= x'
  {
    var f, f' := m / 1080.0, m' / 1080.0;
    assert f <= f';
    NonNegProduct(b, f' - f);
    assert b * f <= b * f';
    NonNegProduct(b * f' - b * f, s);
  }

  // ---------------------------------------------------------------------------
  // Construction lines and mesh at high resolution

  function HiresLineConfig(config: HighResolutionConfig, height: nat, width: nat): WireframeConfig
  {
    config.base.(constructionLineThickness :=
      ScaledThickness(config.base.constructionLineThickness, height, width, config.lineThicknessScaling))
  }

  function HiresMeshConfig(config: HighResolutionConfig, height: nat, width: nat): WireframeConfig
  {
    config.base.(meshThickness := ScaledThickness(config.base.meshThickness, height, width, config.meshDensityScaling))
  }

  /**
   * `draw_smooth_line`: nothing below two points; otherwise the same
   * anti-aliased segments are drawn whether vector mode is on or off.
   */
  method DrawSmoothLine(raster: Raster, image: RgbImage, points: seq<Point>, color: Rgb, thickness: int, vectorMode: bool)
    returns (annotated: RgbImage)
    ensures annotated == PaintAll(raster, image, PolylineStrokes(points, color, thickness, LineAA))
  {
    if |points| < 2 {
      return image;
    }
    if vectorMode && |points| > 2 {
      annotated := DrawPolyline(raster, image, points, color, thickness, LineAA);
    } else {
      annotated := DrawPolyline(raster, image, points, color, thickness, LineAA);
    }
  }

  /** One table entry drawn with `draw_smooth_line` onto a canvas that already holds the strokes `done`. */
  method DrawSmoothGuideLine(raster: Raster, image: RgbImage, annotated: RgbImage, ghost done: seq<Stroke>,
                             line: GuideLine, landmarks: seq<Landmark>, width: nat, height: nat,
                             lineConfig: WireframeConfig, vectorMode: bool)
    returns (next: RgbImage)
    requires annotated == PaintAll(raster, image, done)
    ensures next == PaintAll(raster, image, done + GuideStrokes(line, landmarks, width, height, lineConfig, LineAA))
  {
    var points := CollectPoints(line.indices, landmarks, width, height);
    var color := RoleColor(lineConfig.constructionLineColors, line.role);
    next := DrawSmoothLine(raster, annotated, points, color, lineConfig.constructionLineThickness, vectorMode);
    PaintAllAppend(raster, image, done, GuideStrokes(line, landmarks, width, height, lineConfig, LineAA));
  }

  /** The high-resolution `draw_construction_lines`: the base table with a scaled thickness, anti-aliased. */
  method DrawConstructionLinesHires(raster: Raster, image: RgbImage, landmarks: seq<Landmark>, config: HighResolutionConfig)
    returns (annotated: RgbImage)
    requires image.Valid()
    ensures annotated == PaintAll(raster, image,
      ConstructionStrokes(landmarks, image.width, image.height, HiresLineConfig(config, image.height, image.width), LineAA))
  {
    var width, height := image.width, image.height;
    var lineConfig := HiresLineConfig(config, height, width);
    if landmarks == [] {
      NoLandmarksNoStrokes(width, height, lineConfig, LineAA, |ConstructionTable|);
      return image;
    }
    annotated := image;
    ghost var done: seq<Stroke> := [];
    var g := 0;
    while g < |ConstructionTable|
      invariant 0 <= g <= |ConstructionTable|
      invariant done == ConstructionStrokesUpTo(landmarks, width, height, lineConfig, LineAA, g)
      invariant annotated == PaintAll(raster, image, done)
    {
      annotated := DrawSmoothGuideLine(raster, image, annotated, done, ConstructionTable[g], landmarks, width, height,
                                       lineConfig, config.vectorConstructionLines);
      done := done + GuideStrokes(ConstructionTable[g], landmarks, width, height, lineConfig, LineAA);
      g := g + 1;
    }
  }

  /** The high-resolution `draw_face_mesh`: the base passes with the scaled mesh thickness. */
  method DrawFaceMeshHires(raster: Raster, image: RgbImage, faces: seq<seq<Landmark>>, config: HighResolutionConfig)
    returns (annotated: RgbImage)
    requires image.Valid()
    ensures annotated == PaintAll(raster, image, MeshStrokes(faces, HiresMeshConfig(config, image.height, image.width)))
  {
    annotated := DrawFaceMesh(raster, image, faces, HiresMeshConfig(config, image.height, image.width));
  }

  /**
   * On a 1080-pixel canvas with unit scaling the high-resolution line
   * configuration is the base configuration: the construction lines keep the
   * base thickness and colours, and differ from the base lines only in being
   * anti-aliased.
   */
  lemma HiresLinesAtBaseResolution(config: HighResolutionConfig, height: nat, width: nat)
    requires Max(height, width) == BaseResolution && config.lineThicknessScaling == 1.0
    requires config.base.constructionLineThickness >= 1
    ensures HiresLineConfig(config, height, width) == config.base
  {
    ThicknessAtBaseResolution(config.base.constructionLineThickness, height, width);
  }

  // ---------------------------------------------------------------------------
  // Scaling factors

  /** The HD pixel count the resolution factor is relative to. */
  const HdPixels := 1920 * 1080

  /** `factor == sqrt(target_width * target_height / (1920 * 1080))` */
  predicate IsResolutionFactor(target: (int, int), factor: real)
  {
    factor >= 0.0 && factor * factor * HdPixels as real == (target.0 * target.1) as real
  }

  function LineScaling(factor: real): (s: real)
    ensures 0.5 <= s <= 3.0
    ensures 0.5 <= factor <= 3.0 ==> s == factor
  {
    MinR(3.0, MaxR(0.5, factor))
  }

  function MeshScaling(factor: real): (s: real)
    ensures 0.5 <= s <= 2.0
    ensures 0.5 <= 0.8 * factor <= 2.0 ==> s == 0.8 * factor
  {
    MinR(2.0, MaxR(0.5, factor * 0.8))
  }

  lemma SquareRootUnique(x: real, y: real)
    requires x >= 0.0 && y >= 0.0 && x * x == y * y
    ensures x == y
  {
    assert (x - y) * (x + y) == 0.0;
    if x + y != 0.0 {
      ZeroProduct(x - y, x + y);
    }
  }

  /** 4K doubles line weight (mesh 1.6); 8K hits both upper clamps. */
  lemma ScalingForStandardTargets(factor: real)
    ensures IsResolutionFactor((1920, 1080), factor) ==> LineScaling(factor) == 1.0 && MeshScaling(factor) == 0.8
    ensures IsResolutionFactor((3840, 2160), factor) ==> LineScaling(factor) == 2.0 && MeshScaling(factor) == 1.6
    ensures IsResolutionFactor((7680, 4320), factor) ==> LineScaling(factor) == 3.0 && MeshScaling(factor) == 2.0
  {
    if IsResolutionFactor((1920, 1080), factor) {
      SquareRootUnique(factor, 1.0);
    }
    if IsResolutionFactor((3840, 2160), factor) {
      SquareRootUnique(factor, 2.0);
    }
    if IsResolutionFactor((7680, 4320), factor) {
      SquareRootUnique(factor, 4.0);
    }
  }

  /** The processor: its configuration is rescaled in place when it is built. */
  class HighResolutionProcessor {
    var config: HighResolutionConfig
    var hasOutlineGenerator: bool

    /** `__init__`: keep the configuration, create the outline generator if configured, then rescale. */
    constructor (config0: HighResolutionConfig, resolutionFactor: real)
      requires IsResolutionFactor(config0.targetResolution, resolutionFactor)
      ensures config == config0.(lineThicknessScaling := LineScaling(resolutionFactor),
                                 meshDensityScaling := MeshScaling(resolutionFactor))
      ensures hasOutlineGenerator <==> OutlineEnabled(config0.base)
    {
      config := config0;
      hasOutlineGenerator := config0.base.enableDexinedOutline && config0.base.dexinedModelPath != "";
      new;
      CalculateScalingFactors(resolutionFactor);
    }

    /** `_calculate_scaling_factors`: clamp the resolution factor into both scalings. */
    method CalculateScalingFactors(resolutionFactor: real)
      requires IsResolutionFactor(config.targetResolution, resolutionFactor)
      modifies this
      ensures config == old(config).(lineThicknessScaling := LineScaling(resolutionFactor),
                                     meshDensityScaling := MeshScaling(resolutionFactor))
      ensures hasOutlineGenerator == old(hasOutlineGenerator)
    {
      config := config.(lineThicknessScaling := MinR(3.0, MaxR(0.5, resolutionFactor)),
                        meshDensityScaling := MinR(2.0, MaxR(0.5, resolutionFactor * 0.8)));
    }
  }

  // ---------------------------------------------------------------------------
  // Multi-scale outline

  /** `[0.5, 1.0, 1.5]` with super-resolution, `[1.0]` without. */
  function Scales(superResolution: bool): (scales: seq<real>)
    ensures 1.0 in scales
    ensures forall s :: s in scales ==> 0.5 <= s <= 1.5
  {
    if superResolution then [0.5, 1.0, 1.5] else [1.0]
  }

  /** `threshold * (0.8 + 0.2 * scale)` */
  function ScaledThreshold(threshold: real, scale: real): real
  {
    threshold * (0.8 + 0.2 * scale)
  }

  /** The unit scale uses the configured threshold; smaller scales relax it, larger ones tighten it. */
  lemma ScaledThresholdProperties(threshold: real, scale: real, scale': real)
    requires threshold >= 0.0 && scale <= scale'
    ensures ScaledThreshold(threshold, 1.0) == threshold
    ensures ScaledThreshold(threshold, scale) <= ScaledThreshold(threshold, scale')
  {
    assert threshold * (0.2 * (scale' - scale)) >= 0.0;
  }

  /** A scaled copy can be made: the unit scale, or both scaled sides positive. */
  predicate ScaleFits(image: RgbImage, scale: real)
  {
    scale == 1.0 || (Trunc(image.height as real * scale) > 0 && Trunc(image.width as real * scale) > 0)
  }

  predicate AllScalesFit(image: RgbImage, scales: seq<real>)
  {
    forall s :: s in scales ==> ScaleFits(image, s)
  }

  function ScaledHeight(image: RgbImage, scale: real): nat
  {
    if scale == 1.0 then image.height else Max(0, Trunc(image.height as real * scale))
  }

  function ScaledWidth(image: RgbImage, scale: real): nat
  {
    if scale == 1.0 then image.width else Max(0, Trunc(image.width as real * scale))
  }

  /** `_postprocess_edges_hires` at the scaled size, then resized back to the image size. */
  function ScaleOutline(raster: Raster, lib: HiresLibrary, image: RgbImage, config: HighResolutionConfig,
                        edgeMap: EdgeMap, scale: real): (o: RgbImage)
    ensures o.Valid() && o.height == image.height && o.width == image.width
  {
    var h, w := ScaledHeight(image, scale), ScaledWidth(image, scale);
    var mask := ThresholdMask(raster.(resizeLinear := lib.resizeEdgeMap), edgeMap, h, w,
                              ScaledThreshold(config.base.dexinedThreshold, scale));
    var edges := Colourised(h, w, mask, config.base.dexinedColor);
    if scale == 1.0 then edges
    else Render(image.height, image.width, (k: nat) => lib.resizeImage(edges, image.width, image.height, k))
  }

  /** One scale of `generate_outline`'s loop. */
  method ScaleEdgeImage(raster: Raster, lib: HiresLibrary, image: RgbImage, config: HighResolutionConfig,
                        edgeMap: EdgeMap, scale: real)
    returns (edgeImage: RgbImage)
    ensures edgeImage == ScaleOutline(raster, lib, image, config, edgeMap, scale)
  {
    var h, w := ScaledHeight(image, scale), ScaledWidth(image, scale);
    edgeImage := PostprocessEdges(raster.(resizeLinear := lib.resizeEdgeMap), edgeMap, h, w,
                                  config.base.(dexinedThreshold := ScaledThreshold(config.base.dexinedThreshold, scale)));
    if scale != 1.0 {
      edgeImage := Render(image.height, image.width, (k: nat) => lib.resizeImage(edgeImage, image.width, image.height, k));
    }
  }

  /** `[0.3, 0.4, 0.3]`: at most three scales are blended. */
  const Weights: seq<real> := [0.3, 0.4, 0.3]

  /** `np.any(edges < 250, axis=2)` */
  predicate Marked(p: Rgb)
  {
    p.r < 250 || p.g < 250 || p.b < 250
  }

  lemma ConvexCombination(w: real, e: Byte, c: Byte)
    requires 0.0 <= w <= 1.0
    ensures 0.0 <= w * e as real + (1.0 - w) * c as real <= 255.0
  {
    var er, cr := e as real, c as real;
    NonNegProduct(w, er);
    NonNegProduct(1.0 - w, cr);
    NonNegProduct(w, 255.0 - er);
    NonNegProduct(1.0 - w, 255.0 - cr);
    assert 255.0 - (w * er + (1.0 - w) * cr) == w * (255.0 - er) + (1.0 - w) * (255.0 - cr);
  }

  /** `(alpha * edge + (1 - alpha) * combined).astype(np.uint8)` on one channel. */
  function BlendChannel(w: real, e: Byte, c: Byte): Byte
    requires 0.0 <= w <= 1.0
  {
    ConvexCombination(w, e, c);
    Trunc(w * e as real + (1.0 - w) * c as real)
  }

  function Blend(w: real, e: Rgb, c: Rgb): Rgb
    requires 0.0 <= w <= 1.0
  {
    Rgb(BlendChannel(w, e.r, c.r), BlendChannel(w, e.g, c.g), BlendChannel(w, e.b, c.b))
  }

  predicate SameShape(results: seq<RgbImage>)
  {
    |results| >= 1
    && forall i :: 0 <= i < |results| ==>
         results[i].Valid() && results[i].height == results[0].height && results[i].width == results[0].width
  }

  /** How many results `zip(edge_results, weights)` pairs with a weight. */
  function Used(results: seq<RgbImage>): nat
  {
    Min(|results|, |Weights|)
  }

  /** Pixel `k` of the blend after the first `i` results. */
  function CombinedPixel(results: seq<RgbImage>, k: nat, i: nat): Rgb
    requires SameShape(results) && i <= Used(results) && k < |results[0].px|
  {
    if i == 0 then White
    else
      var previous := CombinedPixel(results, k, i - 1);
      var e := results[i - 1].px[k];
      if Marked(e) then Blend(Weights[i - 1], e, previous) else previous
  }

  /** Every pixel blended over all weighted results. */
  function BlendAll(results: seq<RgbImage>): (c: RgbImage)
    requires SameShape(results)
    ensures c.Valid() && c.height == results[0].height && c.width == results[0].width
  {
    RgbImage(results[0].height, results[0].width,
             seq(|results[0].px|, k requires 0 <= k < |results[0].px| => CombinedPixel(results, k, Used(results))))
  }

  /** `_combine_multiscale_edges`: start white, blend each weighted result in where it is marked. */
  method CombineMultiscaleEdges(results: seq<RgbImage>) returns (combined: RgbImage)
    requires SameShape(results)
    ensures combined == BlendAll(results)
  {
    var n := |results[0].px|;
    var buffer := new Rgb[n](_ => White);
    var i := 0;
    while i < Min(|results|, |Weights|)
      invariant 0 <= i <= Used(results)
      invariant forall k :: 0 <= k < n ==> buffer[k] == CombinedPixel(results, k, i)
    {
      var edges := results[i];
      var alpha := Weights[i];
      var k := 0;
      while k < n
        invariant 0 <= k <= n
        invariant forall m :: 0 <= m < n ==>
          buffer[m] == (if m < k then CombinedPixel(results, m, i + 1) else CombinedPixel(results, m, i))
      {
        if Marked(edges.px[k]) {
          buffer[k] := Blend(alpha, edges.px[k], buffer[k]);
        }
        k := k + 1;
      }
      i := i + 1;
    }
    combined := RgbImage(results[0].height, results[0].width, buffer[..]);
    assert combined.px == BlendAll(results).px;
  }

  lemma BlendChannelBelowWhite(w: real, e: Byte, c: Byte)
    requires 0.0 < w < 1.0
    requires e < 250 || c < 255
    ensures BlendChannel(w, e, c) < 255
  {
    WeightedBelowWhite(w, e as real, c as real);
  }

  /** A proper mix of two values up to 255, one of them below it, is below 255. */
  lemma WeightedBelowWhite(w: real, a: real, b: real)
    requires 0.0 < w < 1.0 && 0.0 <= a <= 255.0 && 0.0 <= b <= 255.0
    requires a < 250.0 || b < 255.0
    ensures w * a + (1.0 - w) * b < 255.0
  {
    var v, da, db := 1.0 - w, 255.0 - a, 255.0 - b;
    NonNegProduct(w, da);
    NonNegProduct(v, db);
    if a < 250.0 {
      PosProduct(w, da);
    } else {
      PosProduct(v, db);
    }
    assert w * da + v * db > 0.0;
    assert w * da == 255.0 * w - w * a;
    assert v * db == 255.0 * v - v * b;
  }

  /**
   * A pixel of the blend stays pure white exactly when none of the blended
   * results marks it: once marked, some channel stays below 255.
   */
  lemma {:induction false} CombinedWhiteIffUnmarked(results: seq<RgbImage>, k: nat, i: nat)
    requires SameShape(results) && i <= Used(results) && k < |results[0].px|
    ensures CombinedPixel(results, k, i) == White <==> forall j :: 0 <= j < i ==> !Marked(results[j].px[k])
  {
    if i > 0 {
      CombinedWhiteIffUnmarked(results, k, i - 1);
      var previous := CombinedPixel(results, k, i - 1);
      var e := results[i - 1].px[k];
      if Marked(e) {
        var w := Weights[i - 1];
        if e.r < 250 || previous.r < 255 {
          BlendChannelBelowWhite(w, e.r, previous.r);
        } else if e.g < 250 || previous.g < 255 {
          BlendChannelBelowWhite(w, e.g, previous.g);
        } else {
          BlendChannelBelowWhite(w, e.b, previous.b);
        }
      } else if previous != White {
        var j :| 0 <= j < i - 1 && Marked(results[j].px[k]);
      }
    }
  }

  /** The grey image after closing and median blur, as `_enhance_edges` computes it. */
  function EnhanceMask(raster: Raster, lib: HiresLibrary, edgeImage: RgbImage): (mask: seq<bool>)
    ensures |mask| == edgeImage.height * edgeImage.width
  {
    var gray := Gray(raster, edgeImage);
    var n := edgeImage.height * edgeImage.width;
    var closed := GrayImage(gray.height, gray.width, seq<Byte>(n, (k: int) requires 0 <= k < n => lib.closeEllipse3(gray, k)));
    seq(n, (k: int) requires 0 <= k < n => lib.medianBlur3(closed, k) < 250)
  }

  /** `_enhance_edges`: the outline colour where the cleaned grey is below 250, white elsewhere. */
  method EnhanceEdges(raster: Raster, lib: HiresLibrary, edgeImage: RgbImage, config: HighResolutionConfig)
    returns (enhanced: RgbImage)
    ensures enhanced == Colourised(edgeImage.height, edgeImage.width, EnhanceMask(raster, lib, edgeImage),
                                   config.base.dexinedColor)
  {
    var n := edgeImage.height * edgeImage.width;
    var mask := EnhanceMask(raster, lib, edgeImage);
    var buffer := new Rgb[n](_ => White);
    var k := 0;
    while k < n
      invariant 0 <= k <= n
      invariant forall m :: 0 <= m < n ==> buffer[m] == (if m < k && mask[m] then config.base.dexinedColor else White)
    {
      if mask[k] {
        buffer[k] := config.base.dexinedColor;
      }
      k := k + 1;
    }
    enhanced := RgbImage(edgeImage.height, edgeImage.width, buffer[..]);
  }

  /** What the outline network did: no model, an exception, or one edge map per scale. */
  datatype HiresOutlineSource = NoModel | Raised | EdgeMaps(forScale: real -> EdgeMap)

  function ScaleOutlines(raster: Raster, lib: HiresLibrary, image: RgbImage, config: HighResolutionConfig,
                         edgeMaps: real -> EdgeMap, scales: seq<real>): (results: seq<RgbImage>)
    ensures |results| == |scales|
    ensures forall i :: 0 <= i < |results| ==>
      results[i].Valid() && results[i].height == image.height && results[i].width == image.width
  {
    if scales == [] then []
    else
      var last := scales[|scales| - 1];
      ScaleOutlines(raster, lib, image, config, edgeMaps, scales[..|scales| - 1])
        + [ScaleOutline(raster, lib, image, config, edgeMaps(last), last)]
  }

  function CombinedImage(results: seq<RgbImage>): (c: RgbImage)
    requires SameShape(results)
    ensures c.Valid() && c.height == results[0].height && c.width == results[0].width
  {
    if |results| > 1 then BlendAll(results) else results[0]
  }

  /** The high-resolution `generate_outline`, with the Canny fallback when the network is not usable. */
  function HiresOutline(raster: Raster, lib: HiresLibrary, image: RgbImage, config: HighResolutionConfig,
                        source: HiresOutlineSource): (o: RgbImage)
    requires image.Valid()
    ensures o.Valid() && o.height == image.height && o.width == image.width
  {
    var scales := Scales(config.enableSuperResolution);
    if !source.EdgeMaps? || !AllScalesFit(image, scales)
    then OutlineImage(raster, image, config.base, Unavailable)
    else
      var combined := CombinedImage(ScaleOutlines(raster, lib, image, config, source.forScale, scales));
      if config.enableEdgeEnhancement
      then Colourised(combined.height, combined.width, EnhanceMask(raster, lib, combined), config.base.dexinedColor)
      else combined
  }

  /** `generate_outline`'s loop over the scales. */
  method ScaleEdgeImages(raster: Raster, lib: HiresLibrary, image: RgbImage, config: HighResolutionConfig,
                         edgeMaps: real -> EdgeMap, scales: seq<real>)
    returns (results: seq<RgbImage>)
    ensures results == ScaleOutlines(raster, lib, image, config, edgeMaps, scales)
  {
    results := [];
    var i := 0;
    while i < |scales|
      invariant 0 <= i <= |scales|
      invariant results == ScaleOutlines(raster, lib, image, config, edgeMaps, scales[..i])
    {
      assert scales[..i + 1][..i] == scales[..i];
      var edgeImage := ScaleEdgeImage(raster, lib, image, config, edgeMaps(scales[i]), scales[i]);
      results := results + [edgeImage];
      i := i + 1;
    }
    assert scales[..i] == scales;
  }

  method GenerateOutlineHires(raster: Raster, lib: HiresLibrary, image: RgbImage, config: HighResolutionConfig,
                              source: HiresOutlineSource)
    returns (outline: RgbImage)
    requires image.Valid()
    ensures outline == HiresOutline(raster, lib, image, config, source)
  {
    var scales := Scales(config.enableSuperResolution);
    if !source.EdgeMaps? || !AllScalesFit(image, scales) {
      outline := FallbackEdgeDetection(raster, image, config.base);
      return;
    }
    var results := ScaleEdgeImages(raster, lib, image, config, source.forScale, scales);
    assert SameShape(results);
    if |results| > 1 {
      outline := CombineMultiscaleEdges(results);
    } else {
      outline := results[0];
    }
    assert outline == CombinedImage(results);
    if config.enableEdgeEnhancement {
      outline := EnhanceEdges(raster, lib, outline, config);
    }
  }

  /**
   * With one scale and no enhancement the high-resolution outline is the base
   * outline, computed with the Lanczos resize of the edge map.
   */
  lemma SingleScaleIsBaseOutline(raster: Raster, lib: HiresLibrary, image: RgbImage, config: HighResolutionConfig,
                                 edgeMaps: real -> EdgeMap)
    requires image.Valid()
    requires !config.enableSuperResolution && !config.enableEdgeEnhancement
    ensures HiresOutline(raster, lib, image, config, EdgeMaps(edgeMaps))
            == OutlineImage(raster.(resizeLinear := lib.resizeEdgeMap), image, config.base, Output(edgeMaps(1.0)))
  {
    assert forall s :: s in Scales(false) ==> s == 1.0;
    var results := ScaleOutlines(raster, lib, image, config, edgeMaps, [1.0]);
    assert results == [ScaleOutline(raster, lib, image, config, edgeMaps(1.0), 1.0)] by {
      assert [1.0][..0] == [];
    }
  }

  /**
   * The network's outcome as written. The scale loop enters
   * `with self.model.eval():`, but `eval()` returns the network module
   * itself, which is not a context manager; the `with` raises before the
   * network runs, and the handler takes the Canny fallback. A loaded model
   * therefore behaves as an exception.
   */
  function AsWrittenSource(source: HiresOutlineSource): (s: HiresOutlineSource)
    ensures !s.EdgeMaps?
    ensures s.NoModel? <==> source.NoModel?
  {
    if source.EdgeMaps? then Raised else source
  }

  /** The high-resolution `generate_outline` as written. */
  function HiresOutlineAsWritten(raster: Raster, lib: HiresLibrary, image: RgbImage, config: HighResolutionConfig,
                                 source: HiresOutlineSource): (o: RgbImage)
    requires image.Valid()
    ensures o.Valid() && o.height == image.height && o.width == image.width
  {
    HiresOutline(raster, lib, image, config, AsWrittenSource(source))
  }

  /**
   * As written, the network's edge maps never reach the outline: whatever a
   * loaded model would return, the result is the base processor's Canny
   * fallback. With one scale and no enhancement the intended outline is the
   * network's thresholded edge map instead.
   */
  lemma NetworkIgnoredAsWritten(raster: Raster, lib: HiresLibrary, image: RgbImage, config: HighResolutionConfig,
                                edgeMaps: real -> EdgeMap)
    requires image.Valid()
    ensures HiresOutlineAsWritten(raster, lib, image, config, EdgeMaps(edgeMaps))
            == Colourised(image.height, image.width, CannyMask(raster, image), config.base.dexinedColor)
    ensures !config.enableSuperResolution && !config.enableEdgeEnhancement ==>
      HiresOutline(raster, lib, image, config, EdgeMaps(edgeMaps))
      == Colourised(image.height, image.width,
                    ThresholdMask(raster.(resizeLinear := lib.resizeEdgeMap), edgeMaps(1.0), image.height, image.width,
                                  config.base.dexinedThreshold),
                    config.base.dexinedColor)
  {
    if !config.enableSuperResolution && !config.enableEdgeEnhancement {
      SingleScaleIsBaseOutline(raster, lib, image, config, edgeMaps);
    }
  }

  // ---------------------------------------------------------------------------
  // Upscaling

  /** `max(original_shape) < max(target)`: the order of the target pair does not matter here. */
  predicate NeedsUpscale(height: nat, width: nat, target: (int, int))
  {
    Max(height, width) < Max(target.0, target.1)
  }

  /**
   * `_upscale_image(image, (targetWidth, targetHeight))`: fit the width when
   * the image is wider than the target's aspect, else fit the height; the
   * other side is truncated.
   */
  function UpscaleSize(height: nat, width: nat, targetWidth: int, targetHeight: int): (size: (int, int))
    requires height > 0 && width > 0 && targetHeight > 0
  {
    var aspect := width as real / height as real;
    var targetAspect := targetWidth as real / targetHeight as real;
    if aspect > targetAspect
    then (targetWidth, Trunc(targetWidth as real / aspect))
    else (Trunc(targetHeight as real * aspect), targetHeight)
  }

  /**
   * `process_image`'s planned size as written: it unpacks the target pair as
   * (height, width), the reverse of the preset table and of
   * `_calculate_scaling_factors`, so `_upscale_image` receives the swapped pair.
   */
  function PlannedSizeAsWritten(height: nat, width: nat, targetResolution: (int, int)): (size: Option<(int, int)>)
    requires height > 0 && width > 0 && targetResolution.0 > 0
    ensures size.Some? <==> NeedsUpscale(height, width, targetResolution)
  {
    var (targetHeight, targetWidth) := targetResolution;
    if NeedsUpscale(height, width, targetResolution) then Some(UpscaleSize(height, width, targetWidth, targetHeight))
    else None
  }

  /** The planned size with the target read as (width, height), as the rest of the processor reads it. */
  function PlannedSize(height: nat, width: nat, targetResolution: (int, int)): (size: Option<(int, int)>)
    requires height > 0 && width > 0 && targetResolution.1 > 0
    ensures size.Some? <==> NeedsUpscale(height, width, targetResolution)
  {
    if NeedsUpscale(height, width, targetResolution)
    then Some(UpscaleSize(height, width, targetResolution.0, targetResolution.1))
    else None
  }

  /** A full-HD landscape image aimed at 4K becomes a 2160-wide portrait-shaped frame as written. */
  lemma SwappedTargetCounterexample()
    ensures PlannedSizeAsWritten(1080, 1920, (3840, 2160)) == Some((2160, 1215))
    ensures PlannedSize(1080, 1920, (3840, 2160)) == Some((3840, 2160))
  {
    var aspect := 1920.0 / 1080.0;
    assert aspect == 16.0 / 9.0;
    assert 2160.0 / aspect == 1215.0;
    assert 2160.0 * aspect == 3840.0;
    TruncOfInt(1215);
    TruncOfInt(3840);
  }

  /** The corrected upscale fits inside the target box and fills one of its sides. */
  lemma UpscaleFitsTarget(height: nat, width: nat, targetWidth: int, targetHeight: int)
    requires height > 0 && width > 0 && targetWidth > 0 && targetHeight > 0
    ensures var size := UpscaleSize(height, width, targetWidth, targetHeight);
      && 0 <= size.0 <= targetWidth && 0 <= size.1 <= targetHeight
      && (size.0 == targetWidth || size.1 == targetHeight)
  {
    var h, w, tw, th := height as real, width as real, targetWidth as real, targetHeight as real;
    if w / h > tw / th {
      WiderThanTarget(h, w, tw, th);
      TruncMonotone(tw / (w / h), th);
      TruncOfInt(targetHeight);
    } else {
      NotWiderThanTarget(h, w, tw, th);
      TruncMonotone(th * (w / h), tw);
      TruncOfInt(targetWidth);
    }
  }

  /** Fitting the width of a wider image leaves a height inside the target, and positive. */
  lemma WiderThanTarget(h: real, w: real, tw: real, th: real)
    requires h > 0.0 && w > 0.0 && tw > 0.0 && th > 0.0
    requires w / h > tw / th
    ensures 0.0 <= tw / (w / h) < th
  {
    var aspect, targetAspect := w / h, tw / th;
    assert aspect > 0.0;
    assert (tw / aspect) * aspect == tw;
    assert th * targetAspect == tw;
    assert th * aspect > th * targetAspect;
  }

  /** Fitting the height of an image no wider than the target leaves a width inside it. */
  lemma NotWiderThanTarget(h: real, w: real, tw: real, th: real)
    requires h > 0.0 && w > 0.0 && tw > 0.0 && th > 0.0
    requires w / h <= tw / th
    ensures 0.0 <= th * (w / h) <= tw
  {
    var aspect, targetAspect := w / h, tw / th;
    assert aspect > 0.0;
    assert th * targetAspect == tw;
    assert th * aspect <= th * targetAspect;
  }

  /** The image resized by Lanczos interpolation to `size` (width, height). */
  function Upscaled(lib: HiresLibrary, image: RgbImage, size: (int, int)): (u: RgbImage)
    requires size.0 >= 0 && size.1 >= 0
    ensures u.Valid() && u.width == size.0 && u.height == size.1
  {
    Render(size.1, size.0, (k: nat) => lib.resizeImage(image, size.0, size.1, k))
  }

  /**
   * `process_image` before drawing: upscale a smaller image to fit the target
   * box (with the target read as width, height), then process the full image
   * whether or not tiling applies.
   */
  method PrepareImage(lib: HiresLibrary, image: RgbImage, config: HighResolutionConfig) returns (prepared: RgbImage)
    requires image.Valid() && image.height > 0 && image.width > 0
    requires config.targetResolution.0 > 0 && config.targetResolution.1 > 0
    ensures prepared.Valid()
    ensures !NeedsUpscale(image.height, image.width, config.targetResolution) ==> prepared == image
    ensures NeedsUpscale(image.height, image.width, config.targetResolution) ==>
      var size := PlannedSize(image.height, image.width, config.targetResolution).value;
      && 0 <= size.0 <= config.targetResolution.0 && 0 <= size.1 <= config.targetResolution.1
      && prepared == Upscaled(lib, image, size)
  {
    prepared := image;
    var (targetWidth, targetHeight) := config.targetResolution;
    if Max(image.height, image.width) < Max(targetWidth, targetHeight) {
      var size := UpscaleSize(image.height, image.width, targetWidth, targetHeight);
      UpscaleFitsTarget(image.height, image.width, targetWidth, targetHeight);
      prepared := Upscaled(lib, image, size);
    }
    if (prepared.height > 4096 || prepared.width > 4096) && config.tileProcessing {
      // Tiling is announced but the full image is processed all the same.
      prepared := prepared;
    } else {
      prepared := prepared;
    }
  }

  // ---------------------------------------------------------------------------
  // Presets

  const ResolutionNames: seq<string> := ["HD", "4K", "8K", "Print300DPI_A4", "Print300DPI_A3"]

  const Resolutions: seq<(int, int)> := [(1920, 1080), (3840, 2160), (7680, 4320), (3508, 2480), (4961, 3508)]

  /** The base preset names, in the order `create_preset_configs` inserts them. */
  const PresetNames: seq<string> := ["beginner", "intermediate", "advanced", "outline_only", "mesh_only"]

  function PresetKey(p: nat, r: nat): string
    requires p < |PresetNames| && r < |ResolutionNames|
  {
    PresetNames[p] + "_" + ResolutionNames[r]
  }

  /** Different (preset, resolution) pairs give different names. */
  lemma PresetKeysDistinct(p: nat, r: nat, q: nat, s: nat)
    requires p < |PresetNames| && r < |ResolutionNames| && q < |PresetNames| && s < |ResolutionNames|
    requires PresetKey(p, r) == PresetKey(q, s)
    ensures p == q && r == s
  {
    var k := PresetKey(p, r);
    assert |k| == |PresetNames[p]| + 1 + |ResolutionNames[r]|;
    assert k[0] == PresetNames[p][0];
    assert k[|k| - 1] == ResolutionNames[r][|ResolutionNames[r]| - 1];
    assert k[|k| - 2] == ResolutionNames[r][|ResolutionNames[r]| - 2];
  }

  /** One entry of the table: the base toggles, the resolution, tiling above 4K, RGBA with `lines_only`. */
  function HiresPreset(base: WireframeConfig, resolution: (int, int)): HighResolutionConfig
  {
    WithDefaults(DefaultConfig.(enableConstructionLines := base.enableConstructionLines,
                                enableMesh := base.enableMesh,
                                enableDexinedOutline := base.enableDexinedOutline,
                                outputFormat := "rgba",
                                backgroundRemovalMethod := "lines_only"))
      .(targetResolution := resolution,
        enableSuperResolution := true,
        vectorConstructionLines := true,
        enableEdgeEnhancement := true,
        tileProcessing := resolution.0 * resolution.1 > 3840 * 2160)
  }

  /** `name` is the key of some preset at a resolution before `r`, or at `r` for a preset before `p`. */
  predicate KeyBefore(name: string, r: nat, p: nat)
  {
    exists p', r' :: 0 <= p' < |PresetNames| && 0 <= r' < |ResolutionNames|
                     && (r' < r || (r' == r && p' < p)) && name == PresetKey(p', r')
  }

  /** Every base preset named in the table is present in `base`. */
  predicate HasBaseNames(base: map<string, WireframeConfig>)
  {
    forall p :: 0 <= p < |PresetNames| ==> PresetNames[p] in base
  }

  /** The entry for preset `p` at resolution `r` is in `presets` and is built from `base`. */
  predicate HasEntry(presets: map<string, HighResolutionConfig>, base: map<string, WireframeConfig>, p: nat, r: nat)
    requires HasBaseNames(base) && p < |PresetNames| && r < |ResolutionNames|
  {
    PresetKey(p, r) in presets && presets[PresetKey(p, r)] == HiresPreset(base[PresetNames[p]], Resolutions[r])
  }

  /** Every key of `presets` was inserted before preset `p` at resolution `r`. */
  predicate KeysBefore(presets: map<string, HighResolutionConfig>, r: nat, p: nat)
  {
    forall name :: name in presets ==> KeyBefore(name, r, p)
  }

  /** Every entry of `presets` is still in `extended`, unchanged. */
  predicate Keeps(extended: map<string, HighResolutionConfig>, presets: map<string, HighResolutionConfig>)
  {
    forall name :: name in presets ==> name in extended && extended[name] == presets[name]
  }

  /** The key of preset `p` at resolution `r` is not among the keys inserted before it. */
  lemma KeyNotBefore(p: nat, r: nat)
    requires p < |PresetNames| && r < |ResolutionNames|
    ensures !KeyBefore(PresetKey(p, r), r, p)
  {
    forall p', r' | 0 <= p' < |PresetNames| && 0 <= r' < |ResolutionNames| && (r' < r || (r' == r && p' < p))
      ensures PresetKey(p', r') != PresetKey(p, r)
    {
      if PresetKey(p', r') == PresetKey(p, r) {
        PresetKeysDistinct(p', r', p, r);
      }
    }
  }

  /** Inserting the key of preset `p` at `r` moves the boundary one preset on. */
  lemma KeyBeforeNext(name: string, r: nat, p: nat)
    requires p < |PresetNames| && r < |ResolutionNames|
    requires KeyBefore(name, r, p) || name == PresetKey(p, r)
    ensures KeyBefore(name, r, p + 1)
  {
    if name == PresetKey(p, r) {
      assert 0 <= p < |PresetNames| && name == PresetKey(p, r);
    }
  }

  /** One insertion keeps every earlier entry and adds a fresh key. */
  lemma InsertKeeps(extended: map<string, HighResolutionConfig>, presets: map<string, HighResolutionConfig>,
                    r: nat, p: nat, v: HighResolutionConfig)
    requires p < |PresetNames| && r < |ResolutionNames|
    requires KeysBefore(extended, r, p) && Keeps(extended, presets)
    ensures Keeps(extended[PresetKey(p, r) := v], presets)
    ensures KeysBefore(extended[PresetKey(p, r) := v], r, p + 1)
  {
    KeyNotBefore(p, r);
    var next := extended[PresetKey(p, r) := v];
    forall name | name in next
      ensures KeyBefore(name, r, p + 1)
    {
      KeyBeforeNext(name, r, p);
    }
  }

  /** Keys inserted before the end of round `r` were inserted before round `r + 1`. */
  lemma KeysBeforeNextRound(presets: map<string, HighResolutionConfig>, r: nat)
    requires KeysBefore(presets, r, |PresetNames|)
    ensures KeysBefore(presets, r + 1, 0)
  {
    forall name | name in presets
      ensures KeyBefore(name, r + 1, 0)
    {
      assert KeyBefore(name, r, |PresetNames|);
    }
  }

  /** `presets[f"{name}_{res_name}"] = hires_config` for preset `p` at resolution `r`. */
  method InsertPreset(presets: map<string, HighResolutionConfig>, base: map<string, WireframeConfig>, p: nat, r: nat)
    returns (extended: map<string, HighResolutionConfig>)
    requires HasBaseNames(base) && p < |PresetNames| && r < |ResolutionNames|
    ensures extended == presets[PresetKey(p, r) := HiresPreset(base[PresetNames[p]], Resolutions[r])]
  {
    var key := PresetNames[p] + "_" + ResolutionNames[r];
    extended := presets[key := HiresPreset(base[PresetNames[p]], Resolutions[r])];
  }

  /** One round of the outer loop: every base preset at resolution `r`, keeping earlier entries. */
  method AddResolution(presets: map<string, HighResolutionConfig>, base: map<string, WireframeConfig>, r: nat)
    returns (extended: map<string, HighResolutionConfig>)
    requires HasBaseNames(base) && r < |ResolutionNames|
    requires KeysBefore(presets, r, 0)
    ensures Keeps(extended, presets)
    ensures forall p :: 0 <= p < |PresetNames| ==> HasEntry(extended, base, p, r)
    ensures KeysBefore(extended, r + 1, 0)
  {
    extended := presets;
    var p := 0;
    while p < |PresetNames|
      invariant 0 <= p <= |PresetNames|
      invariant Keeps(extended, presets)
      invariant forall p' :: 0 <= p' < p ==> HasEntry(extended, base, p', r)
      invariant KeysBefore(extended, r, p)
    {
      ghost var previous := extended;
      InsertKeeps(extended, presets, r, p, HiresPreset(base[PresetNames[p]], Resolutions[r]));
      extended := InsertPreset(extended, base, p, r);
      forall p' | 0 <= p' < p + 1
        ensures HasEntry(extended, base, p', r)
      {
        if p' < p {
          assert HasEntry(previous, base, p', r);
          assert PresetKey(p', r) != PresetKey(p, r) by {
            if PresetKey(p', r) == PresetKey(p, r) {
              PresetKeysDistinct(p', r, p, r);
            }
          }
        }
      }
      p := p + 1;
    }
    KeysBeforeNextRound(extended, r);
  }

  /** `create_high_resolution_presets` over a table of base presets. */
  method PresetsFrom(base: map<string, WireframeConfig>) returns (presets: map<string, HighResolutionConfig>)
    requires HasBaseNames(base)
    ensures forall p, r :: 0 <= p < |PresetNames| && 0 <= r < |ResolutionNames| ==> HasEntry(presets, base, p, r)
    ensures KeysBefore(presets, |ResolutionNames|, 0)
  {
    presets := map[];
    var r := 0;
    while r < |ResolutionNames|
      invariant 0 <= r <= |ResolutionNames|
      invariant forall p, r' :: 0 <= p < |PresetNames| && 0 <= r' < r ==> HasEntry(presets, base, p, r')
      invariant KeysBefore(presets, r, 0)
    {
      ghost var before := presets;
      presets := AddResolution(presets, base, r);
      forall p, r' | 0 <= p < |PresetNames| && 0 <= r' < r + 1
        ensures HasEntry(presets, base, p, r')
      {
        if r' < r {
          assert HasEntry(before, base, p, r');
        }
      }
      r := r + 1;
    }
  }

  /** `create_high_resolution_presets`: every base preset at every resolution, and nothing else. */
  method CreateHighResolutionPresets() returns (presets: map<string, HighResolutionConfig>)
    ensures forall p, r :: 0 <= p < |PresetNames| && 0 <= r < |ResolutionNames| ==>
      PresetKey(p, r) in presets
      && presets[PresetKey(p, r)] == HiresPreset(PresetConfigs()[PresetNames[p]], Resolutions[r])
    ensures forall name :: name in presets ==>
      exists p, r :: 0 <= p < |PresetNames| && 0 <= r < |ResolutionNames| && name == PresetKey(p, r)
  {
    var base := PresetConfigs();
    presets := PresetsFrom(base);
    forall p, r | 0 <= p < |PresetNames| && 0 <= r < |ResolutionNames|
      ensures PresetKey(p, r) in presets && presets[PresetKey(p, r)] == HiresPreset(base[PresetNames[p]], Resolutions[r])
    {
      assert HasEntry(presets, base, p, r);
    }
    forall name | name in presets
      ensures exists p, r :: 0 <= p < |PresetNames| && 0 <= r < |ResolutionNames| && name == PresetKey(p, r)
    {
      assert KeyBefore(name, |ResolutionNames|, 0);
    }
  }

  /** Tiling is switched on for 8K and both print sizes, and off for HD and 4K. */
  lemma TilingAboveFourK()
    ensures !HiresPreset(DefaultConfig, Resolutions[0]).tileProcessing
    ensures !HiresPreset(DefaultConfig, Resolutions[1]).tileProcessing
    ensures HiresPreset(DefaultConfig, Resolutions[2]).tileProcessing
    ensures HiresPreset(DefaultConfig, Resolutions[3]).tileProcessing
    ensures HiresPreset(DefaultConfig, Resolutions[4]).tileProcessing
  {
  }
}
