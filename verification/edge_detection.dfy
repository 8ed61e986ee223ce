/**
 * `EdgeDetector`: grey conversion with alpha masking, smoothing dispatch,
 * automatic Canny thresholds, multi-scale OR fusion, Otsu binarisation of the
 * structured response, method dispatch and connected-component filtering.
 *
 * OpenCV and numpy primitives are the fields of a `Vision` record. Image
 * operations are given per pixel (`(image, ..., k) -> value of pixel k`), so
 * every result has the dimensions the source asks of the call.
 */
module EdgeDetection {
  import opened Common

  /** The image `preprocess_for_edges` accepts: 2-D grey, 3-channel BGR or 4-channel BGRA. */
  datatype InputImage =
    | GrayInput(gray: GrayImage)
    | Bgr(bgr: RgbImage)
    | Bgra(bgra: RgbaImage)
  {
    predicate Valid()
    {
      match this
      case GrayInput(g) => g.Valid()
      case Bgr(img) => img.Valid()
      case Bgra(img) => img.Valid()
    }

    function Height(): nat
    {
      match this
      case GrayInput(g) => g.height
      case Bgr(img) => img.height
      case Bgra(img) => img.height
    }

    function Width(): nat
    {
      match this
      case GrayInput(g) => g.width
      case Bgr(img) => img.width
      case Bgra(img) => img.width
    }
  }

  datatype Vision = Vision(
    bgrToGray: (RgbImage, nat) -> Byte,
    bilateral: (GrayImage, int, real, real, nat) -> Byte,
    gaussian: (GrayImage, int, real, nat) -> Byte,
    percentile: (GrayImage, real) -> real,
    canny: (GrayImage, real, real, bool, nat) -> Byte,
    resizeArea: (GrayImage, nat, nat, nat) -> Byte,
    resizeNearest: (GrayImage, nat, nat, nat) -> Byte,
    structuredResponse: (GrayImage, nat) -> Byte,
    otsu: GrayImage -> real,
    closeEllipse3: (GrayImage, nat) -> Byte,
    openEllipse2: (GrayImage, nat) -> Byte,
    componentCount: GrayImage -> nat,
    componentLabel: (GrayImage, nat) -> nat,
    componentArea: (GrayImage, nat) -> int)

  /** The `height` x `width` grey image whose pixel `k` is `f(k)`. */
  function Lift(height: nat, width: nat, f: nat -> Byte): (g: GrayImage)
    ensures g.Valid() && g.height == height && g.width == width
    ensures forall k :: 0 <= k < height * width ==> g.px[k] == f(k)
  {
    GrayImage(height, width, seq(height * width, (k: int) requires 0 <= k < height * width => f(k)))
  }

  // ---------------------------------------------------------------------------
  // preprocess_for_edges

  /** The colour part of a BGRA image. */
  function ColourPart(img: RgbaImage): (c: RgbImage)
    ensures c.height == img.height && c.width == img.width && |c.px| == |img.px|
  {
    RgbImage(img.height, img.width, seq(|img.px|, k requires 0 <= k < |img.px| => RgbOf(img.px[k])))
  }

  /** `np.where(alpha > 0, gray, 255)` at pixel `k`. */
  function MaskedGray(v: Vision, img: RgbaImage, k: nat): Byte
  {
    if k < |img.px| && img.px[k].a > 0 then v.bgrToGray(ColourPart(img), k) else 255
  }

  /** Grey conversion; a transparent BGRA pixel becomes white. */
  function ToGray(v: Vision, image: InputImage): (g: GrayImage)
    requires image.Valid()
    ensures g.Valid() && g.height == image.Height() && g.width == image.Width()
  {
    match image
    case GrayInput(gray) => gray
    case Bgr(img) => Lift(img.height, img.width, k => v.bgrToGray(img, k))
    case Bgra(img) => Lift(img.height, img.width, k => MaskedGray(v, img, k))
  }

  /**
   * Alpha masking: a BGRA pixel with alpha 0 is white in the grey image, one
   * with alpha above 0 keeps the grey value of its colour, and a fully opaque
   * BGRA image converts exactly as its BGR part does.
   */
  lemma AlphaMaskedToWhite(v: Vision, img: RgbaImage)
    requires img.Valid()
    ensures forall k :: 0 <= k < |img.px| && img.px[k].a == 0 ==> ToGray(v, Bgra(img)).px[k] == 255
    ensures forall k :: 0 <= k < |img.px| && img.px[k].a > 0 ==>
      ToGray(v, Bgra(img)).px[k] == ToGray(v, Bgr(ColourPart(img))).px[k]
    ensures (forall k :: 0 <= k < |img.px| ==> img.px[k].a == 255) ==>
      ToGray(v, Bgra(img)) == ToGray(v, Bgr(ColourPart(img)))
  {
  }

  /** Grey conversion, then the smoothing the method names; an unknown name smooths nothing. */
  function Preprocess(v: Vision, image: InputImage, methodName: string): (processed: GrayImage)
    requires image.Valid()
    ensures processed.Valid() && processed.height == image.Height() && processed.width == image.Width()
    ensures methodName != "bilateral" && methodName != "guided" && methodName != "gaussian" ==>
      processed == ToGray(v, image)
  {
    var gray := ToGray(v, image);
    if methodName == "bilateral" then Lift(gray.height, gray.width, k => v.bilateral(gray, 9, 75.0, 75.0, k))
    else if methodName == "guided" then Lift(gray.height, gray.width, k => v.bilateral(gray, 15, 80.0, 80.0, k))
    else if methodName == "gaussian" then Lift(gray.height, gray.width, k => v.gaussian(gray, 5, 1.0, k))
    else gray
  }

  // ---------------------------------------------------------------------------
  // auto_canny

  datatype Thresholds = Thresholds(lower: real, upper: real)

  /** The median-based pair, clamped into [0, 255]. */
  function MedianThresholds(median: real, sigma: real): (t: Thresholds)
    ensures 0.0 <= t.lower && t.upper <= 255.0
    ensures t.lower >= Trunc((1.0 - sigma) * median) as real
    ensures t.upper <= Trunc((1.0 + sigma) * median) as real
  {
    Thresholds(Max(0, Trunc((1.0 - sigma) * median)) as real, Min(255, Trunc((1.0 + sigma) * median)) as real)
  }

  /** The more conservative of the median pair and the percentile pair. */
  function FinalThresholds(median: real, sigma: real, pLower: real, pUpper: real): (t: Thresholds)
    ensures t.lower >= MedianThresholds(median, sigma).lower && t.lower >= pLower * 0.5
    ensures t.lower == MedianThresholds(median, sigma).lower || t.lower == pLower * 0.5
    ensures t.upper <= MedianThresholds(median, sigma).upper && t.upper <= pUpper * 0.7
    ensures t.upper == MedianThresholds(median, sigma).upper || t.upper == pUpper * 0.7
    ensures 0.0 <= t.lower && t.upper <= 255.0
  {
    var m := MedianThresholds(median, sigma);
    Thresholds(MaxR(m.lower, pLower * 0.5), MinR(m.upper, pUpper * 0.7))
  }

  /**
   * For a grey median and 0 <= sigma <= 1 the median pair is ordered and
   * brackets the median: lower <= median and int(median) <= upper.
   */
  lemma MedianThresholdsBracketMedian(median: real, sigma: real)
    requires 0.0 <= median <= 255.0 && 0.0 <= sigma <= 1.0
    ensures var t := MedianThresholds(median, sigma);
      t.lower <= median && Trunc(median) as real <= t.upper && t.lower <= t.upper
  {
    assert 0.0 <= (1.0 - sigma) * median <= median;
    assert median <= (1.0 + sigma) * median;
    TruncMonotone((1.0 - sigma) * median, median);
    TruncMonotone(median, (1.0 + sigma) * median);
    TruncMonotone(median, 255.0);
    TruncOfInt(255);
  }

  function AutoCannyThresholds(v: Vision, image: GrayImage, sigma: real, lowerPercentile: real, upperPercentile: real): Thresholds
  {
    FinalThresholds(v.percentile(image, 50.0), sigma, v.percentile(image, lowerPercentile), v.percentile(image, upperPercentile))
  }

  /** `auto_canny`: L2-gradient Canny with the automatic thresholds. */
  function AutoCanny(v: Vision, image: GrayImage, sigma: real, lowerPercentile: real, upperPercentile: real): (edges: GrayImage)
    ensures edges.Valid() && edges.height == image.height && edges.width == image.width
  {
    var t := AutoCannyThresholds(v, image, sigma, lowerPercentile, upperPercentile);
    Lift(image.height, image.width, k => v.canny(image, t.lower, t.upper, true, k))
  }

  const DefaultSigma: real := 0.33
  const DefaultLowerPercentile: real := 50.0
  const DefaultUpperPercentile: real := 99.0

  // ---------------------------------------------------------------------------
  // multiscale_canny

  /** Bitwise OR of two naturals, from the least significant bit up. */
  function Or(a: nat, b: nat): nat
  {
    if a == 0 then b
    else if b == 0 then a
    else 2 * Or(a / 2, b / 2) + (if a % 2 == 1 || b % 2 == 1 then 1 else 0)
  }

  /** Bit `i` of `x` is set. */
  predicate HasBit(x: nat, i: nat)
  {
    if i == 0 then x % 2 == 1 else HasBit(x / 2, i - 1)
  }

  lemma {:induction false} ZeroHasNoBit(i: nat)
    ensures !HasBit(0, i)
  {
    if i > 0 {
      ZeroHasNoBit(i - 1);
    }
  }

  /** A bit of `a | b` is set exactly when it is set in `a` or in `b`. */
  lemma {:induction false} OrBit(a: nat, b: nat, i: nat)
    ensures HasBit(Or(a, b), i) <==> HasBit(a, i) || HasBit(b, i)
    decreases i
  {
    if a == 0 || b == 0 {
      ZeroHasNoBit(i);
    } else if i > 0 {
      OrBit(a / 2, b / 2, i - 1);
    }
  }

  lemma {:induction false} OrBelow(a: nat, b: nat, n: nat)
    requires a < Pow2(n) && b < Pow2(n)
    ensures Or(a, b) < Pow2(n)
    decreases n
  {
    if a != 0 && b != 0 {
      OrBelow(a / 2, b / 2, n - 1);
    }
  }

  /** Two `n`-bit numbers with the same bits are equal. */
  lemma {:induction false} SameBits(a: nat, b: nat, n: nat)
    requires a < Pow2(n) && b < Pow2(n)
    requires forall i :: 0 <= i < n ==> HasBit(a, i) == HasBit(b, i)
    ensures a == b
    decreases n
  {
    if n > 0 {
      assert HasBit(a, 0) == HasBit(b, 0);
      forall i | 0 <= i < n - 1
        ensures HasBit(a / 2, i) == HasBit(b / 2, i)
      {
        assert HasBit(a, i + 1) == HasBit(b, i + 1);
      }
      SameBits(a / 2, b / 2, n - 1);
    }
  }

  /** `cv2.bitwise_or` on one 8-bit pixel. */
  function BitOr(a: Byte, b: Byte): Byte
  {
    OrBelow(a, b, 8);
    Or(a, b)
  }

  /** A non-unit scale must give a non-empty resized image; `cv2.resize` refuses anything else. */
  predicate ScaleOk(image: GrayImage, scale: real)
  {
    scale == 1.0 || (Trunc(image.height as real * scale) > 0 && Trunc(image.width as real * scale) > 0)
  }

  /** The image resized by `scale` with area interpolation. */
  function Rescaled(v: Vision, image: GrayImage, scale: real): (r: GrayImage)
    requires ScaleOk(image, scale) && scale != 1.0
    ensures r.Valid()
  {
    var newH := Trunc(image.height as real * scale);
    var newW := Trunc(image.width as real * scale);
    Lift(newH, newW, k => v.resizeArea(image, newW, newH, k))
  }

  /** The edge map one scale contributes, at the input's size. */
  function ScaleEdges(v: Vision, image: GrayImage, scale: real): (edges: GrayImage)
    requires ScaleOk(image, scale)
    ensures edges.Valid() && edges.height == image.height && edges.width == image.width
  {
    if scale != 1.0 then
      var small := AutoCanny(v, Rescaled(v, image, scale), DefaultSigma, DefaultLowerPercentile, DefaultUpperPercentile);
      Lift(image.height, image.width, k => v.resizeNearest(small, image.width, image.height, k))
    else AutoCanny(v, image, DefaultSigma, DefaultLowerPercentile, DefaultUpperPercentile)
  }

  predicate AllScalesOk(image: GrayImage, scales: seq<real>)
  {
    forall j :: 0 <= j < |scales| ==> ScaleOk(image, scales[j])
  }

  /** Pixel `k` of the fused map: 0, OR-ed with each scale's edge pixel in turn. */
  function FusedPixel(v: Vision, image: GrayImage, scales: seq<real>, k: nat): Byte
    requires AllScalesOk(image, scales)
    requires k < image.height * image.width
  {
    if scales == [] then 0
    else BitOr(FusedPixel(v, image, scales[..|scales| - 1], k), ScaleEdges(v, image, scales[|scales| - 1]).px[k])
  }

  lemma AllScalesOkSnoc(image: GrayImage, scales: seq<real>, j: nat)
    requires j < |scales| && AllScalesOk(image, scales[..j]) && ScaleOk(image, scales[j])
    ensures AllScalesOk(image, scales[..j + 1])
  {
    var done := scales[..j + 1];
    forall i | 0 <= i < |done|
      ensures ScaleOk(image, done[i])
    {
      if i < j {
        assert done[i] == scales[..j][i];
      }
    }
  }

  /** Fusing one more scale ORs its edge pixel into the fused pixel. */
  lemma FusedPixelStep(v: Vision, image: GrayImage, scales: seq<real>, j: nat, k: nat)
    requires j < |scales| && AllScalesOk(image, scales[..j + 1]) && k < image.height * image.width
    ensures AllScalesOk(image, scales[..j])
    ensures FusedPixel(v, image, scales[..j + 1], k)
         == BitOr(FusedPixel(v, image, scales[..j], k), ScaleEdges(v, image, scales[j]).px[k])
  {
    assert scales[..j + 1][..j] == scales[..j];
  }

  /** `cv2.bitwise_or(target, edges)` written back into `target`, pixel by pixel. */
  method OrInto(target: array<Byte>, edges: seq<Byte>)
    requires target.Length <= |edges|
    modifies target
    ensures forall m :: 0 <= m < target.Length ==> target[m] == BitOr(old(target[m]), edges[m])
  {
    var k := 0;
    while k < target.Length
      invariant 0 <= k <= target.Length
      invariant forall m :: 0 <= m < k ==> target[m] == BitOr(old(target[m]), edges[m])
      invariant forall m :: k <= m < target.Length ==> target[m] == old(target[m])
    {
      target[k] := BitOr(target[k], edges[k]);
      k := k + 1;
    }
  }

  method MultiscaleCanny(v: Vision, image: GrayImage, scales: seq<real>) returns (combined: Option<GrayImage>)
    ensures combined.None? <==> !AllScalesOk(image, scales)
    ensures combined.Some? ==>
      && combined.value.Valid()
      && combined.value.height == image.height && combined.value.width == image.width
      && forall k :: 0 <= k < image.height * image.width ==>
           combined.value.px[k] == FusedPixel(v, image, scales, k)
  {
    var h, w := image.height, image.width;
    var combinedEdges := new Byte[h * w](_ => 0);
    var j := 0;
    while j < |scales|
      invariant 0 <= j <= |scales|
      invariant AllScalesOk(image, scales[..j])
      invariant forall k :: 0 <= k < h * w ==> combinedEdges[k] == FusedPixel(v, image, scales[..j], k)
    {
      if !ScaleOk(image, scales[j]) {
        return None;
      }
      var edges := ScaleEdges(v, image, scales[j]);
      AllScalesOkSnoc(image, scales, j);
      OrInto(combinedEdges, edges.px);
      forall k | 0 <= k < h * w
        ensures combinedEdges[k] == FusedPixel(v, image, scales[..j + 1], k)
      {
        FusedPixelStep(v, image, scales, j, k);
      }
      j := j + 1;
    }
    assert scales[..|scales|] == scales;
    combined := Some(GrayImage(h, w, combinedEdges[..]));
  }

  /**
   * A bit of a fused pixel is set exactly when some scale's edge map sets
   * it; so every scale's edges are contained in the result, a pixel is 0
   * only where no scale has an edge, and the result depends only on the set
   * of scales, not on their order or repetition.
   */
  lemma {:induction false} FusedPixelBits(v: Vision, image: GrayImage, scales: seq<real>, k: nat, i: nat)
    requires AllScalesOk(image, scales)
    requires k < image.height * image.width
    ensures HasBit(FusedPixel(v, image, scales, k), i) <==>
      exists s :: s in scales && ScaleOk(image, s) && HasBit(ScaleEdges(v, image, s).px[k], i)
  {
    if scales == [] {
      ZeroHasNoBit(i);
    } else {
      var init, last := scales[..|scales| - 1], scales[|scales| - 1];
      assert AllScalesOk(image, init);
      FusedPixelBits(v, image, init, k, i);
      OrBit(FusedPixel(v, image, init, k), ScaleEdges(v, image, last).px[k], i);
      assert scales == init + [last];
    }
  }

  lemma FusionContainsEveryScale(v: Vision, image: GrayImage, scales: seq<real>, k: nat, s: real)
    requires AllScalesOk(image, scales)
    requires k < image.height * image.width
    requires s in scales
    ensures BitOr(FusedPixel(v, image, scales, k), ScaleEdges(v, image, s).px[k]) == FusedPixel(v, image, scales, k)
    ensures ScaleEdges(v, image, s).px[k] != 0 ==> FusedPixel(v, image, scales, k) != 0
  {
    var fused := FusedPixel(v, image, scales, k);
    var e := ScaleEdges(v, image, s).px[k];
    forall i | 0 <= i < 8
      ensures HasBit(BitOr(fused, e), i) == HasBit(fused, i)
    {
      OrBit(fused, e, i);
      FusedPixelBits(v, image, scales, k, i);
    }
    SameBits(BitOr(fused, e), fused, 8);
  }

  lemma FusionIgnoresScaleOrder(v: Vision, image: GrayImage, scales: seq<real>, others: seq<real>, k: nat)
    requires AllScalesOk(image, scales) && AllScalesOk(image, others)
    requires forall s :: s in scales <==> s in others
    requires k < image.height * image.width
    ensures FusedPixel(v, image, scales, k) == FusedPixel(v, image, others, k)
  {
    forall i | 0 <= i < 8
      ensures HasBit(FusedPixel(v, image, scales, k), i) == HasBit(FusedPixel(v, image, others, k), i)
    {
      FusedPixelBits(v, image, scales, k, i);
      FusedPixelBits(v, image, others, k, i);
    }
    SameBits(FusedPixel(v, image, scales, k), FusedPixel(v, image, others, k), 8);
  }

  // ---------------------------------------------------------------------------
  // structured_edge_detection

  /** Otsu binarisation of the normalised combined gradient response. */
  function Structured(v: Vision, image: GrayImage): (edges: GrayImage)
    ensures edges.Valid() && edges.height == image.height && edges.width == image.width
    ensures var response := Lift(image.height, image.width, k => v.structuredResponse(image, k));
      forall k :: 0 <= k < image.height * image.width ==>
        && (edges.px[k] == 255 <==> response.px[k] as real > v.otsu(response))
        && (edges.px[k] == 0 <==> response.px[k] as real <= v.otsu(response))
  {
    var response := Lift(image.height, image.width, k => v.structuredResponse(image, k));
    var t := v.otsu(response);
    Lift(image.height, image.width, (k: nat) => if k < |response.px| && response.px[k] as real > t then 255 else 0)
  }

  // ---------------------------------------------------------------------------
  // detect_edges

  datatype EdgeOptions = EdgeOptions(sigma: real, lowerPercentile: real, upperPercentile: real, scales: seq<real>)

  const DefaultEdgeOptions: EdgeOptions :=
    EdgeOptions(DefaultSigma, DefaultLowerPercentile, DefaultUpperPercentile, [1.0, 0.8, 1.2])

  /** Basic Canny with the thresholds 50 and 150. */
  function FallbackCanny(v: Vision, image: GrayImage): (edges: GrayImage)
    ensures edges.Valid() && edges.height == image.height && edges.width == image.width
  {
    Lift(image.height, image.width, k => v.canny(image, 50.0, 150.0, false, k))
  }

  method DetectEdges(v: Vision, image: InputImage, methodName: string, preprocessMethod: string, options: EdgeOptions)
    returns (edges: Option<GrayImage>)
    requires image.Valid()
    ensures var processed := Preprocess(v, image, preprocessMethod);
      && (methodName == "auto_canny" ==>
            edges == Some(AutoCanny(v, processed, options.sigma, options.lowerPercentile, options.upperPercentile)))
      && (methodName == "structured" ==> edges == Some(Structured(v, processed)))
      && (methodName == "multiscale_canny" ==>
            && (edges.None? <==> !AllScalesOk(processed, options.scales))
            && (edges.Some? ==>
                  && AllScalesOk(processed, options.scales)
                  && edges.value == GrayImage(processed.height, processed.width, edges.value.px)
                  && |edges.value.px| == processed.height * processed.width
                  && forall k :: 0 <= k < processed.height * processed.width ==>
                       edges.value.px[k] == FusedPixel(v, processed, options.scales, k)))
      && (methodName != "auto_canny" && methodName != "multiscale_canny" && methodName != "structured" ==>
            edges == Some(FallbackCanny(v, processed)))
    ensures edges.Some? ==>
      edges.value.Valid() && edges.value.height == image.Height() && edges.value.width == image.Width()
  {
    var processed := Preprocess(v, image, preprocessMethod);
    if methodName == "auto_canny" {
      edges := Some(AutoCanny(v, processed, options.sigma, options.lowerPercentile, options.upperPercentile));
    } else if methodName == "multiscale_canny" {
      edges := MultiscaleCanny(v, processed, options.scales);
    } else if methodName == "structured" {
      edges := Some(Structured(v, processed));
    } else {
      edges := Some(FallbackCanny(v, processed));
    }
  }

  // ---------------------------------------------------------------------------
  // refine_edges

  /** Closing with a 3x3 ellipse, then opening with a 2x2 ellipse, when requested. */
  function Morphology(v: Vision, edges: GrayImage, applyMorphology: bool): (r: GrayImage)
    ensures applyMorphology ==> r.Valid() && r.height == edges.height && r.width == edges.width
    ensures !applyMorphology ==> r == edges
  {
    if applyMorphology then
      var closed := Lift(edges.height, edges.width, k => v.closeEllipse3(edges, k));
      Lift(edges.height, edges.width, k => v.openEllipse2(closed, k))
    else edges
  }

  /** A pixel survives when it lies in a foreground component of at least `minSize` pixels. */
  predicate InLargeComponent(v: Vision, img: GrayImage, k: nat, minSize: int)
  {
    var id := v.componentLabel(img, k);
    1 <= id < v.componentCount(img) && v.componentArea(img, id) >= minSize
  }

  method RefineEdges(v: Vision, edges: GrayImage, removeSmallComponents: bool, minComponentSize: int,
                     applyMorphology: bool)
    returns (refined: GrayImage)
    requires edges.Valid()
    ensures refined.Valid() && refined.height == edges.height && refined.width == edges.width
    ensures !removeSmallComponents ==> refined == Morphology(v, edges, applyMorphology)
    ensures removeSmallComponents ==>
      var m := Morphology(v, edges, applyMorphology);
      forall k :: 0 <= k < |refined.px| ==>
        refined.px[k] == (if InLargeComponent(v, m, k, minComponentSize) then 255 else 0)
  {
    refined := Morphology(v, edges, applyMorphology);
    if removeSmallComponents {
      var n := refined.height * refined.width;
      var numLabels := v.componentCount(refined);
      var largeComponentMask := new Byte[n](_ => 0);
      var i := 1;
      while i < numLabels
        invariant 1 <= i <= Max(1, numLabels)
        invariant forall k :: 0 <= k < n ==>
          largeComponentMask[k] == (if 1 <= v.componentLabel(refined, k) < i
                                       && v.componentArea(refined, v.componentLabel(refined, k)) >= minComponentSize
                                    then 255 else 0)
      {
        if v.componentArea(refined, i) >= minComponentSize {
          var k := 0;
          while k < n
            invariant 0 <= k <= n
            invariant forall m :: 0 <= m < n ==>
              largeComponentMask[m] == (if (1 <= v.componentLabel(refined, m) < i
                                            && v.componentArea(refined, v.componentLabel(refined, m)) >= minComponentSize)
                                           || (m < k && v.componentLabel(refined, m) == i)
                                        then 255 else 0)
          {
            if v.componentLabel(refined, k) == i {
              largeComponentMask[k] := 255;
            }
            k := k + 1;
          }
        }
        i := i + 1;
      }
      refined := GrayImage(refined.height, refined.width, largeComponentMask[..]);
    }
  }
}
