/**
 * `ContourRefiner`: extraction of contours from an edge map, Douglas-Peucker
 * simplification, Chaikin corner cutting, named smoothing presets, geometric
 * filtering, the simplify/smooth pipeline and summary statistics.
 *
 * OpenCV's `findContours`, `contourArea`, `arcLength`, `approxPolyDP` and
 * `minAreaRect` are the fields of a `Geometry` record; nothing is assumed
 * about them beyond their types.
 */
module ContourRefine {
  import opened Common
  import opened Sorting

  /** An OpenCV contour: integer pixel points in order. */
  type Contour = seq<Point>

  datatype Geometry = Geometry(
    findContours: GrayImage -> seq<Contour>,
    contourArea: Contour -> real,
    closedArcLength: Contour -> real,
    approxPolyDP: (Contour, real) -> Contour,
    minAreaRectSize: Contour -> (real, real))

  const DefaultMinContourArea: real := 100.0

  // ---------------------------------------------------------------------------
  // extract_contours

  function AreaAtLeast(geo: Geometry, minArea: real): Contour -> bool
  {
    (c: Contour) => geo.contourArea(c) >= minArea
  }

  /** The order of `sort(key=contourArea, reverse=True)`: larger areas first. */
  function ByAreaDescending(geo: Geometry): (Contour, Contour) -> bool
  {
    (a: Contour, b: Contour) => geo.contourArea(a) >= geo.contourArea(b)
  }

  lemma ByAreaDescendingIsTotalPreorder(geo: Geometry)
    ensures TotalPreorder(ByAreaDescending(geo))
  {
  }

  /** The contours `extract_contours` returns. */
  function Extracted(geo: Geometry, edges: GrayImage, minArea: real): seq<Contour>
  {
    SortStable(Filter(geo.findContours(edges), AreaAtLeast(geo, minArea)), ByAreaDescending(geo))
  }

  /** Keeps the contours of area at least `minArea`, then sorts them by descending area. */
  method ExtractContours(geo: Geometry, edges: GrayImage, minArea: real) returns (kept: seq<Contour>)
    ensures kept == Extracted(geo, edges, minArea)
  {
    var contours := geo.findContours(edges);
    var filtered := [];
    var i := 0;
    while i < |contours|
      invariant 0 <= i <= |contours|
      invariant filtered == Filter(contours[..i], AreaAtLeast(geo, minArea))
    {
      assert contours[..i + 1][..i] == contours[..i];
      if geo.contourArea(contours[i]) >= minArea {
        filtered := filtered + [contours[i]];
      }
      i := i + 1;
    }
    assert contours[..|contours|] == contours;
    kept := SortStable(filtered, ByAreaDescending(geo));
  }

  /**
   * The extracted contours are exactly those of area at least `minArea`
   * (as a multiset), in non-increasing order of area, and contours of equal
   * area keep the order `findContours` produced them in.
   */
  lemma ExtractedProperties(geo: Geometry, edges: GrayImage, minArea: real)
    ensures var found := geo.findContours(edges);
      multiset(Extracted(geo, edges, minArea)) == multiset(Filter(found, AreaAtLeast(geo, minArea)))
    ensures forall c :: c in Extracted(geo, edges, minArea) ==> geo.contourArea(c) >= minArea
    ensures forall i, j :: 0 <= i < j < |Extracted(geo, edges, minArea)| ==>
      geo.contourArea(Extracted(geo, edges, minArea)[i]) >= geo.contourArea(Extracted(geo, edges, minArea)[j])
    ensures forall c :: c in geo.findContours(edges) && geo.contourArea(c) >= minArea ==>
      c in Extracted(geo, edges, minArea)
  {
    var found := geo.findContours(edges);
    var filtered := Filter(found, AreaAtLeast(geo, minArea));
    var kept := Extracted(geo, edges, minArea);
    ByAreaDescendingIsTotalPreorder(geo);
    SortStablePermutation(filtered, ByAreaDescending(geo));
    SortStableSorted(filtered, ByAreaDescending(geo));
    forall c | c in kept
      ensures geo.contourArea(c) >= minArea
    {
      assert c in multiset(kept);
      FilterMembership(found, AreaAtLeast(geo, minArea), c);
    }
    forall c | c in found && geo.contourArea(c) >= minArea
      ensures c in kept
    {
      FilterMembership(found, AreaAtLeast(geo, minArea), c);
      assert c in multiset(filtered);
    }
  }

  /** Ties keep extraction order: Python's sort is stable, also with `reverse=True`. */
  lemma ExtractedKeepsTieOrder(geo: Geometry, edges: GrayImage, minArea: real, c: Contour)
    ensures var tie := EquivalentTo(ByAreaDescending(geo), c);
      Filter(Extracted(geo, edges, minArea), tie)
        == Filter(Filter(geo.findContours(edges), AreaAtLeast(geo, minArea)), tie)
  {
    ByAreaDescendingIsTotalPreorder(geo);
    SortStableKeepsTieOrder(Filter(geo.findContours(edges), AreaAtLeast(geo, minArea)), ByAreaDescending(geo), c);
  }

  // ---------------------------------------------------------------------------
  // douglas_peucker_simplify

  const DefaultEpsilonFactor: real := 0.005

  /** The approximation tolerance: a fraction of the closed perimeter. */
  function Tolerance(geo: Geometry, contour: Contour, epsilonFactor: real): real
  {
    epsilonFactor * geo.closedArcLength(contour)
  }

  function Simplified(geo: Geometry, contour: Contour, epsilonFactor: real): Contour
  {
    geo.approxPolyDP(contour, Tolerance(geo, contour, epsilonFactor))
  }

  /**
   * The tolerance grows in proportion to the perimeter: a contour `k` times
   * as long is simplified with a tolerance `k` times as large, and a larger
   * factor never gives a smaller tolerance.
   */
  lemma ToleranceScalesWithPerimeter(geo: Geometry, a: Contour, b: Contour, epsilonFactor: real, k: real)
    requires geo.closedArcLength(b) == k * geo.closedArcLength(a)
    ensures Tolerance(geo, b, epsilonFactor) == k * Tolerance(geo, a, epsilonFactor)
    ensures forall f :: epsilonFactor <= f && geo.closedArcLength(a) >= 0.0 ==>
      Tolerance(geo, a, epsilonFactor) <= Tolerance(geo, a, f)
  {
    assert epsilonFactor * (k * geo.closedArcLength(a)) == k * (epsilonFactor * geo.closedArcLength(a));
    forall f | epsilonFactor <= f && geo.closedArcLength(a) >= 0.0
      ensures Tolerance(geo, a, epsilonFactor) <= Tolerance(geo, a, f)
    {
      assert (f - epsilonFactor) * geo.closedArcLength(a) >= 0.0;
    }
  }

  // ---------------------------------------------------------------------------
  // chaikin_smooth

  /** A point with fractional coordinates, as numpy holds it between iterations. */
  datatype RPoint = RPoint(x: real, y: real)

  function ToReal(c: Contour): (r: seq<RPoint>)
    ensures |r| == |c|
  {
    seq(|c|, i requires 0 <= i < |c| => RPoint(c[i].x as real, c[i].y as real))
  }

  /** `astype(np.int32)`: each coordinate truncated toward zero. */
  function TruncAll(r: seq<RPoint>): (c: Contour)
    ensures |c| == |r|
  {
    seq(|r|, i requires 0 <= i < |r| => Point(Trunc(r[i].x), Trunc(r[i].y)))
  }

  /** `p + t * (q - p)` */
  function Lerp(p: RPoint, q: RPoint, t: real): RPoint
  {
    RPoint(p.x + t * (q.x - p.x), p.y + t * (q.y - p.y))
  }

  /** The two cut points of edge `i`, from `s[i]` to its cyclic successor. */
  function EdgeCuts(s: seq<RPoint>, ratio: real, i: nat): seq<RPoint>
    requires i < |s|
  {
    var p1 := s[i];
    var p2 := s[(i + 1) % |s|];
    [Lerp(p1, p2, ratio), Lerp(p1, p2, 1.0 - ratio)]
  }

  /** The cut points of the first `m` edges, in edge order. */
  function CutCornersUpTo(s: seq<RPoint>, ratio: real, m: nat): seq<RPoint>
    requires m <= |s|
  {
    if m == 0 then [] else CutCornersUpTo(s, ratio, m - 1) + EdgeCuts(s, ratio, m - 1)
  }

  /** One Chaikin iteration over the closed polygon `s`. */
  function CutCorners(s: seq<RPoint>, ratio: real): seq<RPoint>
  {
    CutCornersUpTo(s, ratio, |s|)
  }

  /**
   * Every edge contributes two points, its `ratio` point and then its
   * `1 - ratio` point; the last edge wraps round to the first point.
   */
  lemma {:induction false} CutCornersUpToShape(s: seq<RPoint>, ratio: real, m: nat)
    requires m <= |s|
    ensures |CutCornersUpTo(s, ratio, m)| == 2 * m
    ensures forall i :: 0 <= i < m ==>
      && CutCornersUpTo(s, ratio, m)[2 * i] == Lerp(s[i], s[(i + 1) % |s|], ratio)
      && CutCornersUpTo(s, ratio, m)[2 * i + 1] == Lerp(s[i], s[(i + 1) % |s|], 1.0 - ratio)
  {
    if m > 0 {
      CutCornersUpToShape(s, ratio, m - 1);
    }
  }

  lemma {:induction false} CutCornersUpToLength(s: seq<RPoint>, ratio: real, m: nat)
    requires m <= |s|
    ensures |CutCornersUpTo(s, ratio, m)| == 2 * m
  {
    if m > 0 {
      CutCornersUpToLength(s, ratio, m - 1);
    }
  }

  function ChaikinIterate(s: seq<RPoint>, ratio: real, k: nat): seq<RPoint>
  {
    if k == 0 then s else CutCorners(ChaikinIterate(s, ratio, k - 1), ratio)
  }

  /** Each iteration doubles the number of points. */
  lemma {:induction false} ChaikinIterateLength(s: seq<RPoint>, ratio: real, k: nat)
    ensures |ChaikinIterate(s, ratio, k)| == |s| * Pow2(k)
  {
    if k > 0 {
      var t := ChaikinIterate(s, ratio, k - 1);
      ChaikinIterateLength(s, ratio, k - 1);
      CutCornersUpToLength(t, ratio, |t|);
      assert |ChaikinIterate(s, ratio, k)| == 2 * |t|;
      DoubleFactor(|s|, Pow2(k - 1));
    }
  }

  lemma DoubleFactor(n: nat, p: nat)
    ensures n * (2 * p) == 2 * (n * p)
  {
  }

  /** Iterating `a` times and then `b` times is iterating `a + b` times. */
  lemma {:induction false} ChaikinIterateCompose(s: seq<RPoint>, ratio: real, a: nat, b: nat)
    ensures ChaikinIterate(ChaikinIterate(s, ratio, a), ratio, b) == ChaikinIterate(s, ratio, a + b)
  {
    if b > 0 {
      ChaikinIterateCompose(s, ratio, a, b - 1);
    }
  }

  /** All points lie in the axis-aligned box [x0, x1] x [y0, y1]. */
  predicate InBox(s: seq<RPoint>, x0: real, x1: real, y0: real, y1: real)
  {
    forall i :: 0 <= i < |s| ==> x0 <= s[i].x <= x1 && y0 <= s[i].y <= y1
  }

  lemma LerpInBox(p: RPoint, q: RPoint, t: real, x0: real, x1: real, y0: real, y1: real)
    requires 0.0 <= t <= 1.0
    requires x0 <= p.x <= x1 && y0 <= p.y <= y1
    requires x0 <= q.x <= x1 && y0 <= q.y <= y1
    ensures var l := Lerp(p, q, t); x0 <= l.x <= x1 && y0 <= l.y <= y1
  {
    LerpBetween(p.x, q.x, t, x0, x1);
    LerpBetween(p.y, q.y, t, y0, y1);
    var l := Lerp(p, q, t);
    assert l.x == p.x + t * (q.x - p.x) && l.y == p.y + t * (q.y - p.y);
  }

  /** A mix of two values in `[lo, hi]` stays in `[lo, hi]`. */
  lemma LerpBetween(a: real, b: real, t: real, lo: real, hi: real)
    requires 0.0 <= t <= 1.0 && lo <= a <= hi && lo <= b <= hi
    ensures lo <= a + t * (b - a) <= hi
  {
    assert a + t * (b - a) == (1.0 - t) * a + t * b;
    NonNegProduct(1.0 - t, a - lo);
    NonNegProduct(t, b - lo);
    NonNegProduct(1.0 - t, hi - a);
    NonNegProduct(t, hi - b);
    assert (1.0 - t) * a + t * b - lo == (1.0 - t) * (a - lo) + t * (b - lo);
    assert hi - ((1.0 - t) * a + t * b) == (1.0 - t) * (hi - a) + t * (hi - b);
  }

  /** With a ratio in [0, 1] corner cutting never leaves the polygon's bounding box. */
  lemma {:induction false} ChaikinIterateInBox(s: seq<RPoint>, ratio: real, k: nat, x0: real, x1: real, y0: real, y1: real)
    requires 0.0 <= ratio <= 1.0
    requires InBox(s, x0, x1, y0, y1)
    ensures InBox(ChaikinIterate(s, ratio, k), x0, x1, y0, y1)
  {
    if k > 0 {
      var t := ChaikinIterate(s, ratio, k - 1);
      ChaikinIterateInBox(s, ratio, k - 1, x0, x1, y0, y1);
      CutCornersUpToShape(t, ratio, |t|);
      var r := CutCorners(t, ratio);
      forall j | 0 <= j < |r|
        ensures x0 <= r[j].x <= x1 && y0 <= r[j].y <= y1
      {
        var i := j / 2;
        var n := |t|;
        assert 0 <= (i + 1) % n < n;
        LerpInBox(t[i], t[(i + 1) % n], ratio, x0, x1, y0, y1);
        LerpInBox(t[i], t[(i + 1) % n], 1.0 - ratio, x0, x1, y0, y1);
        assert j == 2 * i || j == 2 * i + 1;
      }
    }
  }

  /** `chaikin_smooth`: fewer than three points are returned as they are. */
  function Chaikin(contour: Contour, iterations: int, ratio: real): Contour
  {
    if |contour| < 3 then contour
    else TruncAll(ChaikinIterate(ToReal(contour), ratio, if iterations > 0 then iterations else 0))
  }

  method ChaikinSmooth(contour: Contour, iterations: int, ratio: real) returns (smoothedContour: Contour)
    ensures smoothedContour == Chaikin(contour, iterations, ratio)
  {
    if |contour| < 3 {
      return contour;
    }
    var rounds := if iterations > 0 then iterations else 0;
    var smoothed := ToReal(contour);
    var iteration := 0;
    while iteration < rounds
      invariant 0 <= iteration <= rounds
      invariant smoothed == ChaikinIterate(ToReal(contour), ratio, iteration)
    {
      var newPoints := [];
      var n := |smoothed|;
      var i := 0;
      while i < n
        invariant 0 <= i <= n
        invariant newPoints == CutCornersUpTo(smoothed, ratio, i)
      {
        var p1 := smoothed[i];
        var p2 := smoothed[(i + 1) % n];
        var q1 := Lerp(p1, p2, ratio);
        var q2 := Lerp(p1, p2, 1.0 - ratio);
        newPoints := newPoints + [q1];
        newPoints := newPoints + [q2];
        i := i + 1;
      }
      smoothed := newPoints;
      iteration := iteration + 1;
    }
    smoothedContour := TruncAll(smoothed);
  }

  /**
   * A contour of three or more points comes back with `n * 2^iterations`
   * points (no iteration for a non-positive count); a shorter one comes
   * back unchanged.
   */
  lemma ChaikinLength(contour: Contour, iterations: int, ratio: real)
    ensures |contour| < 3 ==> Chaikin(contour, iterations, ratio) == contour
    ensures |contour| >= 3 ==>
      |Chaikin(contour, iterations, ratio)| == |contour| * Pow2(if iterations > 0 then iterations else 0)
  {
    ChaikinIterateLength(ToReal(contour), ratio, if iterations > 0 then iterations else 0);
  }

  /** Zero iterations give the contour back: only the integer conversion runs. */
  lemma ChaikinZeroIterations(contour: Contour, ratio: real)
    ensures Chaikin(contour, 0, ratio) == contour
  {
    var r := Chaikin(contour, 0, ratio);
    if |contour| >= 3 {
      forall i | 0 <= i < |contour|
        ensures r[i] == contour[i]
      {
        TruncOfInt(contour[i].x);
        TruncOfInt(contour[i].y);
      }
    }
  }

  /** A smoothed contour stays inside the bounding box of its input points. */
  lemma ChaikinStaysInBox(contour: Contour, iterations: int, ratio: real, x0: int, x1: int, y0: int, y1: int)
    requires 0.0 <= ratio <= 1.0
    requires forall i :: 0 <= i < |contour| ==> x0 <= contour[i].x <= x1 && y0 <= contour[i].y <= y1
    ensures var r := Chaikin(contour, iterations, ratio);
      forall i :: 0 <= i < |r| ==> x0 <= r[i].x <= x1 && y0 <= r[i].y <= y1
  {
    if |contour| >= 3 {
      var k := if iterations > 0 then iterations else 0;
      var s := ChaikinIterate(ToReal(contour), ratio, k);
      ChaikinIterateInBox(ToReal(contour), ratio, k, x0 as real, x1 as real, y0 as real, y1 as real);
      forall i | 0 <= i < |s|
        ensures x0 <= Trunc(s[i].x) <= x1 && y0 <= Trunc(s[i].y) <= y1
      {
        TruncMonotone(x0 as real, s[i].x);
        TruncMonotone(s[i].x, x1 as real);
        TruncMonotone(y0 as real, s[i].y);
        TruncMonotone(s[i].y, y1 as real);
        TruncOfInt(x0);
        TruncOfInt(x1);
        TruncOfInt(y0);
        TruncOfInt(y1);
      }
    }
  }

  // ---------------------------------------------------------------------------
  // adaptive_smooth

  datatype SmoothParams = SmoothParams(iterations: nat, ratio: real, epsilonFactor: real)

  const Light: SmoothParams := SmoothParams(1, 0.2, 0.008)
  const Medium: SmoothParams := SmoothParams(2, 0.25, 0.005)
  const Heavy: SmoothParams := SmoothParams(3, 0.3, 0.003)

  /** `params.get(strength, params['medium'])` */
  function SmoothPreset(strength: string): (p: SmoothParams)
    ensures strength == "light" <==> p == Light
    ensures strength == "heavy" <==> p == Heavy
    ensures strength != "light" && strength != "heavy" <==> p == Medium
  {
    if strength == "light" then Light
    else if strength == "heavy" then Heavy
    else Medium
  }

  /** Every preset cuts corners with a ratio inside (0, 1/2] and a positive tolerance factor. */
  lemma SmoothPresetsAreProper(strength: string)
    ensures var p := SmoothPreset(strength);
      0.0 < p.ratio <= 0.5 && p.epsilonFactor > 0.0 && 1 <= p.iterations <= 3
  {
  }

  /** Simplify first, then smooth, with the parameters of the named preset. */
  method AdaptiveSmooth(geo: Geometry, contour: Contour, strength: string) returns (smoothed: Contour)
    ensures var p := SmoothPreset(strength);
      smoothed == Chaikin(Simplified(geo, contour, p.epsilonFactor), p.iterations, p.ratio)
  {
    var config := SmoothPreset(strength);
    var simplified := geo.approxPolyDP(contour, Tolerance(geo, contour, config.epsilonFactor));
    smoothed := ChaikinSmooth(simplified, config.iterations, config.ratio);
  }

  // ---------------------------------------------------------------------------
  // filter_contours_by_properties

  datatype FilterParams = FilterParams(
    minArea: real,
    maxArea: Option<int>,
    minPerimeter: real,
    minAspect: real,
    maxAspect: real)

  const DefaultFilter: FilterParams := FilterParams(500.0, None, 100.0, 0.1, 10.0)

  /** Python truthiness of `max_area`: neither None nor 0. */
  predicate HasMaxArea(p: FilterParams)
  {
    p.maxArea.Some? && p.maxArea.value != 0
  }

  /** The aspect test, which only a rectangle with both sides positive takes. */
  predicate AspectOk(w: real, h: real, p: FilterParams)
  {
    w > 0.0 && h > 0.0 ==>
      var aspect := MaxR(w / h, h / w);
      p.minAspect <= aspect <= p.maxAspect
  }

  predicate Passes(geo: Geometry, p: FilterParams, c: Contour)
  {
    var area := geo.contourArea(c);
    && area >= p.minArea
    && !(HasMaxArea(p) && area > p.maxArea.value as real)
    && geo.closedArcLength(c) >= p.minPerimeter
    && AspectOk(geo.minAreaRectSize(c).0, geo.minAreaRectSize(c).1, p)
  }

  function PassesFilter(geo: Geometry, p: FilterParams): Contour -> bool
  {
    (c: Contour) => Passes(geo, p, c)
  }

  method FilterByProperties(geo: Geometry, contours: seq<Contour>, p: FilterParams) returns (filtered: seq<Contour>)
    ensures filtered == Filter(contours, PassesFilter(geo, p))
  {
    filtered := [];
    var i := 0;
    while i < |contours|
      invariant 0 <= i <= |contours|
      invariant filtered == Filter(contours[..i], PassesFilter(geo, p))
    {
      assert contours[..i + 1][..i] == contours[..i];
      var contour := contours[i];
      var area := geo.contourArea(contour);
      var perimeter := geo.closedArcLength(contour);
      var (width, height) := geo.minAreaRectSize(contour);
      var keep := true;
      if area < p.minArea {
        keep := false;
      } else if p.maxArea.Some? && p.maxArea.value != 0 && area > p.maxArea.value as real {
        keep := false;
      } else if perimeter < p.minPerimeter {
        keep := false;
      } else if width > 0.0 && height > 0.0 {
        var aspectRatio := MaxR(width / height, height / width);
        if !(p.minAspect <= aspectRatio <= p.maxAspect) {
          keep := false;
        }
      }
      if keep {
        filtered := filtered + [contour];
      }
      i := i + 1;
    }
    assert contours[..|contours|] == contours;
  }

  /**
   * What a kept contour satisfies: area and perimeter bounds, the upper
   * area bound only when one is set, and, for a non-degenerate rectangle,
   * neither side more than `maxAspect` times the other.
   */
  lemma KeptContourBounds(geo: Geometry, p: FilterParams, c: Contour)
    requires Passes(geo, p, c)
    ensures geo.contourArea(c) >= p.minArea
    ensures HasMaxArea(p) ==> geo.contourArea(c) <= p.maxArea.value as real
    ensures geo.closedArcLength(c) >= p.minPerimeter
    ensures var (w, h) := geo.minAreaRectSize(c);
      w > 0.0 && h > 0.0 ==> w / h <= p.maxAspect && h / w <= p.maxAspect
  {
  }

  /** The aspect test does not depend on which side of the rectangle is the width. */
  lemma AspectSymmetric(w: real, h: real, p: FilterParams)
    ensures AspectOk(w, h, p) <==> AspectOk(h, w, p)
  {
  }

  /** A square passes the aspect test exactly when 1 lies in the accepted range. */
  lemma SquareAspect(side: real, p: FilterParams)
    requires side > 0.0
    ensures AspectOk(side, side, p) <==> p.minAspect <= 1.0 <= p.maxAspect
  {
    assert side / side == 1.0;
  }

  /** A zero-width or zero-height rectangle skips the aspect test: size alone decides. */
  lemma DegenerateRectangleKept(geo: Geometry, p: FilterParams, c: Contour)
    requires geo.minAreaRectSize(c).0 <= 0.0 || geo.minAreaRectSize(c).1 <= 0.0
    requires geo.contourArea(c) >= p.minArea && geo.closedArcLength(c) >= p.minPerimeter
    requires !HasMaxArea(p)
    ensures PassesFilter(geo, p)(c)
  {
  }

  /** `max_area` of None and of 0 both mean "no upper limit". */
  lemma ZeroMaxAreaIsNoLimit(geo: Geometry, p: FilterParams, c: Contour)
    ensures Passes(geo, p.(maxArea := Some(0)), c) <==> Passes(geo, p.(maxArea := None), c)
  {
  }

  // ---------------------------------------------------------------------------
  // process_contours

  /** The per-contour policy of the pipeline. */
  function Processed(geo: Geometry, c: Contour, simplify: bool, smooth: bool, strength: string): Contour
  {
    if simplify && smooth then
      var p := SmoothPreset(strength);
      Chaikin(Simplified(geo, c, p.epsilonFactor), p.iterations, p.ratio)
    else if simplify then Simplified(geo, c, DefaultEpsilonFactor)
    else if smooth then Chaikin(c, 2, 0.25)
    else c
  }

  /** The contours the pipeline refines: the extracted ones, filtered on request. */
  function Candidates(geo: Geometry, edges: GrayImage, filterProperties: bool): seq<Contour>
  {
    var extracted := Extracted(geo, edges, DefaultMinContourArea);
    if filterProperties then Filter(extracted, PassesFilter(geo, DefaultFilter)) else extracted
  }

  method ProcessContours(geo: Geometry, edges: GrayImage, simplify: bool, smooth: bool,
                         strength: string, filterProperties: bool)
    returns (processedContours: seq<Contour>)
    ensures Extracted(geo, edges, DefaultMinContourArea) == [] ==> processedContours == []
    ensures var candidates := Candidates(geo, edges, filterProperties);
      && |processedContours| == |candidates|
      && forall i :: 0 <= i < |candidates| ==>
           processedContours[i] == Processed(geo, candidates[i], simplify, smooth, strength)
  {
    var contours := ExtractContours(geo, edges, DefaultMinContourArea);
    if contours == [] {
      return [];
    }
    if filterProperties {
      contours := FilterByProperties(geo, contours, DefaultFilter);
    }
    processedContours := [];
    var i := 0;
    while i < |contours|
      invariant 0 <= i <= |contours|
      invariant |processedContours| == i
      invariant forall k :: 0 <= k < i ==>
        processedContours[k] == Processed(geo, contours[k], simplify, smooth, strength)
    {
      var processed := contours[i];
      if simplify && smooth {
        processed := AdaptiveSmooth(geo, processed, strength);
      } else if simplify {
        processed := geo.approxPolyDP(processed, Tolerance(geo, processed, DefaultEpsilonFactor));
      } else if smooth {
        processed := ChaikinSmooth(processed, 2, 0.25);
      }
      processedContours := processedContours + [processed];
      i := i + 1;
    }
  }

  /** With both steps off the pipeline returns the candidates themselves. */
  lemma NoRefinementIsIdentity(geo: Geometry, c: Contour, strength: string)
    ensures Processed(geo, c, false, false, strength) == c
    ensures Processed(geo, c, false, true, strength) == Chaikin(c, Medium.iterations, Medium.ratio)
    ensures Processed(geo, c, true, false, strength) == Simplified(geo, c, Medium.epsilonFactor)
  {
  }

  // ---------------------------------------------------------------------------
  // get_contour_statistics

  datatype Statistics =
    | CountOnly(count: nat)
    | Summary(count: nat, totalArea: real, meanArea: real, meanPerimeter: real, largestArea: real)

  function Areas(geo: Geometry, contours: seq<Contour>): (areas: seq<real>)
    ensures |areas| == |contours|
  {
    seq(|contours|, i requires 0 <= i < |contours| => geo.contourArea(contours[i]))
  }

  function Perimeters(geo: Geometry, contours: seq<Contour>): (perimeters: seq<real>)
    ensures |perimeters| == |contours|
  {
    seq(|contours|, i requires 0 <= i < |contours| => geo.closedArcLength(contours[i]))
  }

  function ContourStatistics(geo: Geometry, contours: seq<Contour>): (st: Statistics)
    ensures contours == [] <==> st == CountOnly(0)
    ensures st.Summary? ==>
      && st.count == |contours|
      && st.totalArea == Sum(Areas(geo, contours))
      && st.meanArea * (|contours| as real) == st.totalArea
      && st.meanPerimeter * (|contours| as real) == Sum(Perimeters(geo, contours))
      && (forall c :: c in contours ==> geo.contourArea(c) <= st.largestArea)
      && (exists c :: c in contours && geo.contourArea(c) == st.largestArea)
  {
    if contours == [] then CountOnly(0)
    else
      var areas := Areas(geo, contours);
      var largest := ArgMaxFirst(areas);
      assert forall c :: c in contours ==> geo.contourArea(c) <= areas[largest] by {
        forall c | c in contours
          ensures geo.contourArea(c) <= areas[largest]
        {
          var i :| 0 <= i < |contours| && contours[i] == c;
          assert areas[i] == geo.contourArea(c);
        }
      }
      assert geo.contourArea(contours[largest]) == areas[largest];
      var n := |contours| as real;
      Summary(|contours|, Sum(areas), Sum(areas) / n, Sum(Perimeters(geo, contours)) / n, areas[largest])
  }
}
