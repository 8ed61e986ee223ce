/**
 * `SVGGenerator`: a document that grows one group per call. The root `<svg>`
 * element carries the canvas size and a `0 0 w h` view box; each `add_*`
 * call appends a group of `line`, `path` or `circle` elements built from
 * landmarks, mesh connections or contours. Elements are modelled as a tree of
 * tags, attributes and children; the XML text is not.
 */
module Svg {
  import opened Common
  import opened Landmarks
  import opened PathData
  import Wireframe

  /** An attribute value: text, or a number still to be rendered with `str`. */
  datatype Value = Text(s: string) | Int(i: int) | Real(r: real) | Box(viewBox: ViewBox)

  /** `x y width height` of a view box. */
  datatype ViewBox = ViewBox(x: real, y: real, width: real, height: real)

  datatype Node = Node(tag: string, attributes: map<string, Value>, children: seq<Node>)

  /** The `color` and `thickness` entries of a layer's settings dictionary, when present. */
  datatype Style = Style(color: Option<string>, thickness: Option<Value>)

  /** `config.get(key, default)` */
  function Get<T>(entry: Option<T>, default: T): T
  {
    if entry.Some? then entry.value else default
  }

  const SvgNamespace := "http://www.w3.org/2000/svg"

  function RootAttributes(width: nat, height: nat): map<string, Value>
  {
    map["xmlns" := Text(SvgNamespace),
        "width" := Text(IntToString(width)),
        "height" := Text(IntToString(height)),
        "viewBox" := Text("0 0 " + IntToString(width) + " " + IntToString(height))]
  }

  /** The full-size background rectangle. */
  function Background(color: string): Node
  {
    Node("rect", map["width" := Text("100%"), "height" := Text("100%"), "fill" := Text(color)], [])
  }

  /** `_add_line`: one `line` element between two pixel points. */
  function LineNode(id: string, a: Point, b: Point, color: string, thickness: Value): Node
  {
    Node("line", map["id" := Text(id),
                     "x1" := Int(a.x), "y1" := Int(a.y), "x2" := Int(b.x), "y2" := Int(b.y),
                     "stroke" := Text(color), "stroke-width" := thickness], [])
  }

  /** The element is a line drawn along the segment. */
  predicate DrawsSegment(node: Node, s: Segment)
  {
    && node.tag == "line"
    && "x1" in node.attributes && node.attributes["x1"] == Int(s.start.x)
    && "y1" in node.attributes && node.attributes["y1"] == Int(s.start.y)
    && "x2" in node.attributes && node.attributes["x2"] == Int(s.end.x)
    && "y2" in node.attributes && node.attributes["y2"] == Int(s.end.y)
  }

  function Group(id: string, children: seq<Node>): Node
  {
    Node("g", map["id" := Text(id)], children)
  }

  // ---------------------------------------------------------------------------
  // Construction lines

  const DefaultConstructionColor := "#FF0000"
  const DefaultConstructionThickness := Int(2)

  /** `add_line_through_landmarks`: segment `i` of a guide gets the id `{line_id}-{i}`. */
  function GuideLineNodes(points: seq<Point>, lineId: string, color: string, thickness: Value): (lines: seq<Node>)
    ensures |lines| == |Segments(points)|
  {
    var segs := Segments(points);
    seq(|segs|, i requires 0 <= i < |segs| =>
      LineNode(lineId + "-" + IntToString(i), segs[i].start, segs[i].end, color, thickness))
  }

  /** The line elements of the first `n` guides of the table. */
  function ConstructionLinesUpTo(landmarks: seq<Landmark>, width: nat, height: nat, color: string, thickness: Value,
                                 n: nat): seq<Node>
    requires n <= |ConstructionTable|
  {
    if n == 0 then []
    else
      var g := ConstructionTable[n - 1];
      ConstructionLinesUpTo(landmarks, width, height, color, thickness, n - 1)
        + GuideLineNodes(Collected(g.indices, landmarks, width, height), g.svgId, color, thickness)
  }

  function ConstructionGroup(landmarks: seq<Landmark>, width: nat, height: nat, style: Style): Node
  {
    Group("construction-lines",
          ConstructionLinesUpTo(landmarks, width, height, Get(style.color, DefaultConstructionColor),
                                Get(style.thickness, DefaultConstructionThickness), |ConstructionTable|))
  }

  /** Line element `k` runs along the segment of raster stroke `k`, for every `k`. */
  predicate Matches(lines: seq<Node>, strokes: seq<Wireframe.Stroke>)
  {
    && |lines| == |strokes|
    && forall k :: 0 <= k < |lines| ==> strokes[k].LineStroke? && DrawsSegment(lines[k], strokes[k].segment)
  }

  lemma MatchesAppend(lines: seq<Node>, strokes: seq<Wireframe.Stroke>, lines': seq<Node>, strokes': seq<Wireframe.Stroke>)
    requires Matches(lines, strokes) && Matches(lines', strokes')
    ensures Matches(lines + lines', strokes + strokes')
  {
    forall k | 0 <= k < |lines + lines'|
      ensures (strokes + strokes')[k].LineStroke? && DrawsSegment((lines + lines')[k], (strokes + strokes')[k].segment)
    {
      if k >= |lines| {
        assert (lines + lines')[k] == lines'[k - |lines|];
        assert (strokes + strokes')[k] == strokes'[k - |lines|];
      }
    }
  }

  /** One guide's line elements run along the segments of its raster strokes. */
  lemma GuideLinesMatchStrokes(g: GuideLine, landmarks: seq<Landmark>, width: nat, height: nat,
                               color: string, thickness: Value, config: Wireframe.WireframeConfig,
                               lineType: Wireframe.LineType)
    ensures Matches(GuideLineNodes(Collected(g.indices, landmarks, width, height), g.svgId, color, thickness),
                    Wireframe.GuideStrokes(g, landmarks, width, height, config, lineType))
  {
  }

  /**
   * The vector construction lines are the raster ones: for any landmarks the
   * `k`-th line element runs along the segment of the `k`-th raster stroke.
   */
  lemma {:induction false} ConstructionLinesMatchRaster(landmarks: seq<Landmark>, width: nat, height: nat,
                                                        color: string, thickness: Value,
                                                        config: Wireframe.WireframeConfig,
                                                        lineType: Wireframe.LineType, n: nat)
    requires n <= |ConstructionTable|
    ensures Matches(ConstructionLinesUpTo(landmarks, width, height, color, thickness, n),
                    Wireframe.ConstructionStrokesUpTo(landmarks, width, height, config, lineType, n))
  {
    if n > 0 {
      var g := ConstructionTable[n - 1];
      ConstructionLinesMatchRaster(landmarks, width, height, color, thickness, config, lineType, n - 1);
      GuideLinesMatchStrokes(g, landmarks, width, height, color, thickness, config, lineType);
      MatchesAppend(ConstructionLinesUpTo(landmarks, width, height, color, thickness, n - 1),
                    Wireframe.ConstructionStrokesUpTo(landmarks, width, height, config, lineType, n - 1),
                    GuideLineNodes(Collected(g.indices, landmarks, width, height), g.svgId, color, thickness),
                    Wireframe.GuideStrokes(g, landmarks, width, height, config, lineType));
    }
  }

  /** With a full 468-landmark mesh the construction group holds ten lines. */
  lemma FullMeshConstructionLines(landmarks: seq<Landmark>, width: nat, height: nat, style: Style)
    requires |landmarks| >= 468
    ensures |ConstructionGroup(landmarks, width, height, style).children| == 10
  {
    ConstructionLinesMatchRaster(landmarks, width, height, Get(style.color, DefaultConstructionColor),
                                 Get(style.thickness, DefaultConstructionThickness), Wireframe.DefaultConfig,
                                 Wireframe.Line8, |ConstructionTable|);
    Wireframe.FullMeshStrokeCount(landmarks, width, height, Wireframe.DefaultConfig, Wireframe.Line8);
  }

  /** Segment ids within one guide are distinct. */
  lemma GuideLineIdsDistinct(points: seq<Point>, lineId: string, color: string, thickness: Value, i: nat, j: nat)
    requires i < j < |GuideLineNodes(points, lineId, color, thickness)|
    ensures GuideLineNodes(points, lineId, color, thickness)[i].attributes["id"]
            != GuideLineNodes(points, lineId, color, thickness)[j].attributes["id"]
  {
    GuideLineIdIs(points, lineId, color, thickness, i);
    GuideLineIdIs(points, lineId, color, thickness, j);
    NumberedIdsDistinct(lineId + "-", i, j);
  }

  lemma GuideLineIdIs(points: seq<Point>, lineId: string, color: string, thickness: Value, i: nat)
    requires i < |GuideLineNodes(points, lineId, color, thickness)|
    ensures GuideLineNodes(points, lineId, color, thickness)[i].attributes["id"] == Text(lineId + "-" + IntToString(i))
  {
  }

  /** Ids made of one prefix and different numbers differ. */
  lemma NumberedIdsDistinct(prefix: string, i: nat, j: nat)
    requires i != j
    ensures prefix + IntToString(i) != prefix + IntToString(j)
  {
    if IntToString(i) == IntToString(j) {
      IntToStringInjective(i, j);
    }
    assert (prefix + IntToString(i))[|prefix|..] == IntToString(i);
    assert (prefix + IntToString(j))[|prefix|..] == IntToString(j);
  }

  // ---------------------------------------------------------------------------
  // Face mesh

  const DefaultMeshColor := "#00FF00"
  const DefaultMeshThickness := Int(1)

  /** `mesh-{a}-{b}` */
  function MeshId(a: nat, b: nat): string
  {
    "mesh-" + IntToString(a) + "-" + IntToString(b)
  }

  /** Both ends of a connection name existing landmarks. */
  function ConnectionInRange(landmarks: seq<Landmark>): ((nat, nat)) -> bool
  {
    (c: (nat, nat)) => c.0 < |landmarks| && c.1 < |landmarks|
  }

  function MeshLines(landmarks: seq<Landmark>, connections: seq<(nat, nat)>, width: nat, height: nat,
                     color: string, thickness: Value): (lines: seq<Node>)
    ensures |lines| == Count(connections, ConnectionInRange(landmarks))
  {
    if connections == [] then []
    else
      var c := connections[|connections| - 1];
      MeshLines(landmarks, connections[..|connections| - 1], width, height, color, thickness)
        + (if c.0 < |landmarks| && c.1 < |landmarks|
           then [LineNode(MeshId(c.0, c.1), PixelCoords(landmarks[c.0], width, height),
                          PixelCoords(landmarks[c.1], width, height), color, thickness)]
           else [])
  }

  function MeshGroup(landmarks: seq<Landmark>, connections: seq<(nat, nat)>, width: nat, height: nat, style: Style): Node
  {
    Group("face-mesh", MeshLines(landmarks, connections, width, height, Get(style.color, DefaultMeshColor),
                                 Get(style.thickness, DefaultMeshThickness)))
  }

  lemma DigitsHaveNoDash(n: nat)
    ensures '-' !in NatToString(n)
  {
    NatToStringDigits(n);
  }

  /** In `s + "-" + t` with `s` and `s'` free of dashes, equal strings split at the same place. */
  lemma SplitAtDash(s: string, t: string, s': string, t': string)
    requires '-' !in s && '-' !in s'
    requires s + "-" + t == s' + "-" + t'
    ensures s == s' && t == t'
  {
    var x := s + "-" + t;
    assert x[|s|] == '-';
    assert x[|s'|] == '-';
    assert s == x[..|s|] == s';
    assert t == x[|s| + 1..] == t';
  }

  /** A mesh id names its connection: different connections get different ids. */
  lemma MeshIdInjective(a: nat, b: nat, c: nat, d: nat)
    requires MeshId(a, b) == MeshId(c, d)
    ensures a == c && b == d
  {
    var sa, sb, sc, sd := IntToString(a), IntToString(b), IntToString(c), IntToString(d);
    DigitsHaveNoDash(a);
    DigitsHaveNoDash(c);
    MeshIdTail(a, b);
    MeshIdTail(c, d);
    SplitAtDash(sa, sb, sc, sd);
    IntToStringInjective(a, c);
    IntToStringInjective(b, d);
  }

  /** After the five characters of `mesh-` come the two numbers and the dash between them. */
  lemma MeshIdTail(a: nat, b: nat)
    ensures MeshId(a, b)[5..] == IntToString(a) + "-" + IntToString(b)
  {
    var prefix, sa, sb := "mesh-", IntToString(a), IntToString(b);
    SeqAssoc(prefix, sa, "-");
    SeqAssoc(prefix, sa + "-", sb);
    assert MeshId(a, b) == prefix + (sa + "-" + sb);
    assert |prefix| == 5;
    assert (prefix + (sa + "-" + sb))[|prefix|..] == sa + "-" + sb;
  }

  // ---------------------------------------------------------------------------
  // Edge outline

  const DefaultEdgeColor := "#0000FF"
  const DefaultEdgeThickness := Int(1)

  /** The `edge-outline` group: empty below two points, else one open path through them. */
  function EdgeOutlineGroup(points: seq<Point>, style: Style): (g: Node)
  {
    Group("edge-outline",
      if |points| < 2 then []
      else [Node("path", map["id" := Text("edge-path"),
                             "stroke" := Text(Get(style.color, DefaultEdgeColor)),
                             "stroke-width" := Get(style.thickness, DefaultEdgeThickness),
                             "fill" := Text("none"),
                             "d" := Text(Serialize(Polyline(points, false), Space))], [])])
  }

  /** The edge path reads back as the points it was built from, in order. */
  lemma EdgePathRoundTrip(points: seq<Point>, style: Style)
    requires |points| >= 2
    ensures var path := EdgeOutlineGroup(points, style).children[0];
      && path.attributes["d"].Text?
      && Parse(path.attributes["d"].s, Space) == Some(Polyline(points, false))
  {
    ParseSerialize(Polyline(points, false), Space);
  }

  // ---------------------------------------------------------------------------
  // DexiNed outline

  const DefaultDexinedColor := "#000000"
  const DefaultDexinedThickness := Real(1.5)

  /** More than six points, with the ends less than five pixels apart in both directions. */
  predicate ClosesShape(points: seq<Point>)
  {
    |points| > 6 && Abs(points[0].x - points[|points| - 1].x) < 5 && Abs(points[0].y - points[|points| - 1].y) < 5
  }

  function ContourPathWith(index: nat, pathData: string, color: string, thickness: Value): Node
  {
    Node("path", map["id" := Text("contour-" + IntToString(index)),
                     "stroke" := Text(color), "stroke-width" := thickness, "fill" := Text("none"),
                     "stroke-linecap" := Text("round"), "stroke-linejoin" := Text("round"),
                     "d" := Text(pathData)], [])
  }

  function ContourPath(index: nat, points: seq<Point>, color: string, thickness: Value): Node
    requires |points| >= 1
  {
    ContourPathWith(index, Serialize(Polyline(points, ClosesShape(points)), Space), color, thickness)
  }

  function HasFourPoints(): seq<Point> -> bool
  {
    (c: seq<Point>) => |c| >= 4
  }

  /** One path per contour of four or more points, numbered by its position among all contours. */
  function ContourPaths(contours: seq<seq<Point>>, color: string, thickness: Value): (paths: seq<Node>)
    ensures |paths| == Count(contours, HasFourPoints())
  {
    if contours == [] then []
    else
      var i := |contours| - 1;
      ContourPaths(contours[..i], color, thickness)
        + (if |contours[i]| >= 4 then [ContourPath(i, contours[i], color, thickness)] else [])
  }

  lemma ContourPathsStep(contours: seq<seq<Point>>, color: string, thickness: Value, i: nat)
    requires i < |contours|
    ensures ContourPaths(contours[..i + 1], color, thickness)
         == ContourPaths(contours[..i], color, thickness)
            + (if |contours[i]| >= 4 then [ContourPath(i, contours[i], color, thickness)] else [])
  {
    assert contours[..i + 1][..i] == contours[..i];
  }

  /** Every path is the path of a contour of four or more points, numbered by that contour's position. */
  lemma {:induction false} ContourPathsFromContours(contours: seq<seq<Point>>, color: string, thickness: Value, j: nat)
    requires j < |ContourPaths(contours, color, thickness)|
    ensures exists i :: (0 <= i < |contours| && |contours[i]| >= 4
      && ContourPaths(contours, color, thickness)[j] == ContourPath(i, contours[i], color, thickness))
  {
    var n := |contours| - 1;
    var before := ContourPaths(contours[..n], color, thickness);
    if j < |before| {
      ContourPathsFromContours(contours[..n], color, thickness, j);
      var i :| 0 <= i < n && |contours[..n][i]| >= 4
        && before[j] == ContourPath(i, contours[..n][i], color, thickness);
      assert contours[..n][i] == contours[i];
    } else {
      assert |contours[n]| >= 4;
    }
  }

  function DexinedGroup(contours: seq<seq<Point>>, style: Style): Node
  {
    Group("dexined-outline", ContourPaths(contours, Get(style.color, DefaultDexinedColor),
                                          Get(style.thickness, DefaultDexinedThickness)))
  }

  /** A contour path reads back as its points, closed exactly under the five-pixel rule. */
  lemma ContourPathRoundTrip(index: nat, points: seq<Point>, color: string, thickness: Value)
    requires |points| >= 4
    ensures var d := ContourPath(index, points, color, thickness).attributes["d"];
      d.Text? && Parse(d.s, Space) == Some(Polyline(points, ClosesShape(points)))
  {
    var commands := Polyline(points, ClosesShape(points));
    ParseSerialize(commands, Space);
    assert ContourPath(index, points, color, thickness).attributes["d"] == Text(Serialize(commands, Space));
  }

  /** Contour ids name positions: two paths with the same id come from the same contour. */
  lemma ContourIdInjective(i: nat, j: nat)
    requires "contour-" + IntToString(i) == "contour-" + IntToString(j)
    ensures i == j
  {
    assert ("contour-" + IntToString(i))[8..] == IntToString(i);
    assert ("contour-" + IntToString(j))[8..] == IntToString(j);
    IntToStringInjective(i, j);
  }

  // ---------------------------------------------------------------------------
  // Pose

  /** The pose settings dictionary: each entry optional, with the defaults `add_pose_landmarks` uses. */
  datatype PoseStyle = PoseStyle(
    lineColor: Option<string>,
    pointColor: Option<string>,
    lineThickness: Option<Value>,
    pointRadius: Option<Value>,
    connections: Option<seq<(nat, nat)>>,
    excludedLandmarks: Option<set<nat>>)

  /** A connection is drawn when neither end is excluded and both ends exist. */
  function ConnectionDrawn(pose: seq<Landmark>, excluded: set<nat>): ((nat, nat)) -> bool
  {
    (c: (nat, nat)) => c.0 !in excluded && c.1 !in excluded && c.0 < |pose| && c.1 < |pose|
  }

  function PoseLine(a: Landmark, b: Landmark, width: nat, height: nat, color: string, thickness: Value): Node
  {
    Node("line", map["x1" := Real(a.x * width as real), "y1" := Real(a.y * height as real),
                     "x2" := Real(b.x * width as real), "y2" := Real(b.y * height as real),
                     "stroke" := Text(color), "stroke-width" := thickness,
                     "stroke-linecap" := Text("round"), "stroke-linejoin" := Text("round")], [])
  }

  function PoseLines(pose: seq<Landmark>, connections: seq<(nat, nat)>, excluded: set<nat>, width: nat, height: nat,
                     color: string, thickness: Value): (lines: seq<Node>)
    ensures |lines| == Count(connections, ConnectionDrawn(pose, excluded))
  {
    if connections == [] then []
    else
      var c := connections[|connections| - 1];
      PoseLines(pose, connections[..|connections| - 1], excluded, width, height, color, thickness)
        + (if c.0 !in excluded && c.1 !in excluded && c.0 < |pose| && c.1 < |pose|
           then [PoseLine(pose[c.0], pose[c.1], width, height, color, thickness)]
           else [])
  }

  function PosePoint(lm: Landmark, width: nat, height: nat, color: string, radius: Value): Node
  {
    Node("circle", map["cx" := Real(lm.x * width as real), "cy" := Real(lm.y * height as real),
                       "r" := radius, "fill" := Text(color), "stroke" := Text("none")], [])
  }

  /** The indices of landmarks not excluded. */
  function IncludedIndices(n: nat, excluded: set<nat>): (indices: seq<nat>)
    ensures forall k :: 0 <= k < |indices| ==> indices[k] < n && indices[k] !in excluded
    ensures forall i :: 0 <= i < n && i !in excluded ==> i in indices
  {
    if n == 0 then []
    else IncludedIndices(n - 1, excluded) + (if n - 1 !in excluded then [n - 1] else [])
  }

  function PosePoints(pose: seq<Landmark>, excluded: set<nat>, width: nat, height: nat, color: string, radius: Value)
    : (points: seq<Node>)
  {
    PointsAt(pose, IncludedIndices(|pose|, excluded), width, height, color, radius)
  }

  /** The circle of each listed landmark, in the order listed. */
  function PointsAt(pose: seq<Landmark>, indices: seq<nat>, width: nat, height: nat, color: string, radius: Value)
    : (points: seq<Node>)
    requires forall k :: 0 <= k < |indices| ==> indices[k] < |pose|
    ensures |points| == |indices|
  {
    seq(|indices|, k requires 0 <= k < |indices| => PosePoint(pose[indices[k]], width, height, color, radius))
  }

  lemma PointsAtSnoc(pose: seq<Landmark>, indices: seq<nat>, i: nat, width: nat, height: nat, color: string,
                     radius: Value)
    requires forall k :: 0 <= k < |indices| ==> indices[k] < |pose|
    requires i < |pose|
    ensures PointsAt(pose, indices + [i], width, height, color, radius)
         == PointsAt(pose, indices, width, height, color, radius) + [PosePoint(pose[i], width, height, color, radius)]
  {
    var longer := PointsAt(pose, indices + [i], width, height, color, radius);
    var shorter := PointsAt(pose, indices, width, height, color, radius);
    forall k | 0 <= k < |indices|
      ensures longer[k] == shorter[k]
    {
      assert (indices + [i])[k] == indices[k];
    }
    assert longer[|indices|] == PosePoint(pose[i], width, height, color, radius);
  }

  function PoseGroup(pose: seq<Landmark>, width: nat, height: nat, style: PoseStyle): Node
  {
    var excluded := Get(style.excludedLandmarks, {});
    Node("g", map["id" := Text("pose-landmarks"), "class" := Text("wireframe-pose")], [
      Group("pose-connections",
            PoseLines(pose, Get(style.connections, []), excluded, width, height,
                      Get(style.lineColor, "rgb(255, 165, 0)"), Get(style.lineThickness, Int(2)))),
      Group("pose-points",
            PosePoints(pose, excluded, width, height, Get(style.pointColor, "rgb(255, 0, 0)"),
                       Get(style.pointRadius, Int(4))))
    ])
  }

  /** Without exclusions every pose landmark gets one circle, in landmark order. */
  lemma {:induction false} NothingExcludedEveryPoint(n: nat)
    ensures IncludedIndices(n, {}) == seq(n, i requires 0 <= i < n => i)
  {
    if n > 0 {
      NothingExcludedEveryPoint(n - 1);
    }
  }

  // ---------------------------------------------------------------------------
  // Zoom

  /**
   * `get_viewbox_for_zoom`: a box `1/zoom` the size of the canvas centred on
   * the normalised point, pushed back inside the canvas; no box when the zoom
   * factor is zero (the division raises).
   */
  function ZoomViewBox(width: nat, height: nat, zoom: real, centerX: real, centerY: real): (v: Option<ViewBox>)
    ensures v.None? <==> zoom == 0.0
    ensures v.Some? ==>
      && v.value.width * zoom == width as real && v.value.height * zoom == height as real
      && 0.0 <= v.value.x && 0.0 <= v.value.y
      && v.value.x <= MaxR(0.0, width as real - v.value.width)
      && v.value.y <= MaxR(0.0, height as real - v.value.height)
  {
    if zoom == 0.0 then None
    else
      var zoomedWidth := width as real / zoom;
      var zoomedHeight := height as real / zoom;
      var x := centerX * width as real - zoomedWidth / 2.0;
      var y := centerY * height as real - zoomedHeight / 2.0;
      Some(ViewBox(MaxR(0.0, MinR(x, width as real - zoomedWidth)), MaxR(0.0, MinR(y, height as real - zoomedHeight)),
                   zoomedWidth, zoomedHeight))
  }

  /** Zooming in keeps the box inside the canvas, and a centre far enough in is kept. */
  lemma ZoomInStaysOnCanvas(width: nat, height: nat, zoom: real, centerX: real, centerY: real)
    requires zoom >= 1.0
    ensures var v := ZoomViewBox(width, height, zoom, centerX, centerY).value;
      && v.width <= width as real && v.height <= height as real
      && v.x + v.width <= width as real && v.y + v.height <= height as real
      && (0.0 <= centerX * width as real - v.width / 2.0 <= width as real - v.width
          ==> v.x == centerX * width as real - v.width / 2.0)
  {
    var v := ZoomViewBox(width, height, zoom, centerX, centerY).value;
    assert v.width <= width as real by {
      NonNegScaleDown(width as real, zoom, v.width);
    }
    assert v.height <= height as real by {
      NonNegScaleDown(height as real, zoom, v.height);
    }
  }

  lemma NonNegScaleDown(size: real, zoom: real, scaled: real)
    requires size >= 0.0 && zoom >= 1.0 && scaled * zoom == size
    ensures 0.0 <= scaled <= size
  {
    assert scaled == size / zoom;
    var excess := zoom - 1.0;
    assert size - scaled == scaled * excess;
    NonNegProduct(scaled, excess);
  }

  /** A zoom factor of one frames the whole canvas. */
  lemma UnitZoomIsWholeCanvas(width: nat, height: nat, centerX: real, centerY: real)
    ensures ZoomViewBox(width, height, 1.0, centerX, centerY) == Some(ViewBox(0.0, 0.0, width as real, height as real))
  {
  }

  // ---------------------------------------------------------------------------
  // The element-building loops

  /** The segment loop of `add_line_through_landmarks`. */
  method GuideSegments(points: seq<Point>, lineId: string, color: string, thickness: Value)
    returns (lines: seq<Node>)
    ensures lines == GuideLineNodes(points, lineId, color, thickness)
  {
    lines := [];
    var i := 0;
    while i < |points| - 1
      invariant 0 <= i <= Max(0, |points| - 1)
      invariant lines == GuideLineNodes(points, lineId, color, thickness)[..i]
    {
      var node := LineNode(lineId + "-" + IntToString(i), points[i], points[i + 1], color, thickness);
      GuideLineNodesStep(points, lineId, color, thickness, i);
      lines := lines + [node];
      i := i + 1;
    }
  }

  lemma GuideLineNodesStep(points: seq<Point>, lineId: string, color: string, thickness: Value, i: nat)
    requires i < |points| - 1
    ensures GuideLineNodes(points, lineId, color, thickness)[..i + 1]
         == GuideLineNodes(points, lineId, color, thickness)[..i]
            + [LineNode(lineId + "-" + IntToString(i), points[i], points[i + 1], color, thickness)]
  {
    GuideLineNodeAt(points, lineId, color, thickness, i);
    PrefixSnoc(GuideLineNodes(points, lineId, color, thickness), i);
  }

  lemma GuideLineNodeAt(points: seq<Point>, lineId: string, color: string, thickness: Value, i: nat)
    requires i < |points| - 1
    ensures GuideLineNodes(points, lineId, color, thickness)[i]
         == LineNode(lineId + "-" + IntToString(i), points[i], points[i + 1], color, thickness)
  {
    assert Segments(points)[i] == Segment(points[i], points[i + 1]);
  }

  lemma ConstructionLinesStep(landmarks: seq<Landmark>, width: nat, height: nat, color: string, thickness: Value, g: nat)
    requires g < |ConstructionTable|
    ensures ConstructionLinesUpTo(landmarks, width, height, color, thickness, g + 1)
         == ConstructionLinesUpTo(landmarks, width, height, color, thickness, g)
            + GuideLineNodes(Collected(ConstructionTable[g].indices, landmarks, width, height),
                             ConstructionTable[g].svgId, color, thickness)
  {
  }

  /** The guide loop of `add_construction_lines`. */
  method BuildConstructionLines(landmarks: seq<Landmark>, width: nat, height: nat, color: string, thickness: Value)
    returns (lines: seq<Node>)
    ensures lines == ConstructionLinesUpTo(landmarks, width, height, color, thickness, |ConstructionTable|)
  {
    lines := [];
    var g := 0;
    while g < |ConstructionTable|
      invariant 0 <= g <= |ConstructionTable|
      invariant lines == ConstructionLinesUpTo(landmarks, width, height, color, thickness, g)
    {
      var guide := ConstructionTable[g];
      var points := CollectPoints(guide.indices, landmarks, width, height);
      var guideLines := GuideSegments(points, guide.svgId, color, thickness);
      ConstructionLinesStep(landmarks, width, height, color, thickness, g);
      lines := lines + guideLines;
      g := g + 1;
    }
  }

  lemma MeshLinesStep(landmarks: seq<Landmark>, connections: seq<(nat, nat)>, width: nat, height: nat,
                      color: string, thickness: Value, i: nat)
    requires i < |connections|
    ensures var c := connections[i];
      MeshLines(landmarks, connections[..i + 1], width, height, color, thickness)
      == MeshLines(landmarks, connections[..i], width, height, color, thickness)
         + (if c.0 < |landmarks| && c.1 < |landmarks|
            then [LineNode(MeshId(c.0, c.1), PixelCoords(landmarks[c.0], width, height),
                           PixelCoords(landmarks[c.1], width, height), color, thickness)]
            else [])
  {
    assert connections[..i + 1][..i] == connections[..i];
  }

  /** The connection loop of `add_face_mesh`, over pixel coordinates computed once. */
  method BuildMeshLines(landmarks: seq<Landmark>, connections: seq<(nat, nat)>, width: nat, height: nat,
                        color: string, thickness: Value)
    returns (lines: seq<Node>)
    ensures lines == MeshLines(landmarks, connections, width, height, color, thickness)
  {
    var pixels := seq(|landmarks|, k requires 0 <= k < |landmarks| => PixelCoords(landmarks[k], width, height));
    lines := [];
    var i := 0;
    while i < |connections|
      invariant 0 <= i <= |connections|
      invariant lines == MeshLines(landmarks, connections[..i], width, height, color, thickness)
    {
      MeshLinesStep(landmarks, connections, width, height, color, thickness, i);
      var (a, b) := connections[i];
      if a < |pixels| && b < |pixels| {
        assert pixels[a] == PixelCoords(landmarks[a], width, height);
        assert pixels[b] == PixelCoords(landmarks[b], width, height);
        lines := lines + [LineNode(MeshId(a, b), pixels[a], pixels[b], color, thickness)];
      }
      i := i + 1;
    }
    assert connections[..i] == connections;
  }

  /** The path text of one DexiNed contour: the open path, then ` Z` under the closing rule. */
  method ContourPathData(points: seq<Point>) returns (pathData: string)
    requires |points| >= 1
    ensures pathData == Serialize(Polyline(points, ClosesShape(points)), Space)
  {
    pathData := OpenPathData(points, Space);
    if |points| > 6 && Abs(points[0].x - points[|points| - 1].x) < 5 && Abs(points[0].y - points[|points| - 1].y) < 5 {
      PathDataClose(points, Space);
      pathData := pathData + " Z";
    }
  }

  /** The contour loop of `add_dexined_outline`. */
  method BuildContourPaths(contours: seq<seq<Point>>, color: string, thickness: Value) returns (paths: seq<Node>)
    ensures paths == ContourPaths(contours, color, thickness)
  {
    paths := [];
    var i := 0;
    while i < |contours|
      invariant 0 <= i <= |contours|
      invariant paths == ContourPaths(contours[..i], color, thickness)
    {
      ContourPathsStep(contours, color, thickness, i);
      var points := contours[i];
      if |points| >= 4 {
        var pathData := ContourPathData(points);
        paths := paths + [ContourPathWith(i, pathData, color, thickness)];
      }
      i := i + 1;
    }
    assert contours[..i] == contours;
  }

  /** The connection loop of `add_pose_landmarks`. */
  method BuildPoseLines(pose: seq<Landmark>, connections: seq<(nat, nat)>, excluded: set<nat>, width: nat, height: nat,
                        color: string, thickness: Value)
    returns (lines: seq<Node>)
    ensures lines == PoseLines(pose, connections, excluded, width, height, color, thickness)
  {
    lines := [];
    var i := 0;
    while i < |connections|
      invariant 0 <= i <= |connections|
      invariant lines == PoseLines(pose, connections[..i], excluded, width, height, color, thickness)
    {
      assert connections[..i + 1][..i] == connections[..i];
      var (a, b) := connections[i];
      if !(a in excluded || b in excluded || a >= |pose| || b >= |pose|) {
        lines := lines + [PoseLine(pose[a], pose[b], width, height, color, thickness)];
      }
      i := i + 1;
    }
    assert connections[..i] == connections;
  }

  /** The landmark loop of `add_pose_landmarks`. */
  method BuildPosePoints(pose: seq<Landmark>, excluded: set<nat>, width: nat, height: nat, color: string, radius: Value)
    returns (points: seq<Node>)
    ensures points == PosePoints(pose, excluded, width, height, color, radius)
  {
    points := [];
    var k := 0;
    while k < |pose|
      invariant 0 <= k <= |pose|
      invariant points == PointsAt(pose, IncludedIndices(k, excluded), width, height, color, radius)
    {
      if k !in excluded {
        PointsAtSnoc(pose, IncludedIndices(k, excluded), k, width, height, color, radius);
        points := points + [PosePoint(pose[k], width, height, color, radius)];
      }
      k := k + 1;
    }
  }

  // ---------------------------------------------------------------------------
  // The generator

  class SvgGenerator {
    const width: nat
    const height: nat
    const backgroundColor: string
    /** The children of the root `<svg>` element, in insertion order. */
    var children: seq<Node>

    /** The root `<svg>` element as it stands. */
    function Root(): Node
      reads this
    {
      Node("svg", RootAttributes(width, height), children)
    }

    /** `__init__` and `_create_svg_root`: a background rectangle only for a non-empty colour. */
    constructor (width: nat, height: nat, backgroundColor: string)
      ensures this.width == width && this.height == height && this.backgroundColor == backgroundColor
      ensures children == if backgroundColor != "" then [Background(backgroundColor)] else []
    {
      this.width := width;
      this.height := height;
      this.backgroundColor := backgroundColor;
      if backgroundColor != "" {
        children := [Background(backgroundColor)];
      } else {
        children := [];
      }
    }

    method AddConstructionLines(landmarks: seq<Landmark>, style: Style)
      modifies this
      ensures children == old(children) + [ConstructionGroup(landmarks, width, height, style)]
    {
      var lines := BuildConstructionLines(landmarks, width, height, Get(style.color, DefaultConstructionColor),
                                          Get(style.thickness, DefaultConstructionThickness));
      children := children + [Group("construction-lines", lines)];
    }

    method AddFaceMesh(landmarks: seq<Landmark>, connections: seq<(nat, nat)>, style: Style)
      modifies this
      ensures children == old(children) + [MeshGroup(landmarks, connections, width, height, style)]
    {
      var lines := BuildMeshLines(landmarks, connections, width, height, Get(style.color, DefaultMeshColor),
                                  Get(style.thickness, DefaultMeshThickness));
      children := children + [Group("face-mesh", lines)];
    }

    method AddEdgeOutline(points: seq<Point>, style: Style)
      modifies this
      ensures children == old(children) + [EdgeOutlineGroup(points, style)]
    {
      if |points| < 2 {
        children := children + [Group("edge-outline", [])];
        return;
      }
      var pathData := OpenPathData(points, Space);
      var path := Node("path", map["id" := Text("edge-path"),
                                   "stroke" := Text(Get(style.color, DefaultEdgeColor)),
                                   "stroke-width" := Get(style.thickness, DefaultEdgeThickness),
                                   "fill" := Text("none"),
                                   "d" := Text(pathData)], []);
      children := children + [Group("edge-outline", [path])];
    }

    method AddDexinedOutline(contours: seq<seq<Point>>, style: Style)
      modifies this
      ensures children == old(children) + [DexinedGroup(contours, style)]
    {
      var paths := BuildContourPaths(contours, Get(style.color, DefaultDexinedColor),
                                     Get(style.thickness, DefaultDexinedThickness));
      children := children + [Group("dexined-outline", paths)];
    }

    method AddPoseLandmarks(pose: seq<Landmark>, style: PoseStyle)
      modifies this
      ensures pose == [] ==> children == old(children)
      ensures pose != [] ==> children == old(children) + [PoseGroup(pose, width, height, style)]
    {
      if |pose| == 0 {
        return;
      }
      var excluded := Get(style.excludedLandmarks, {});
      var lines := BuildPoseLines(pose, Get(style.connections, []), excluded, width, height,
                                  Get(style.lineColor, "rgb(255, 165, 0)"), Get(style.lineThickness, Int(2)));
      var points := BuildPosePoints(pose, excluded, width, height, Get(style.pointColor, "rgb(255, 0, 0)"),
                                    Get(style.pointRadius, Int(4)));
      children := children + [Node("g", map["id" := Text("pose-landmarks"), "class" := Text("wireframe-pose")], [
        Group("pose-connections", lines),
        Group("pose-points", points)
      ])];
    }

    /** `get_viewbox_for_zoom` on this canvas. */
    function ViewBoxForZoom(zoom: real, centerX: real, centerY: real): Option<ViewBox>
    {
      ZoomViewBox(width, height, zoom, centerX, centerY)
    }

    /** `create_zoomed_version`: a copy of the root with the zoomed view box; the document itself is not changed. */
    method CreateZoomedVersion(zoom: real, centerX: real, centerY: real) returns (zoomed: Option<Node>)
      ensures zoom == 0.0 <==> zoomed.None?
      ensures zoomed.Some? ==>
        && zoomed.value.children == children
        && zoomed.value.attributes == RootAttributes(width, height)["viewBox" := Box(ViewBoxForZoom(zoom, centerX, centerY).value)]
    {
      var copy := Root();
      var viewBox := ViewBoxForZoom(zoom, centerX, centerY);
      if viewBox.None? {
        return None;
      }
      zoomed := Some(copy.(attributes := copy.attributes["viewBox" := Box(viewBox.value)]));
    }
  }

  // ---------------------------------------------------------------------------
  // Presets

  datatype LayerSettings = LayerSettings(enabled: bool, color: string, thickness: int, opacity: real)

  datatype CanvasSettings = CanvasSettings(backgroundColor: string, width: nat, height: nat)

  datatype Metadata = Metadata(generator: string, version: string, createdAt: string, zoomCapable: bool)

  /** `SVGWireframeConfig` */
  datatype SvgWireframeConfig = SvgWireframeConfig(
    constructionLines: LayerSettings,
    faceMesh: LayerSettings,
    edgeOutline: LayerSettings,
    dexinedOutline: LayerSettings,
    canvas: CanvasSettings,
    metadata: Metadata)

  const DefaultSvgConfig := SvgWireframeConfig(
    LayerSettings(true, "#FF0000", 2, 0.8),
    LayerSettings(true, "#00FF00", 1, 0.6),
    LayerSettings(true, "#0000FF", 1, 0.8),
    LayerSettings(true, "#800080", 2, 0.9),
    CanvasSettings("white", 1920, 1080),
    Metadata("Wireframe Portrait Processor", "1.0", "", true))

  /** Construction lines only, drawn thicker. */
  function BeginnerPreset(): SvgWireframeConfig
  {
    var c := DefaultSvgConfig;
    c.(faceMesh := c.faceMesh.(enabled := false),
       edgeOutline := c.edgeOutline.(enabled := false),
       dexinedOutline := c.dexinedOutline.(enabled := false),
       constructionLines := c.constructionLines.(thickness := 3))
  }

  /** Construction lines and face mesh. */
  function IntermediatePreset(): SvgWireframeConfig
  {
    var c := DefaultSvgConfig;
    c.(edgeOutline := c.edgeOutline.(enabled := false), dexinedOutline := c.dexinedOutline.(enabled := false))
  }

  function AdvancedPreset(): SvgWireframeConfig
  {
    DefaultSvgConfig
  }

  /** A 3439 x 2480 canvas with thicker construction, mesh and outline strokes. */
  function PrintQualityPreset(): SvgWireframeConfig
  {
    var c := DefaultSvgConfig;
    c.(canvas := c.canvas.(width := 3439, height := 2480),
       constructionLines := c.constructionLines.(thickness := 4),
       faceMesh := c.faceMesh.(thickness := 2),
       dexinedOutline := c.dexinedOutline.(thickness := 3))
  }

  function EnabledLayers(c: SvgWireframeConfig): (layers: set<string>)
    ensures layers <= {"construction", "mesh", "edge", "dexined"}
  {
    (if c.constructionLines.enabled then {"construction"} else {})
    + (if c.faceMesh.enabled then {"mesh"} else {})
    + (if c.edgeOutline.enabled then {"edge"} else {})
    + (if c.dexinedOutline.enabled then {"dexined"} else {})
  }

  /**
   * Each preset adds layers to the one before; print quality draws everything
   * and never thinner than the defaults, and no preset changes a colour.
   */
  lemma PresetLayers()
    ensures EnabledLayers(BeginnerPreset()) == {"construction"}
    ensures EnabledLayers(IntermediatePreset()) == {"construction", "mesh"}
    ensures EnabledLayers(AdvancedPreset()) == {"construction", "mesh", "edge", "dexined"}
    ensures EnabledLayers(PrintQualityPreset()) == EnabledLayers(AdvancedPreset())
    ensures PrintQualityPreset().constructionLines.thickness >= DefaultSvgConfig.constructionLines.thickness
    ensures PrintQualityPreset().faceMesh.thickness >= DefaultSvgConfig.faceMesh.thickness
    ensures PrintQualityPreset().dexinedOutline.thickness >= DefaultSvgConfig.dexinedOutline.thickness
    ensures forall c :: c in [BeginnerPreset(), IntermediatePreset(), AdvancedPreset(), PrintQualityPreset()] ==>
      c.constructionLines.color == "#FF0000" && c.faceMesh.color == "#00FF00"
      && c.edgeOutline.color == "#0000FF" && c.dexinedOutline.color == "#800080"
  {
  }
}
