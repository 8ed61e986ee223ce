/**
 * `WireframePortraitProcessor` and its helpers: construction lines and face
 * mesh drawn onto a white canvas, the outline overlaid pixel by pixel (only
 * pixels that are not pure white are copied), the outline colourisation, the
 * background-removal strategies that turn the canvas into RGBA, and the
 * preset configurations.
 *
 * OpenCV and MediaPipe primitives (line and connection drawing, grey
 * conversion, Canny, resizing, the filled and eroded face polygon) are fields
 * of a `Raster` record, given per pixel so that each result has the shape of
 * the image it was drawn on.
 */
module Wireframe {
  import opened Common
  import opened Landmarks
  import ContourRefine

  // ---------------------------------------------------------------------------
  // Configuration

  datatype ConstructionColors = ConstructionColors(
    verticalCenter: Rgb, eyebrowLine: Rgb, eyeLines: Rgb, noseLine: Rgb, mouthLine: Rgb)

  datatype MeshColors = MeshColors(tesselation: Rgb, contours: Rgb, irises: Rgb)

  /** `WireframeConfig`: feature toggles, line styles and output settings. */
  datatype WireframeConfig = WireframeConfig(
    enableConstructionLines: bool,
    enableMesh: bool,
    enableDexinedOutline: bool,
    constructionLineThickness: int,
    constructionLineColors: ConstructionColors,
    meshThickness: int,
    meshColors: MeshColors,
    dexinedModelPath: string,
    dexinedThreshold: real,
    dexinedLineThickness: int,
    dexinedColor: Rgb,
    outputFormat: string,
    backgroundRemovalMethod: string,
    saveIntermediateSteps: bool,
    enableSvgExport: bool,
    svgOutputPath: string)

  const DefaultConstructionColors := ConstructionColors(
    Rgb(255, 0, 0), Rgb(0, 255, 0), Rgb(0, 0, 255), Rgb(255, 255, 0), Rgb(255, 0, 255))

  const DefaultMeshColors := MeshColors(Rgb(128, 128, 128), Rgb(64, 64, 64), Rgb(0, 0, 0))

  /** The configuration with every field at its declared default. */
  const DefaultConfig := WireframeConfig(
    true, false, false,
    2, DefaultConstructionColors,
    1, DefaultMeshColors,
    "", 0.5, 1, Rgb(0, 0, 0),
    "rgba", "lines_only", false,
    false, "")

  /** The configured colour of a construction line. */
  function RoleColor(colors: ConstructionColors, role: LineRole): Rgb
  {
    match role
    case VerticalCenter => colors.verticalCenter
    case EyebrowLine => colors.eyebrowLine
    case EyeLines => colors.eyeLines
    case NoseLine => colors.noseLine
    case MouthLine => colors.mouthLine
  }

  // ---------------------------------------------------------------------------
  // Library primitives

  datatype MeshPart = Tesselation | Contours | Irises

  /** The `lineType` of a `cv2.line` call: the default 8-connected line or `cv2.LINE_AA`. */
  datatype LineType = Line8 | LineAA

  /** One drawing call: a `cv2.line` segment or one `draw_landmarks` pass over a face. */
  datatype Stroke =
    | LineStroke(segment: Segment, color: Rgb, thickness: int, lineType: LineType)
    | MeshStroke(face: seq<Landmark>, part: MeshPart, color: Rgb, thickness: int)

  /** A single-channel float map, as the outline network returns it. */
  datatype EdgeMap = EdgeMap(height: nat, width: nat, values: seq<real>)

  datatype Raster = Raster(
    drawLine: (RgbImage, Segment, Rgb, int, LineType, nat) -> Rgb,
    drawConnections: (RgbImage, seq<Landmark>, MeshPart, Rgb, int, nat) -> Rgb,
    rgbToGray: (RgbImage, nat) -> Byte,
    canny: (GrayImage, real, real, nat) -> Byte,
    resizeLinear: (EdgeMap, nat, nat, nat) -> real,
    filledErodedPolygon: (nat, nat, seq<Point>, nat) -> Byte)

  /** The `height` x `width` colour image whose pixel `k` is `f(k)`. */
  function Render(height: nat, width: nat, f: nat -> Rgb): (img: RgbImage)
    ensures img.Valid() && img.height == height && img.width == width
    ensures forall k :: 0 <= k < height * width ==> img.px[k] == f(k)
  {
    RgbImage(height, width, seq(height * width, (k: int) requires 0 <= k < height * width => f(k)))
  }

  /** `np.ones((height, width, 3), dtype=np.uint8) * 255` */
  function WhiteCanvas(height: nat, width: nat): (img: RgbImage)
    ensures img.Valid() && img.height == height && img.width == width
    ensures forall k :: 0 <= k < |img.px| ==> img.px[k] == White
  {
    Render(height, width, _ => White)
  }

  function StrokePixel(raster: Raster, img: RgbImage, s: Stroke, k: nat): Rgb
  {
    match s
    case LineStroke(seg, color, thickness, lineType) => raster.drawLine(img, seg, color, thickness, lineType, k)
    case MeshStroke(face, part, color, thickness) => raster.drawConnections(img, face, part, color, thickness, k)
  }

  /** The image after one drawing call; drawing never changes the image's shape. */
  function Paint(raster: Raster, img: RgbImage, s: Stroke): (r: RgbImage)
    ensures r.Valid() && r.height == img.height && r.width == img.width
  {
    Render(img.height, img.width, (k: nat) => StrokePixel(raster, img, s, k))
  }

  /** The image after the drawing calls, in order. */
  function PaintAll(raster: Raster, img: RgbImage, strokes: seq<Stroke>): (r: RgbImage)
    ensures r.height == img.height && r.width == img.width
    ensures img.Valid() ==> r.Valid()
  {
    if strokes == [] then img
    else Paint(raster, PaintAll(raster, img, strokes[..|strokes| - 1]), strokes[|strokes| - 1])
  }

  // ---------------------------------------------------------------------------
  // Construction lines

  /** One line stroke per pair of consecutive points. */
  function PolylineStrokes(points: seq<Point>, color: Rgb, thickness: int, lineType: LineType): (strokes: seq<Stroke>)
    ensures |strokes| == |Segments(points)|
  {
    var segs := Segments(points);
    seq(|segs|, i requires 0 <= i < |segs| => LineStroke(segs[i], color, thickness, lineType))
  }

  /** The segments of one construction line, in its configured colour and thickness. */
  function GuideStrokes(g: GuideLine, landmarks: seq<Landmark>, width: nat, height: nat, config: WireframeConfig,
                        lineType: LineType): seq<Stroke>
  {
    PolylineStrokes(Collected(g.indices, landmarks, width, height),
                    RoleColor(config.constructionLineColors, g.role), config.constructionLineThickness, lineType)
  }

  /** The strokes of the first `n` construction lines of the table. */
  function ConstructionStrokesUpTo(landmarks: seq<Landmark>, width: nat, height: nat, config: WireframeConfig,
                                   lineType: LineType, n: nat): seq<Stroke>
    requires n <= |ConstructionTable|
  {
    if n == 0 then []
    else ConstructionStrokesUpTo(landmarks, width, height, config, lineType, n - 1)
         + GuideStrokes(ConstructionTable[n - 1], landmarks, width, height, config, lineType)
  }

  function ConstructionStrokes(landmarks: seq<Landmark>, width: nat, height: nat, config: WireframeConfig,
                               lineType: LineType): seq<Stroke>
  {
    ConstructionStrokesUpTo(landmarks, width, height, config, lineType, |ConstructionTable|)
  }

  /** Drawing a sequence of strokes after another is drawing their concatenation. */
  lemma {:induction false} PaintAllAppend(raster: Raster, img: RgbImage, a: seq<Stroke>, b: seq<Stroke>)
    ensures PaintAll(raster, img, a + b) == PaintAll(raster, PaintAll(raster, img, a), b)
    decreases |b|
  {
    if b == [] {
      assert a + b == a;
    } else {
      var ab := a + b;
      assert ab[..|ab| - 1] == a + b[..|b| - 1];
      PaintAllAppend(raster, img, a, b[..|b| - 1]);
    }
  }

  /** `draw_line_between_points`' drawing loop: `cv2.line` between each consecutive pair. */
  method DrawPolyline(raster: Raster, image: RgbImage, points: seq<Point>, color: Rgb, thickness: int,
                      lineType: LineType) returns (annotated: RgbImage)
    ensures annotated == PaintAll(raster, image, PolylineStrokes(points, color, thickness, lineType))
  {
    ghost var strokes := PolylineStrokes(points, color, thickness, lineType);
    annotated := image;
    var i := 0;
    while i < |points| - 1
      invariant 0 <= i <= |strokes|
      invariant annotated == PaintAll(raster, image, strokes[..i])
    {
      assert strokes[..i + 1][..i] == strokes[..i];
      annotated := Paint(raster, annotated, LineStroke(Segment(points[i], points[i + 1]), color, thickness, lineType));
      i := i + 1;
    }
    assert strokes[..i] == strokes;
  }

  /** One table entry drawn onto a canvas that already holds the strokes `done`. */
  method DrawGuideLine(raster: Raster, image: RgbImage, annotated: RgbImage, ghost done: seq<Stroke>, line: GuideLine,
                       landmarks: seq<Landmark>, width: nat, height: nat, config: WireframeConfig, lineType: LineType)
    returns (next: RgbImage)
    requires annotated == PaintAll(raster, image, done)
    ensures next == PaintAll(raster, image, done + GuideStrokes(line, landmarks, width, height, config, lineType))
  {
    var points := CollectPoints(line.indices, landmarks, width, height);
    var color := RoleColor(config.constructionLineColors, line.role);
    next := DrawPolyline(raster, annotated, points, color, config.constructionLineThickness, lineType);
    PaintAllAppend(raster, image, done, GuideStrokes(line, landmarks, width, height, config, lineType));
  }

  /**
   * `draw_construction_lines`: for each table entry, collect the in-range
   * landmark points and draw a segment between each consecutive pair.
   */
  method DrawConstructionLines(raster: Raster, image: RgbImage, landmarks: seq<Landmark>, config: WireframeConfig)
    returns (annotated: RgbImage)
    requires image.Valid()
    ensures annotated == PaintAll(raster, image, ConstructionStrokes(landmarks, image.width, image.height, config, Line8))
    ensures landmarks == [] ==> annotated == image
  {
    if landmarks == [] {
      NoLandmarksNoStrokes(image.width, image.height, config, Line8, |ConstructionTable|);
      return image;
    }
    var width, height := image.width, image.height;
    annotated := image;
    ghost var done: seq<Stroke> := [];
    var g := 0;
    while g < |ConstructionTable|
      invariant 0 <= g <= |ConstructionTable|
      invariant done == ConstructionStrokesUpTo(landmarks, width, height, config, Line8, g)
      invariant annotated == PaintAll(raster, image, done)
    {
      annotated := DrawGuideLine(raster, image, annotated, done, ConstructionTable[g], landmarks, width, height, config,
                                 Line8);
      done := done + GuideStrokes(ConstructionTable[g], landmarks, width, height, config, Line8);
      g := g + 1;
    }
  }

  /** Without landmarks no construction line has a point, so nothing is drawn. */
  lemma {:induction false} NoLandmarksNoStrokes(width: nat, height: nat, config: WireframeConfig, lineType: LineType,
                                               n: nat)
    requires n <= |ConstructionTable|
    ensures ConstructionStrokesUpTo([], width, height, config, lineType, n) == []
  {
    if n > 0 {
      NoLandmarksNoStrokes(width, height, config, lineType, n - 1);
      CollectedNoneInRange(ConstructionTable[n - 1].indices, [], width, height);
    }
  }

  /**
   * With a full 468-landmark mesh the table yields ten segments: three on the
   * vertical centre line and one for each of the seven two-point lines.
   */
  lemma FullMeshStrokeCount(landmarks: seq<Landmark>, width: nat, height: nat, config: WireframeConfig,
                            lineType: LineType)
    requires |landmarks| >= 468
    ensures |ConstructionStrokes(landmarks, width, height, config, lineType)| == 10
  {
    forall g | 0 <= g < |ConstructionTable|
      ensures |GuideStrokes(ConstructionTable[g], landmarks, width, height, config, lineType)|
              == |ConstructionTable[g].indices| - 1
    {
      FullMeshDrawsEveryLine(landmarks, width, height, g);
    }
    assert |ConstructionStrokesUpTo(landmarks, width, height, config, lineType, 1)| == 3;
    assert |ConstructionStrokesUpTo(landmarks, width, height, config, lineType, 2)| == 4;
    assert |ConstructionStrokesUpTo(landmarks, width, height, config, lineType, 3)| == 5;
    assert |ConstructionStrokesUpTo(landmarks, width, height, config, lineType, 4)| == 6;
    assert |ConstructionStrokesUpTo(landmarks, width, height, config, lineType, 5)| == 7;
    assert |ConstructionStrokesUpTo(landmarks, width, height, config, lineType, 6)| == 8;
    assert |ConstructionStrokesUpTo(landmarks, width, height, config, lineType, 7)| == 9;
  }

  /** Every construction stroke is drawn in the colour of its table entry's role. */
  lemma {:induction false} ConstructionStrokeColors(landmarks: seq<Landmark>, width: nat, height: nat,
                                                   config: WireframeConfig, lineType: LineType, n: nat, j: nat)
    requires n <= |ConstructionTable|
    requires j < |ConstructionStrokesUpTo(landmarks, width, height, config, lineType, n)|
    ensures var s := ConstructionStrokesUpTo(landmarks, width, height, config, lineType, n)[j];
      && s.LineStroke?
      && s.thickness == config.constructionLineThickness
      && s.lineType == lineType
      && exists g :: 0 <= g < n && s.color == RoleColor(config.constructionLineColors, ConstructionTable[g].role)
  {
    var prefix := ConstructionStrokesUpTo(landmarks, width, height, config, lineType, n - 1);
    if j < |prefix| {
      ConstructionStrokeColors(landmarks, width, height, config, lineType, n - 1, j);
    } else {
      var s := ConstructionStrokesUpTo(landmarks, width, height, config, lineType, n)[j];
      assert s == GuideStrokes(ConstructionTable[n - 1], landmarks, width, height, config, lineType)[j - |prefix|];
      assert s.color == RoleColor(config.constructionLineColors, ConstructionTable[n - 1].role);
    }
  }

  // ---------------------------------------------------------------------------
  // Face mesh

  /**
   * The three passes drawn for one face. The colour guards of the source test
   * a 3-tuple, which is always truthy, so all three passes are always drawn,
   * even in black.
   */
  function FaceStrokes(face: seq<Landmark>, config: WireframeConfig): (strokes: seq<Stroke>)
    ensures |strokes| == 3
  {
    [ MeshStroke(face, Tesselation, config.meshColors.tesselation, config.meshThickness),
      MeshStroke(face, Contours, config.meshColors.contours, config.meshThickness + 1),
      MeshStroke(face, Irises, config.meshColors.irises, config.meshThickness + 1) ]
  }

  function MeshStrokes(faces: seq<seq<Landmark>>, config: WireframeConfig): seq<Stroke>
  {
    if faces == [] then []
    else MeshStrokes(faces[..|faces| - 1], config) + FaceStrokes(faces[|faces| - 1], config)
  }

  /** `draw_face_mesh`: tesselation, contours and irises for every detected face. */
  method DrawFaceMesh(raster: Raster, image: RgbImage, faces: seq<seq<Landmark>>, config: WireframeConfig)
    returns (annotated: RgbImage)
    requires image.Valid()
    ensures annotated == PaintAll(raster, image, MeshStrokes(faces, config))
  {
    if faces == [] {
      return image;
    }
    annotated := image;
    var i := 0;
    while i < |faces|
      invariant 0 <= i <= |faces|
      invariant annotated == PaintAll(raster, image, MeshStrokes(faces[..i], config))
    {
      var face := faces[i];
      var done := MeshStrokes(faces[..i], config);
      assert faces[..i + 1][..i] == faces[..i];
      var passes := FaceStrokes(face, config);
      var s1 := done + [passes[0]];
      var s2 := s1 + [passes[1]];
      var s3 := s2 + [passes[2]];
      assert s1[..|s1| - 1] == done;
      assert s2[..|s2| - 1] == s1;
      assert s3[..|s3| - 1] == s2;
      assert s3 == MeshStrokes(faces[..i + 1], config);
      assert PaintAll(raster, image, s1) == Paint(raster, PaintAll(raster, image, done), passes[0]);
      assert PaintAll(raster, image, s2) == Paint(raster, PaintAll(raster, image, s1), passes[1]);
      assert PaintAll(raster, image, s3) == Paint(raster, PaintAll(raster, image, s2), passes[2]);
      annotated := Paint(raster, annotated, passes[0]);
      annotated := Paint(raster, annotated, passes[1]);
      annotated := Paint(raster, annotated, passes[2]);
      i := i + 1;
    }
    assert faces[..|faces|] == faces;
  }

  /** Pass `j` of face `i` is stroke `3 * i + j`: faces in order, three passes each. */
  lemma {:induction false} MeshStrokesLayout(faces: seq<seq<Landmark>>, config: WireframeConfig, i: nat, j: nat)
    requires i < |faces| && j < 3
    ensures |MeshStrokes(faces, config)| == 3 * |faces|
    ensures MeshStrokes(faces, config)[3 * i + j] == FaceStrokes(faces[i], config)[j]
  {
    var init := faces[..|faces| - 1];
    if i < |faces| - 1 {
      MeshStrokesLayout(init, config, i, j);
    } else if init != [] {
      MeshStrokesLayout(init, config, 0, 0);
    }
  }

  // ---------------------------------------------------------------------------
  // Outline colourisation

  /** White everywhere except the marked pixels, which take `color`. */
  function Colourised(height: nat, width: nat, mark: seq<bool>, color: Rgb): (img: RgbImage)
    requires |mark| == height * width
    ensures img.Valid() && img.height == height && img.width == width
    ensures forall k :: 0 <= k < |img.px| ==> img.px[k] == (if mark[k] then color else White)
  {
    Render(height, width, (k: nat) => if k < |mark| && mark[k] then color else White)
  }

  /** `cv2.resize(edge_map, (width, height)) > threshold` */
  function ThresholdMask(raster: Raster, edgeMap: EdgeMap, height: nat, width: nat, threshold: real): (m: seq<bool>)
    ensures |m| == height * width
  {
    seq(height * width, k requires 0 <= k < height * width => raster.resizeLinear(edgeMap, width, height, k) > threshold)
  }

  function Gray(raster: Raster, image: RgbImage): (g: GrayImage)
    ensures g.Valid() && g.height == image.height && g.width == image.width
  {
    var n := image.height * image.width;
    GrayImage(image.height, image.width, seq<Byte>(n, (k: int) requires 0 <= k < n => raster.rgbToGray(image, k)))
  }

  /** `cv2.Canny(gray, 50, 150) > 0` */
  function CannyMask(raster: Raster, image: RgbImage): (m: seq<bool>)
    ensures |m| == image.height * image.width
  {
    var gray := Gray(raster, image);
    seq(image.height * image.width, k requires 0 <= k < image.height * image.width => raster.canny(gray, 50.0, 150.0, k) > 0)
  }

  /** `_postprocess_edges`: the resized network output, thresholded and coloured. */
  method PostprocessEdges(raster: Raster, edgeMap: EdgeMap, height: nat, width: nat, config: WireframeConfig)
    returns (edgeRgb: RgbImage)
    ensures edgeRgb == Colourised(height, width, ThresholdMask(raster, edgeMap, height, width, config.dexinedThreshold),
                                  config.dexinedColor)
  {
    var n := height * width;
    var mark := ThresholdMask(raster, edgeMap, height, width, config.dexinedThreshold);
    var canvas := new Rgb[n](_ => White);
    var k := 0;
    while k < n
      invariant 0 <= k <= n
      invariant forall m :: 0 <= m < n ==> canvas[m] == (if m < k && mark[m] then config.dexinedColor else White)
    {
      if mark[k] {
        canvas[k] := config.dexinedColor;
      }
      k := k + 1;
    }
    edgeRgb := RgbImage(height, width, canvas[..]);
  }

  /** `_fallback_edge_detection`: Canny(50, 150) on the grey image, coloured on white. */
  method FallbackEdgeDetection(raster: Raster, image: RgbImage, config: WireframeConfig) returns (edgeRgb: RgbImage)
    ensures edgeRgb == Colourised(image.height, image.width, CannyMask(raster, image), config.dexinedColor)
  {
    var n := image.height * image.width;
    var mark := CannyMask(raster, image);
    var canvas := new Rgb[n](_ => White);
    var k := 0;
    while k < n
      invariant 0 <= k <= n
      invariant forall m :: 0 <= m < n ==> canvas[m] == (if m < k && mark[m] then config.dexinedColor else White)
    {
      if mark[k] {
        canvas[k] := config.dexinedColor;
      }
      k := k + 1;
    }
    edgeRgb := RgbImage(image.height, image.width, canvas[..]);
  }

  /**
   * What the outline network produced: nothing usable (torch missing, no
   * weights, a loading error), an exception while running, or an edge map.
   */
  datatype OutlineSource = Unavailable | Failed | Output(edgeMap: EdgeMap)

  function OutlineImage(raster: Raster, image: RgbImage, config: WireframeConfig, source: OutlineSource): (o: RgbImage)
    ensures o.Valid() && o.height == image.height && o.width == image.width
  {
    match source
    case Output(edgeMap) =>
      Colourised(image.height, image.width,
                 ThresholdMask(raster, edgeMap, image.height, image.width, config.dexinedThreshold), config.dexinedColor)
    case _ => Colourised(image.height, image.width, CannyMask(raster, image), config.dexinedColor)
  }

  /** `generate_outline`: the network's edges when it ran, the Canny fallback otherwise. */
  method GenerateOutline(raster: Raster, image: RgbImage, config: WireframeConfig, source: OutlineSource)
    returns (outline: RgbImage)
    ensures outline == OutlineImage(raster, image, config, source)
  {
    match source
    case Output(edgeMap) =>
      outline := PostprocessEdges(raster, edgeMap, image.height, image.width, config);
    case _ =>
      outline := FallbackEdgeDetection(raster, image, config);
  }

  // ---------------------------------------------------------------------------
  // Overlay of line pixels onto the canvas

  /** A line image handed to `_add_lines_to_canvas`: three-channel or grey. */
  datatype LineImage = ColourLines(rgb: RgbImage) | GreyLines(gray: GrayImage)
  {
    predicate Fits(canvas: RgbImage)
    {
      match this
      case ColourLines(img) => img.height == canvas.height && img.width == canvas.width && img.Valid()
      case GreyLines(img) => img.height == canvas.height && img.width == canvas.width && img.Valid()
    }
  }

  /** One pixel of the colour overlay: only a line pixel that is not pure white replaces the canvas. */
  function OverlayPixel(canvasPx: Rgb, linePx: Rgb): (r: Rgb)
    ensures linePx != White ==> r == linePx
    ensures linePx == White ==> r == canvasPx
  {
    if linePx != White then linePx else canvasPx
  }

  function Overlaid(canvas: RgbImage, line: LineImage, dexinedColor: Rgb): (r: RgbImage)
    requires canvas.Valid() && line.Fits(canvas)
    ensures r.Valid() && r.height == canvas.height && r.width == canvas.width
  {
    var n := canvas.height * canvas.width;
    match line
    case ColourLines(img) =>
      RgbImage(canvas.height, canvas.width,
        seq(n, k requires 0 <= k < n => OverlayPixel(canvas.px[k], img.px[k])))
    case GreyLines(img) =>
      RgbImage(canvas.height, canvas.width,
        seq(n, k requires 0 <= k < n => if img.px[k] < 255 then dexinedColor else canvas.px[k]))
  }

  /** `_add_lines_to_canvas`: copies the canvas, then writes the line pixels into the copy. */
  method AddLinesToCanvas(canvas: RgbImage, line: LineImage, dexinedColor: Rgb) returns (result: RgbImage)
    requires canvas.Valid() && line.Fits(canvas)
    ensures result == Overlaid(canvas, line, dexinedColor)
  {
    var n := canvas.height * canvas.width;
    var buffer := new Rgb[n](k requires 0 <= k < n => canvas.px[k]);
    var k := 0;
    while k < n
      invariant 0 <= k <= n
      invariant forall m :: k <= m < n ==> buffer[m] == canvas.px[m]
      invariant forall m :: 0 <= m < k ==> buffer[m] == Overlaid(canvas, line, dexinedColor).px[m]
    {
      match line {
        case ColourLines(img) =>
          if img.px[k] != White {
            buffer[k] := img.px[k];
          }
        case GreyLines(img) =>
          if img.px[k] < 255 {
            buffer[k] := dexinedColor;
          }
      }
      k := k + 1;
    }
    result := RgbImage(canvas.height, canvas.width, buffer[..]);
  }

  /** Overlaying the same lines a second time changes nothing. */
  lemma OverlayIdempotent(canvas: RgbImage, line: LineImage, dexinedColor: Rgb)
    requires canvas.Valid() && line.Fits(canvas)
    ensures line.Fits(Overlaid(canvas, line, dexinedColor))
    ensures Overlaid(Overlaid(canvas, line, dexinedColor), line, dexinedColor) == Overlaid(canvas, line, dexinedColor)
  {
    var once := Overlaid(canvas, line, dexinedColor);
    var twice := Overlaid(once, line, dexinedColor);
    assert |twice.px| == |once.px|;
    forall k | 0 <= k < |once.px|
      ensures twice.px[k] == once.px[k]
    {
    }
  }

  /** On a white canvas, the colour overlay reproduces the line image exactly. */
  lemma OverlayOntoWhiteCanvas(lines: RgbImage)
    requires lines.Valid()
    ensures Overlaid(WhiteCanvas(lines.height, lines.width), ColourLines(lines), White) == lines
  {
    var r := Overlaid(WhiteCanvas(lines.height, lines.width), ColourLines(lines), White);
    forall k | 0 <= k < |lines.px|
      ensures r.px[k] == lines.px[k]
    {
    }
  }

  /**
   * Overlaying a colourised outline: marked pixels show the outline colour and
   * every other pixel keeps the canvas; an outline coloured pure white is invisible.
   */
  lemma OutlineOverlay(canvas: RgbImage, mark: seq<bool>, color: Rgb, k: nat)
    requires canvas.Valid() && |mark| == canvas.height * canvas.width
    requires k < |canvas.px|
    ensures var outline := Colourised(canvas.height, canvas.width, mark, color);
      Overlaid(canvas, ColourLines(outline), color).px[k]
        == (if mark[k] && color != White then color else canvas.px[k])
  {
  }

  // ---------------------------------------------------------------------------
  // Background removal

  function MapRgba(image: RgbImage, f: Rgb -> Rgba): (r: RgbaImage)
    requires image.Valid()
    ensures r.Valid() && r.height == image.height && r.width == image.width
    ensures forall k :: 0 <= k < |r.px| ==> r.px[k] == f(image.px[k])
  {
    RgbaImage(image.height, image.width, seq(|image.px|, k requires 0 <= k < |image.px| => f(image.px[k])))
  }

  function WithAlpha(p: Rgb, a: Byte): (q: Rgba)
    ensures RgbOf(q) == p && q.a == a
  {
    Rgba(p.r, p.g, p.b, a)
  }

  /** `_lines_only_method` at one pixel: transparent exactly when every channel is at least 250. */
  function LinesOnlyPixel(p: Rgb): (q: Rgba)
    ensures RgbOf(q) == p
    ensures q.a == 0 <==> p.r >= 250 && p.g >= 250 && p.b >= 250
    ensures q.a == 0 || q.a == 255
  {
    WithAlpha(p, if p.r >= 250 && p.g >= 250 && p.b >= 250 then 0 else 255)
  }

  method LinesOnly(image: RgbImage) returns (rgba: RgbaImage)
    requires image.Valid()
    ensures rgba == MapRgba(image, LinesOnlyPixel)
  {
    var n := |image.px|;
    var buffer := new Rgba[n](k requires 0 <= k < n => Opaque(image.px[k]));
    var k := 0;
    while k < n
      invariant 0 <= k <= n
      invariant forall m :: 0 <= m < n ==>
        buffer[m] == (if m < k then LinesOnlyPixel(image.px[m]) else Opaque(image.px[m]))
    {
      var p := image.px[k];
      if p.r >= 250 && p.g >= 250 && p.b >= 250 {
        buffer[k] := WithAlpha(p, 0);
      }
      k := k + 1;
    }
    rgba := RgbaImage(image.height, image.width, buffer[..]);
  }

  /** The six line colours the colour filter keeps. */
  const Palette: seq<Rgb> := [
    Rgb(255, 0, 0), Rgb(0, 255, 0), Rgb(0, 0, 255),
    Rgb(255, 255, 0), Rgb(255, 0, 255), Rgb(128, 128, 128)
  ]

  const Tolerance := 20

  /** `cv2.inRange` with the inclusive band `[max(0, c - 20), min(255, c + 20)]` on each channel. */
  predicate InBand(p: Rgb, c: Rgb)
  {
    && Max(0, c.r - Tolerance) <= p.r <= Min(255, c.r + Tolerance)
    && Max(0, c.g - Tolerance) <= p.g <= Min(255, c.g + Tolerance)
    && Max(0, c.b - Tolerance) <= p.b <= Min(255, c.b + Tolerance)
  }

  /** The band test, stated as a distance: every channel within 20 of the palette colour. */
  lemma InBandMeansNear(p: Rgb, c: Rgb)
    ensures InBand(p, c) <==> Abs(p.r - c.r) <= 20 && Abs(p.g - c.g) <= 20 && Abs(p.b - c.b) <= 20
  {
  }

  predicate KeptByPalette(p: Rgb)
  {
    exists i :: 0 <= i < |Palette| && InBand(p, Palette[i])
  }

  /** `_color_filter_method` at one pixel. */
  function ColorFilterPixel(p: Rgb): (q: Rgba)
    ensures RgbOf(q) == p
    ensures q.a == 255 <==> KeptByPalette(p)
    ensures q.a == 0 <==> !KeptByPalette(p)
  {
    WithAlpha(p, if KeptByPalette(p) then 255 else 0)
  }

  /** `_color_filter_method`: a keep mask OR-ed over the palette, then alpha 0 off the mask. */
  method ColorFilter(image: RgbImage) returns (rgba: RgbaImage)
    requires image.Valid()
    ensures rgba == MapRgba(image, ColorFilterPixel)
  {
    var n := |image.px|;
    var keep := new bool[n](_ => false);
    var c := 0;
    while c < |Palette|
      invariant 0 <= c <= |Palette|
      invariant forall m :: 0 <= m < n ==>
        (keep[m] <==> exists i :: 0 <= i < c && InBand(image.px[m], Palette[i]))
    {
      var k := 0;
      while k < n
        invariant 0 <= k <= n
        invariant forall m :: 0 <= m < n ==>
          (keep[m] <==> (exists i :: 0 <= i < c && InBand(image.px[m], Palette[i]))
                        || (m < k && InBand(image.px[m], Palette[c])))
      {
        keep[k] := keep[k] || InBand(image.px[k], Palette[c]);
        k := k + 1;
      }
      forall m | 0 <= m < n
        ensures keep[m] <==> exists i :: 0 <= i < c + 1 && InBand(image.px[m], Palette[i])
      {
        if InBand(image.px[m], Palette[c]) {
          assert 0 <= c < c + 1;
        }
      }
      c := c + 1;
    }
    var buffer := new Rgba[n](k requires 0 <= k < n => Opaque(image.px[k]));
    var k := 0;
    while k < n
      invariant 0 <= k <= n
      invariant forall m :: 0 <= m < n ==> (keep[m] <==> KeptByPalette(image.px[m]))
      invariant forall m :: 0 <= m < n ==>
        buffer[m] == (if m < k then ColorFilterPixel(image.px[m]) else Opaque(image.px[m]))
    {
      if !keep[k] {
        buffer[k] := WithAlpha(image.px[k], 0);
      }
      k := k + 1;
    }
    rgba := RgbaImage(image.height, image.width, buffer[..]);
  }

  /** `_color_diff_method`: the same colours, fully opaque. */
  function ColorDiff(image: RgbImage): (rgba: RgbaImage)
    requires image.Valid()
    ensures rgba.Valid() && rgba.height == image.height && rgba.width == image.width
    ensures forall k :: 0 <= k < |rgba.px| ==> RgbOf(rgba.px[k]) == image.px[k] && rgba.px[k].a == 255
  {
    MapRgba(image, Opaque)
  }

  /** The filled and eroded face-oval mask, or all zero when no oval landmark is in range. */
  function FaceMaskValue(raster: Raster, image: RgbImage, points: seq<Point>, k: nat): Byte
  {
    if |points| > 0 then raster.filledErodedPolygon(image.height, image.width, points, k) else 0
  }

  function FaceMaskImage(raster: Raster, image: RgbImage, landmarks: seq<Landmark>): (rgba: RgbaImage)
    requires image.Valid()
    ensures rgba.Valid() && rgba.height == image.height && rgba.width == image.width
  {
    var points := Collected(FaceOval, landmarks, image.width, image.height);
    RgbaImage(image.height, image.width,
      seq(|image.px|, k requires 0 <= k < |image.px| =>
        WithAlpha(image.px[k], if FaceMaskValue(raster, image, points, k) > 0 then 0 else 255)))
  }

  /** `_face_mask_method`: transparent inside the face oval built from the in-range oval landmarks. */
  method FaceMask(raster: Raster, image: RgbImage, landmarks: seq<Landmark>) returns (rgba: RgbaImage)
    requires image.Valid()
    ensures rgba == FaceMaskImage(raster, image, landmarks)
  {
    var points := CollectPoints(FaceOval, landmarks, image.width, image.height);
    var n := |image.px|;
    var buffer := new Rgba[n](k requires 0 <= k < n => Opaque(image.px[k]));
    var k := 0;
    while k < n
      invariant 0 <= k <= n
      invariant forall m :: 0 <= m < n ==>
        buffer[m] == (if m < k then FaceMaskImage(raster, image, landmarks).px[m] else Opaque(image.px[m]))
    {
      if FaceMaskValue(raster, image, points, k) > 0 {
        buffer[k] := WithAlpha(image.px[k], 0);
      }
      k := k + 1;
    }
    rgba := RgbaImage(image.height, image.width, buffer[..]);
  }

  /** Every face-oval index is at least 10, so with ten or fewer landmarks nothing turns transparent. */
  lemma FaceMaskNeedsOvalLandmarks(raster: Raster, image: RgbImage, landmarks: seq<Landmark>)
    requires image.Valid() && |landmarks| <= 10
    ensures forall k :: 0 <= k < |image.px| ==> FaceMaskImage(raster, image, landmarks).px[k] == Opaque(image.px[k])
  {
    CollectedNoneInRange(FaceOval, landmarks, image.width, image.height);
  }

  /** `create_wireframe_rgba`: the strategy the name selects, `lines_only` for any other name. */
  function WireframeRgba(raster: Raster, image: RgbImage, landmarks: seq<Landmark>, methodName: string): RgbaImage
    requires image.Valid()
  {
    if methodName == "face_mask" then FaceMaskImage(raster, image, landmarks)
    else if methodName == "color_diff" then ColorDiff(image)
    else if methodName == "color_filter" then MapRgba(image, ColorFilterPixel)
    else MapRgba(image, LinesOnlyPixel)
  }

  method CreateWireframeRgba(raster: Raster, image: RgbImage, landmarks: seq<Landmark>, methodName: string)
    returns (rgba: RgbaImage)
    requires image.Valid()
    ensures rgba == WireframeRgba(raster, image, landmarks, methodName)
  {
    if methodName == "lines_only" {
      rgba := LinesOnly(image);
    } else if methodName == "face_mask" {
      rgba := FaceMask(raster, image, landmarks);
    } else if methodName == "color_diff" {
      rgba := ColorDiff(image);
    } else if methodName == "color_filter" {
      rgba := ColorFilter(image);
    } else {
      rgba := LinesOnly(image);
    }
  }

  /** Every strategy keeps the shape and colours and sets alpha to 0 or 255 only. */
  lemma TransparencyKeepsColour(raster: Raster, image: RgbImage, landmarks: seq<Landmark>, methodName: string, k: nat)
    requires image.Valid() && k < |image.px|
    ensures var rgba := WireframeRgba(raster, image, landmarks, methodName);
      && rgba.Valid() && rgba.height == image.height && rgba.width == image.width
      && RgbOf(rgba.px[k]) == image.px[k]
      && (rgba.px[k].a == 0 || rgba.px[k].a == 255)
  {
  }

  /** A pure-white canvas pixel becomes transparent under `lines_only` and `color_filter`. */
  lemma WhiteBecomesTransparent()
    ensures LinesOnlyPixel(White).a == 0
    ensures ColorFilterPixel(White).a == 0
  {
    assert !InBand(White, Palette[0]);
    assert forall i :: 0 <= i < |Palette| ==> !InBand(White, Palette[i]);
  }

  /** The default construction colours and the tesselation grey survive the colour filter. */
  lemma PaletteColoursKept()
    ensures ColorFilterPixel(DefaultConstructionColors.verticalCenter).a == 255
    ensures ColorFilterPixel(DefaultConstructionColors.eyebrowLine).a == 255
    ensures ColorFilterPixel(DefaultConstructionColors.eyeLines).a == 255
    ensures ColorFilterPixel(DefaultConstructionColors.noseLine).a == 255
    ensures ColorFilterPixel(DefaultConstructionColors.mouthLine).a == 255
    ensures ColorFilterPixel(DefaultMeshColors.tesselation).a == 255
  {
    assert InBand(Palette[0], Palette[0]);
    assert InBand(Palette[1], Palette[1]);
    assert InBand(Palette[2], Palette[2]);
    assert InBand(Palette[3], Palette[3]);
    assert InBand(Palette[4], Palette[4]);
    assert InBand(Palette[5], Palette[5]);
  }

  /**
   * The default mesh-contour grey, and the default black used for irises and
   * the outline, are not in the palette: the colour filter makes them transparent.
   */
  lemma ColorFilterDropsDarkLines()
    ensures ColorFilterPixel(DefaultMeshColors.contours).a == 0
    ensures ColorFilterPixel(DefaultMeshColors.irises).a == 0
    ensures ColorFilterPixel(DefaultConfig.dexinedColor).a == 0
  {
    assert forall i :: 0 <= i < |Palette| ==> !InBand(Rgb(64, 64, 64), Palette[i]);
    assert forall i :: 0 <= i < |Palette| ==> !InBand(Rgb(0, 0, 0), Palette[i]);
  }

  /**
   * The overlay copies every line pixel that is not exactly white, but
   * `lines_only` clears every pixel whose channels are all at least 250: a
   * near-white line pixel is written onto the canvas and then made transparent.
   */
  lemma NearWhiteLineVanishes(canvasPx: Rgb, linePx: Rgb)
    requires linePx != White && linePx.r >= 250 && linePx.g >= 250 && linePx.b >= 250
    ensures OverlayPixel(canvasPx, linePx) == linePx
    ensures LinesOnlyPixel(OverlayPixel(canvasPx, linePx)).a == 0
  {
  }

  // ---------------------------------------------------------------------------
  // process_image

  /** The outline layer runs only when enabled and a model path was configured. */
  predicate OutlineEnabled(config: WireframeConfig)
  {
    config.enableDexinedOutline && config.dexinedModelPath != ""
  }

  /** The canvas after construction lines, then mesh, then the outline overlay. */
  function Layered(raster: Raster, config: WireframeConfig, image: RgbImage, faces: seq<seq<Landmark>>,
                   source: OutlineSource): (canvas: RgbImage)
    requires image.Valid() && faces != []
    ensures canvas.Valid() && canvas.height == image.height && canvas.width == image.width
  {
    var blank := WhiteCanvas(image.height, image.width);
    var withConstruction :=
      if config.enableConstructionLines
      then PaintAll(raster, blank, ConstructionStrokes(faces[0], image.width, image.height, config, Line8))
      else blank;
    var withMesh :=
      if config.enableMesh then PaintAll(raster, withConstruction, MeshStrokes(faces, config)) else withConstruction;
    if OutlineEnabled(config)
    then Overlaid(withMesh, ColourLines(OutlineImage(raster, image, config, source)), config.dexinedColor)
    else withMesh
  }

  datatype FinalImage = FinalRgba(rgba: RgbaImage) | FinalRgb(rgb: RgbImage)

  /** The result dictionary of `process_image` (`original` and `landmarks` included). */
  datatype Results = Results(
    original: RgbImage,
    landmarks: seq<Landmark>,
    constructionLines: Option<RgbImage>,
    mesh: Option<RgbImage>,
    dexinedOutline: Option<RgbImage>,
    final: FinalImage)

  /** The drawing steps of `process_image`, each enabled layer drawn over the previous ones and kept. */
  method DrawLayers(raster: Raster, config: WireframeConfig, img: RgbImage, faces: seq<seq<Landmark>>,
                    source: OutlineSource)
    returns (canvas: RgbImage, constructionLines: Option<RgbImage>, mesh: Option<RgbImage>,
             dexinedOutline: Option<RgbImage>)
    requires img.Valid() && faces != [] && faces[0] != []
    ensures canvas == Layered(raster, config, img, faces, source)
    ensures constructionLines.Some? <==> config.enableConstructionLines
    ensures mesh.Some? <==> config.enableMesh
    ensures dexinedOutline.Some? <==> OutlineEnabled(config)
    ensures dexinedOutline.Some? ==> dexinedOutline.value == canvas
  {
    canvas := WhiteCanvas(img.height, img.width);
    constructionLines, mesh, dexinedOutline := None, None, None;
    if config.enableConstructionLines {
      canvas := DrawConstructionLines(raster, canvas, faces[0], config);
      constructionLines := Some(canvas);
    }
    if config.enableMesh {
      canvas := DrawFaceMesh(raster, canvas, faces, config);
      mesh := Some(canvas);
    }
    if config.enableDexinedOutline && config.dexinedModelPath != "" {
      var outline := GenerateOutline(raster, img, config, source);
      canvas := AddLinesToCanvas(canvas, ColourLines(outline), config.dexinedColor);
      dexinedOutline := Some(canvas);
    }
  }

  /**
   * `process_image`. `image` is the loaded image (`None` when loading failed);
   * `faces` is the detector's list of faces (empty when there is no detector,
   * it failed, or it found nothing); `source` is what the outline network did.
   */
  method ProcessImage(raster: Raster, config: WireframeConfig, image: Option<RgbImage>,
                      faces: seq<seq<Landmark>>, source: OutlineSource)
    returns (results: Option<Results>)
    requires image.Some? ==> image.value.Valid()
    ensures results.None? <==> image.None? || faces == [] || faces[0] == []
    ensures results.Some? ==>
      var img := image.value;
      var canvas := Layered(raster, config, img, faces, source);
      && results.value.original == img
      && results.value.landmarks == faces[0]
      && (results.value.constructionLines.Some? <==> config.enableConstructionLines)
      && (results.value.mesh.Some? <==> config.enableMesh)
      && (results.value.dexinedOutline.Some? <==> OutlineEnabled(config))
      && (results.value.dexinedOutline.Some? ==> results.value.dexinedOutline.value == canvas)
      && (results.value.final.FinalRgba? <==> config.outputFormat == "rgba")
      && (config.outputFormat == "rgba" ==>
            results.value.final.rgba == WireframeRgba(raster, canvas, faces[0], config.backgroundRemovalMethod))
      && (config.outputFormat != "rgba" ==> results.value.final.rgb == canvas)
  {
    if image.None? {
      return None;
    }
    if faces == [] || faces[0] == [] {
      return None;
    }
    var img := image.value;
    var landmarks := faces[0];
    var current, constructionLines, mesh, dexinedOutline := DrawLayers(raster, config, img, faces, source);
    var final;
    if config.outputFormat == "rgba" {
      var rgba := CreateWireframeRgba(raster, current, landmarks, config.backgroundRemovalMethod);
      final := FinalRgba(rgba);
    } else {
      final := FinalRgb(current);
    }
    results := Some(Results(img, landmarks, constructionLines, mesh, dexinedOutline, final));
  }

  /**
   * The outline is the last layer: wherever the outline image is not white,
   * the composed canvas shows the outline pixel, whatever construction lines
   * or mesh were drawn beneath it.
   */
  lemma OutlineDrawnOnTop(raster: Raster, config: WireframeConfig, image: RgbImage, faces: seq<seq<Landmark>>,
                          source: OutlineSource, k: nat)
    requires image.Valid() && faces != [] && OutlineEnabled(config)
    requires k < |image.px|
    requires OutlineImage(raster, image, config, source).px[k] != White
    ensures Layered(raster, config, image, faces, source).px[k] == OutlineImage(raster, image, config, source).px[k]
  {
  }

  /** With every feature off the composed canvas is blank white. */
  lemma NoFeaturesBlankCanvas(raster: Raster, config: WireframeConfig, image: RgbImage, faces: seq<seq<Landmark>>,
                              source: OutlineSource)
    requires image.Valid() && faces != []
    requires !config.enableConstructionLines && !config.enableMesh && !OutlineEnabled(config)
    ensures Layered(raster, config, image, faces, source) == WhiteCanvas(image.height, image.width)
  {
  }

  // ---------------------------------------------------------------------------
  // Outline contours for SVG export

  const MinOutlineContourArea := 50.0

  function LargerThanMinimum(geo: ContourRefine.Geometry): ContourRefine.Contour -> bool
  {
    c => geo.contourArea(c) > MinOutlineContourArea
  }

  /** `_extract_contours_from_outline`: the external contours of the grey outline with area above 50. */
  function OutlineContours(geo: ContourRefine.Geometry, gray: GrayImage): (contours: seq<ContourRefine.Contour>)
    ensures |contours| <= |geo.findContours(gray)|
  {
    Filter(geo.findContours(gray), LargerThanMinimum(geo))
  }

  /** A contour is exported exactly when it was found and its area is strictly above 50. */
  lemma OutlineContoursMembership(geo: ContourRefine.Geometry, gray: GrayImage, c: ContourRefine.Contour)
    ensures c in OutlineContours(geo, gray) <==> c in geo.findContours(gray) && geo.contourArea(c) > 50.0
  {
    FilterMembership(geo.findContours(gray), LargerThanMinimum(geo), c);
  }

  // ---------------------------------------------------------------------------
  // Presets

  function Preset(construction: bool, mesh: bool, outline: bool): WireframeConfig
  {
    DefaultConfig.(enableConstructionLines := construction, enableMesh := mesh,
                   enableDexinedOutline := outline, outputFormat := "rgba")
  }

  /** `create_preset_configs`: five user levels, differing only in their feature toggles. */
  function PresetConfigs(): (presets: map<string, WireframeConfig>)
    ensures presets.Keys == {"beginner", "intermediate", "advanced", "outline_only", "mesh_only"}
    ensures forall name :: name in presets ==>
      presets[name].outputFormat == "rgba"
      && presets[name] == DefaultConfig.(enableConstructionLines := presets[name].enableConstructionLines,
                                         enableMesh := presets[name].enableMesh,
                                         enableDexinedOutline := presets[name].enableDexinedOutline)
  {
    map[
      "beginner" := Preset(true, true, true),
      "intermediate" := Preset(true, true, false),
      "advanced" := Preset(true, false, false),
      "outline_only" := Preset(false, false, true),
      "mesh_only" := Preset(false, true, false)
    ]
  }

  /** Each level drops features from the one below: beginner, then intermediate, then advanced. */
  lemma PresetLadder()
    ensures var p := PresetConfigs();
      && p["beginner"].enableConstructionLines && p["beginner"].enableMesh && p["beginner"].enableDexinedOutline
      && p["intermediate"].enableConstructionLines && p["intermediate"].enableMesh
      && !p["intermediate"].enableDexinedOutline
      && p["advanced"].enableConstructionLines && !p["advanced"].enableMesh && !p["advanced"].enableDexinedOutline
      && !p["outline_only"].enableConstructionLines && !p["outline_only"].enableMesh
      && p["outline_only"].enableDexinedOutline
      && !p["mesh_only"].enableConstructionLines && p["mesh_only"].enableMesh && !p["mesh_only"].enableDexinedOutline
  {
  }
}
