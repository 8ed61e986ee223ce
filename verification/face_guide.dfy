/**
 * `FaceGuideGenerator`: from a face detection and a face mesh, a vertical
 * centre line through the face box and a horizontal eye-level line, with a
 * fixed fallback when no face is found. The detectors are inputs: a list of
 * scored relative boxes and, optionally, the mesh landmarks of one face.
 */
module FaceGuide {
  import opened Common
  import opened Landmarks

  /** A detection: its confidence and its box relative to the image size. */
  datatype Detection = Detection(score: real, xmin: real, ymin: real, width: real, height: real)

  /** `face_bbox` in pixels. */
  datatype Box = Box(x: int, y: int, width: int, height: int)

  datatype EyePositions = EyePositions(left: Option<Point>, right: Option<Point>)

  datatype Line = Line(x1: int, y1: int, x2: int, y2: int)

  datatype Guides = Guides(vertical: Line, eyeLine: Line)

  /** The dictionary `detect_face_features` returns. */
  datatype GuideData = GuideData(faceBox: Option<Box>, eyes: EyePositions, guides: Guides, faceDetected: bool)

  const NoEyes := EyePositions(None, None)

  /** The mesh indices around each eye, as seen by the viewer. */
  const LeftEyeIndices: seq<nat> := [33, 7, 163, 144, 145, 153, 154, 155, 133, 173, 157, 158, 159, 160, 161, 246]
  const RightEyeIndices: seq<nat> := [362, 382, 381, 380, 374, 373, 390, 249, 263, 466, 388, 387, 386, 385, 384, 398]

  // ---------------------------------------------------------------------------
  // Guide lines

  /** Vertical line through the middle of the face box, eye line at the eyes or 40% down the box. */
  function CalculateGuideLines(box: Box, eyes: EyePositions, width: int, height: int): (g: Guides)
    ensures g.vertical == Line(box.x + box.width / 2, 0, box.x + box.width / 2, height)
    ensures g.eyeLine.x1 == 0 && g.eyeLine.x2 == width && g.eyeLine.y1 == g.eyeLine.y2
    ensures eyes.left.Some? && eyes.right.Some? ==>
      g.eyeLine.y1 == (eyes.left.value.y + eyes.right.value.y) / 2
    ensures !(eyes.left.Some? && eyes.right.Some?) ==> g.eyeLine.y1 == box.y + Trunc(box.height as real * 0.4)
  {
    var centerX := box.x + box.width / 2;
    var eyeLevel := if eyes.left.Some? && eyes.right.Some?
                    then (eyes.left.value.y + eyes.right.value.y) / 2
                    else box.y + Trunc(box.height as real * 0.4);
    Guides(Line(centerX, 0, centerX, height), Line(0, eyeLevel, width, eyeLevel))
  }

  /** With the eyes found, the eye line lies between them (floor of their mean). */
  lemma EyeLineBetweenEyes(box: Box, left: Point, right: Point, width: int, height: int)
    ensures var y := CalculateGuideLines(box, EyePositions(Some(left), Some(right)), width, height).eyeLine.y1;
      Min(left.y, right.y) <= y <= Max(left.y, right.y)
  {
  }

  /** The fallback eye line lies inside a face box of non-negative height. */
  lemma FallbackEyeLineInsideBox(box: Box, eyes: EyePositions, width: int, height: int)
    requires box.height >= 0
    requires !(eyes.left.Some? && eyes.right.Some?)
    ensures var y := CalculateGuideLines(box, eyes, width, height).eyeLine.y1;
      box.y <= y <= box.y + box.height
  {
    var t := box.height as real * 0.4;
    assert 0.0 <= t <= box.height as real;
  }

  /** `_generate_default_guides`: centre at half the width, eye line a third of the way down. */
  function DefaultGuides(width: int, height: int): (d: GuideData)
    ensures d.faceBox.None? && d.eyes == NoEyes && !d.faceDetected
    ensures d.guides.vertical == Line(width / 2, 0, width / 2, height)
    ensures d.guides.eyeLine == Line(0, height / 3, width, height / 3)
  {
    GuideData(None, NoEyes, Guides(Line(width / 2, 0, width / 2, height), Line(0, height / 3, width, height / 3)), false)
  }

  // ---------------------------------------------------------------------------
  // Eye centres

  function PixelXs(mesh: seq<Landmark>, indices: seq<nat>, width: nat): (xs: seq<real>)
    requires forall i :: 0 <= i < |indices| ==> indices[i] < |mesh|
    ensures |xs| == |indices|
  {
    seq(|indices|, k requires 0 <= k < |indices| => mesh[indices[k]].x * width as real)
  }

  function PixelYs(mesh: seq<Landmark>, indices: seq<nat>, height: nat): (ys: seq<real>)
    requires forall i :: 0 <= i < |indices| ==> indices[i] < |mesh|
    ensures |ys| == |indices|
  {
    seq(|indices|, k requires 0 <= k < |indices| => mesh[indices[k]].y * height as real)
  }

  /** `get_eye_center`: the mean of the landmarks' pixel positions, truncated. */
  function EyeCenter(mesh: seq<Landmark>, indices: seq<nat>, width: nat, height: nat): Point
    requires |indices| > 0
    requires forall i :: 0 <= i < |indices| ==> indices[i] < |mesh|
  {
    var n := |indices| as real;
    Point(Trunc(Sum(PixelXs(mesh, indices, width)) / n), Trunc(Sum(PixelYs(mesh, indices, height)) / n))
  }

  /** A sum of values between `lo` and `hi` lies between `n * lo` and `n * hi`. */
  lemma {:induction false} SumBetween(xs: seq<real>, lo: real, hi: real)
    requires forall i :: 0 <= i < |xs| ==> lo <= xs[i] <= hi
    ensures |xs| as real * lo <= Sum(xs) <= |xs| as real * hi
  {
    if xs != [] {
      var init := xs[..|xs| - 1];
      SumBetween(init, lo, hi);
    }
  }

  /** Every selected landmark lies on the image, so the mean does. */
  lemma {:induction false} MeanBetween(xs: seq<real>, size: real)
    requires |xs| > 0 && size >= 0.0
    requires forall i :: 0 <= i < |xs| ==> 0.0 <= xs[i] <= size
    ensures 0.0 <= Sum(xs) / |xs| as real <= size
  {
    SumBetween(xs, 0.0, size);
    var n := |xs| as real;
    var mean := Sum(xs) / n;
    assert Sum(xs) == mean * n;
  }

  /** The truncated mean of pixel positions within `[0, size]` is a pixel position within `[0, size]`. */
  lemma TruncatedMeanBetween(xs: seq<real>, size: nat)
    requires |xs| > 0
    requires forall i :: 0 <= i < |xs| ==> 0.0 <= xs[i] <= size as real
    ensures 0 <= Trunc(Sum(xs) / |xs| as real) <= size
  {
    MeanBetween(xs, size as real);
    TruncMonotone(Sum(xs) / |xs| as real, size as real);
    TruncOfInt(size);
  }

  predicate OnImage(lm: Landmark)
  {
    0.0 <= lm.x <= 1.0 && 0.0 <= lm.y <= 1.0
  }

  /** An eye centre computed from landmarks on the image is a pixel of the image. */
  lemma EyeCenterOnCanvas(mesh: seq<Landmark>, indices: seq<nat>, width: nat, height: nat)
    requires |indices| > 0
    requires forall i :: 0 <= i < |indices| ==> indices[i] < |mesh| && OnImage(mesh[indices[i]])
    ensures var c := EyeCenter(mesh, indices, width, height);
      0 <= c.x <= width && 0 <= c.y <= height
  {
    var xs := PixelXs(mesh, indices, width);
    var ys := PixelYs(mesh, indices, height);
    PixelsOnCanvas(mesh, indices, width, height);
    TruncatedMeanBetween(xs, width);
    TruncatedMeanBetween(ys, height);
    assert EyeCenter(mesh, indices, width, height)
        == Point(Trunc(Sum(xs) / |xs| as real), Trunc(Sum(ys) / |ys| as real));
  }

  lemma PixelsOnCanvas(mesh: seq<Landmark>, indices: seq<nat>, width: nat, height: nat)
    requires forall i :: 0 <= i < |indices| ==> indices[i] < |mesh| && OnImage(mesh[indices[i]])
    ensures forall k :: 0 <= k < |indices| ==> 0.0 <= PixelXs(mesh, indices, width)[k] <= width as real
    ensures forall k :: 0 <= k < |indices| ==> 0.0 <= PixelYs(mesh, indices, height)[k] <= height as real
  {
    forall k | 0 <= k < |indices|
      ensures 0.0 <= PixelXs(mesh, indices, width)[k] <= width as real
      ensures 0.0 <= PixelYs(mesh, indices, height)[k] <= height as real
    {
      PixelOnCanvas(mesh, indices, width, height, k);
    }
  }

  lemma PixelOnCanvas(mesh: seq<Landmark>, indices: seq<nat>, width: nat, height: nat, k: nat)
    requires forall i :: 0 <= i < |indices| ==> indices[i] < |mesh|
    requires k < |indices| && OnImage(mesh[indices[k]])
    ensures 0.0 <= PixelXs(mesh, indices, width)[k] <= width as real
    ensures 0.0 <= PixelYs(mesh, indices, height)[k] <= height as real
  {
    var lm := mesh[indices[k]];
    var xs, ys := PixelXs(mesh, indices, width), PixelYs(mesh, indices, height);
    assert xs[k] == lm.x * width as real;
    assert ys[k] == lm.y * height as real;
    ScaledFraction(lm.x, width as real, xs[k]);
    ScaledFraction(lm.y, height as real, ys[k]);
  }

  lemma ScaledFraction(t: real, size: real, scaled: real)
    requires 0.0 <= t <= 1.0 && 0.0 <= size && scaled == t * size
    ensures 0.0 <= scaled <= size
  {
    assert t * size <= 1.0 * size;
  }

  predicate IndicesIn(mesh: seq<Landmark>, indices: seq<nat>)
  {
    forall i :: 0 <= i < |indices| ==> indices[i] < |mesh|
  }

  /**
   * `_extract_eye_positions`: no mesh gives no eyes; an index past the end of
   * the mesh raises inside the `try`, which also gives no eyes.
   */
  function ExtractEyePositions(mesh: Option<seq<Landmark>>, width: nat, height: nat): (eyes: EyePositions)
    ensures eyes.left.Some? <==> eyes.right.Some?
    ensures mesh.None? ==> eyes == NoEyes
    ensures eyes.left.Some? ==> mesh.Some? && |mesh.value| > 466
  {
    if mesh.None? then NoEyes
    else if IndicesIn(mesh.value, LeftEyeIndices) && IndicesIn(mesh.value, RightEyeIndices) then
      assert RightEyeIndices[9] == 466;
      EyePositions(Some(EyeCenter(mesh.value, LeftEyeIndices, width, height)),
                   Some(EyeCenter(mesh.value, RightEyeIndices, width, height)))
    else NoEyes
  }

  /** A full refined mesh (478 landmarks) always yields both eyes. */
  lemma FullMeshFindsEyes(mesh: seq<Landmark>, width: nat, height: nat)
    requires |mesh| >= 478
    ensures ExtractEyePositions(Some(mesh), width, height).left.Some?
  {
    assert IndicesIn(mesh, LeftEyeIndices);
    assert IndicesIn(mesh, RightEyeIndices);
  }

  // ---------------------------------------------------------------------------
  // Detection

  function Scores(detections: seq<Detection>): (scores: seq<real>)
    ensures |scores| == |detections|
  {
    seq(|detections|, i requires 0 <= i < |detections| => detections[i].score)
  }

  /** The pixel box of a detection: each relative coordinate scaled and truncated. */
  function PixelBox(d: Detection, width: nat, height: nat): Box
  {
    Box(Trunc(d.xmin * width as real), Trunc(d.ymin * height as real),
        Trunc(d.width * width as real), Trunc(d.height * height as real))
  }

  /** `max(detections, key=score)`: the first detection of highest score. */
  function MainFace(detections: seq<Detection>): (k: nat)
    requires |detections| > 0
    ensures k < |detections|
    ensures forall j :: 0 <= j < |detections| ==> detections[j].score <= detections[k].score
    ensures forall j :: 0 <= j < k ==> detections[j].score < detections[k].score
  {
    var scores := Scores(detections);
    assert forall j :: 0 <= j < |scores| ==> scores[j] == detections[j].score;
    ArgMaxFirst(scores)
  }

  /** `detect_face_features`, with the two detectors' outputs as inputs. */
  function DetectFaceFeatures(detections: seq<Detection>, mesh: Option<seq<Landmark>>, width: nat, height: nat)
    : (d: GuideData)
    ensures detections == [] <==> !d.faceDetected
    ensures detections == [] ==> d == DefaultGuides(width, height)
    ensures detections != [] ==>
      && d.faceBox == Some(PixelBox(detections[MainFace(detections)], width, height))
      && d.eyes == ExtractEyePositions(mesh, width, height)
      && d.guides == CalculateGuideLines(d.faceBox.value, d.eyes, width, height)
  {
    if detections == [] then DefaultGuides(width, height)
    else
      var box := PixelBox(detections[MainFace(detections)], width, height);
      var eyes := ExtractEyePositions(mesh, width, height);
      GuideData(Some(box), eyes, CalculateGuideLines(box, eyes, width, height), true)
  }

  // ---------------------------------------------------------------------------
  // Rendering

  /** What `render_construction_guide` draws on its copy of the image, in order. */
  datatype Mark = GuideStroke(line: Line) | EyeDot(center: Point)

  function GuideMarks(d: GuideData): (marks: seq<Mark>)
    ensures |marks| >= 2 && marks[0] == GuideStroke(d.guides.vertical) && marks[1] == GuideStroke(d.guides.eyeLine)
  {
    [GuideStroke(d.guides.vertical), GuideStroke(d.guides.eyeLine)]
    + (if d.faceDetected && d.eyes.left.Some? then [EyeDot(d.eyes.left.value)] else [])
    + (if d.faceDetected && d.eyes.right.Some? then [EyeDot(d.eyes.right.value)] else [])
  }

  /** Eye dots appear only for a detected face, one per eye found; the default guides draw two lines only. */
  lemma EyeDotsOnlyForDetectedFaces(d: GuideData)
    ensures (exists i :: 0 <= i < |GuideMarks(d)| && GuideMarks(d)[i].EyeDot?) ==> d.faceDetected
    ensures EyeDot(d.eyes.left.value) in GuideMarks(d) <== d.faceDetected && d.eyes.left.Some?
    ensures EyeDot(d.eyes.right.value) in GuideMarks(d) <== d.faceDetected && d.eyes.right.Some?
    ensures !d.faceDetected ==> |GuideMarks(d)| == 2
  {
    var marks := GuideMarks(d);
    if !d.faceDetected {
      assert marks == [GuideStroke(d.guides.vertical), GuideStroke(d.guides.eyeLine)];
    }
  }
}
