/**
 * MediaPipe face landmarks and the classical construction-line table shared
 * by the raster wireframe processor and the SVG generator: landmark-to-pixel
 * conversion, the index-guarded collection of line points, and the
 * polyline segments drawn between consecutive points.
 */
module Landmarks {
  import opened Common

  /** A face-mesh landmark in normalised image coordinates. */
  datatype Landmark = Landmark(x: real, y: real, z: real)

  /** `(int(lm.x * width), int(lm.y * height))` */
  function PixelCoords(lm: Landmark, width: nat, height: nat): (p: Point)
    ensures 0.0 <= lm.x <= 1.0 ==> 0 <= p.x <= width
    ensures 0.0 <= lm.y <= 1.0 ==> 0 <= p.y <= height
  {
    FractionOfSize(lm.x, width);
    FractionOfSize(lm.y, height);
    Point(Trunc(lm.x * width as real), Trunc(lm.y * height as real))
  }

  /**
   * The pixel points of the landmarks named by `indices`, in order, skipping
   * every index that is not below the number of landmarks.
   */
  function Collected(indices: seq<nat>, landmarks: seq<Landmark>, width: nat, height: nat): seq<Point>
  {
    if indices == [] then []
    else
      var last := indices[|indices| - 1];
      Collected(indices[..|indices| - 1], landmarks, width, height)
        + (if last < |landmarks| then [PixelCoords(landmarks[last], width, height)] else [])
  }

  function InRange(landmarks: seq<Landmark>): nat -> bool
  {
    (i: nat) => i < |landmarks|
  }

  /** `draw_line_between_points`' point loop: one point per in-range index. */
  method CollectPoints(indices: seq<nat>, landmarks: seq<Landmark>, width: nat, height: nat)
    returns (points: seq<Point>)
    ensures points == Collected(indices, landmarks, width, height)
    ensures |points| == Count(indices, InRange(landmarks))
  {
    points := [];
    var i := 0;
    while i < |indices|
      invariant 0 <= i <= |indices|
      invariant points == Collected(indices[..i], landmarks, width, height)
    {
      assert indices[..i + 1][..i] == indices[..i];
      if indices[i] < |landmarks| {
        points := points + [PixelCoords(landmarks[indices[i]], width, height)];
      }
      i := i + 1;
    }
    assert indices[..|indices|] == indices;
    CollectedLength(indices, landmarks, width, height);
  }

  /** As many points as there are in-range indices. */
  lemma {:induction false} CollectedLength(indices: seq<nat>, landmarks: seq<Landmark>, width: nat, height: nat)
    ensures |Collected(indices, landmarks, width, height)| == Count(indices, InRange(landmarks))
  {
    if indices != [] {
      CollectedLength(indices[..|indices| - 1], landmarks, width, height);
    }
  }

  /** When every index is in range, point `k` is the pixel of landmark `indices[k]`. */
  lemma {:induction false} CollectedAllInRange(indices: seq<nat>, landmarks: seq<Landmark>, width: nat, height: nat)
    requires forall k :: 0 <= k < |indices| ==> indices[k] < |landmarks|
    ensures |Collected(indices, landmarks, width, height)| == |indices|
    ensures forall k :: 0 <= k < |indices| ==>
      Collected(indices, landmarks, width, height)[k] == PixelCoords(landmarks[indices[k]], width, height)
  {
    if indices != [] {
      CollectedAllInRange(indices[..|indices| - 1], landmarks, width, height);
    }
  }

  /** When no index is in range (in particular, with no landmarks) nothing is collected. */
  lemma {:induction false} CollectedNoneInRange(indices: seq<nat>, landmarks: seq<Landmark>, width: nat, height: nat)
    requires forall k :: 0 <= k < |indices| ==> indices[k] >= |landmarks|
    ensures Collected(indices, landmarks, width, height) == []
  {
    if indices != [] {
      CollectedNoneInRange(indices[..|indices| - 1], landmarks, width, height);
    }
  }

  /** A drawn straight line between two pixel points. */
  datatype Segment = Segment(start: Point, end: Point)

  /** `for i in range(len(points) - 1)`: one segment per consecutive pair. */
  function Segments(points: seq<Point>): (segs: seq<Segment>)
    ensures |points| == 0 ==> |segs| == 0
    ensures |points| >= 1 ==> |segs| == |points| - 1
  {
    if |points| < 2 then [] else seq(|points| - 1, i requires 0 <= i < |points| - 1 => Segment(points[i], points[i + 1]))
  }

  /** The segments form one connected polyline from the first point to the last. */
  lemma SegmentsFormChain(points: seq<Point>)
    requires |points| >= 2
    ensures Segments(points)[0].start == points[0]
    ensures Segments(points)[|points| - 2].end == points[|points| - 1]
    ensures forall i :: 0 <= i < |points| - 2 ==> Segments(points)[i].end == Segments(points)[i + 1].start
  {
  }

  /** Which configured colour a construction line is drawn in. */
  datatype LineRole = VerticalCenter | EyebrowLine | EyeLines | NoseLine | MouthLine

  /** One entry of the construction-line table: its landmarks, SVG id and colour role. */
  datatype GuideLine = GuideLine(indices: seq<nat>, svgId: string, role: LineRole)

  /** The eight construction lines, in drawing order. */
  const ConstructionTable: seq<GuideLine> := [
    GuideLine([10, 168, 4, 152], "center-line", VerticalCenter),
    GuideLine([63, 293], "eyebrow-line", EyebrowLine),
    GuideLine([33, 263], "eye-line-outer", EyeLines),
    GuideLine([133, 362], "eye-line-inner", EyeLines),
    GuideLine([145, 159], "eye-line-left", EyeLines),
    GuideLine([374, 386], "eye-line-right", EyeLines),
    GuideLine([48, 278], "nose-line", NoseLine),
    GuideLine([61, 291], "mouth-line", MouthLine)
  ]

  /** MediaPipe's face-oval landmarks, used by the face-mask transparency method. */
  const FaceOval: seq<nat> := [
    10, 338, 297, 332, 284, 251, 389, 356, 454, 323, 361, 288,
    397, 365, 379, 378, 400, 377, 152, 148, 176, 149, 150, 136,
    172, 58, 132, 93, 234, 127, 162, 21, 54, 103, 67, 109
  ]

  /** With a full 468-landmark mesh every construction line is drawn completely. */
  lemma FullMeshDrawsEveryLine(landmarks: seq<Landmark>, width: nat, height: nat, g: nat)
    requires |landmarks| >= 468
    requires g < |ConstructionTable|
    ensures |Segments(Collected(ConstructionTable[g].indices, landmarks, width, height))|
            == |ConstructionTable[g].indices| - 1
  {
    CollectedAllInRange(ConstructionTable[g].indices, landmarks, width, height);
  }
}
