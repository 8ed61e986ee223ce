# Portrait wireframe: a Dafny model of its decision logic

The system turns portrait photographs into line-art wireframes for drawing
practice. A face detector and landmark model find the face. The system then
draws classical construction lines and the face mesh on a white canvas,
overlays an edge outline, and makes the paper transparent. It can also write
the same layers as SVG, cut figures out of their background, trace cut-outs
into SVG outlines, download portrait paintings with curator cards, and
validate the results.

This project models the part of that system that the repository itself
decides. That covers:

- contour extraction, filtering, ordering, Chaikin smoothing and statistics;
- the edge-map pipeline: alpha masking, automatic Canny thresholds, multi-scale
  OR fusion, Otsu binarisation and small-component removal;
- the raster wireframe: transparency strategies, white-keyed layer overlay,
  edge colourisation, construction-line point collection, the layer order and
  the preset tables;
- the high-resolution processor: thickness scaling and clamps, the weighted
  multi-scale blend, the upscaling decision and the preset grid;
- the SVG builders: the element tree, path data, skip and close rules, ids and
  zoom view boxes;
- the face guide, the cut-out tool, the outline generator, the downloader's
  text helpers and the output validator.

Every library algorithm (OpenCV filters, Canny, resize, morphology, contours,
drawing, MediaPipe, DexiNed, ONNX Runtime) is a field of function type in a
record passed in as a parameter. The model states what the repository does
with those results, not what the libraries compute. Images are flat row-major
sequences. Python's `int(...)` of a float is `Common.Trunc`, which truncates
toward zero on `real`. No IEEE rounding is modelled.

Each source file is one module:

| module | source |
|---|---|
| `Common`, `Sorting`, `Landmarks` | shared vocabulary, Python's stable sort, the landmark tables |
| `ContourRefine` | `image_clipping/contour_refine.py` |
| `EdgeDetection` | `image_clipping/edge_detection.py` |
| `Wireframe` | `image_processing/wireframe_portrait_processor.py` |
| `HighResolution` | `image_processing/high_resolution_wireframe_processor.py` |
| `Svg`, `PathData` | `image_processing/svg_generator.py` |
| `FaceGuide` | `image_clipping/face_guide.py` |
| `Cutout` | `image_clipping/run_cutout.py` and its identical copy `image_processing/run_cutout.py` |
| `OutlineGenerator` | `image_clipping/outline_generator.py` |
| `Downloader` | `download_data/aic_portrait_paintings_downloader.py` |
| `Validator` | `validate_wireframe_output` in `scripts/test_wireframe_workflow.py` |

A few points of the code are easy to misread, and the model follows the code
on each:

- The layers are drawn on a white canvas in the order construction lines,
  then mesh, then outline
  (image_processing/wireframe_portrait_processor.py:535-555). The processor
  has no background merge step, no darkening of guide strokes and no raster
  pose layer, so none is modelled.
- `filter_contours_by_properties` keeps a contour whose minimum-area
  rectangle has a zero side: the aspect test runs only when both sides are
  positive (image_clipping/contour_refine.py:180-187).
- The SVG print-quality preset's canvas is 3439 x 2480
  (image_processing/svg_generator.py:488-489). Its comment calls this A4 at
  300 DPI, which would be 3508 pixels wide.

## Model

| member | source | states |
|---|---|---|
| Common.Trunc | image_processing/wireframe_portrait_processor.py:119 | `int(x)` truncates toward zero: for `x >= 0` the result is the largest integer not above `x`, and for `x < 0` the smallest integer not below it |
| Common.Opaque | image_processing/wireframe_portrait_processor.py:438 | converting RGB to RGBA keeps the colour and sets alpha to 255 |
| Common.NatToStringRoundTrip | image_processing/svg_generator.py:85 | the decimal rendering used in ids reads back as the same number |
| Common.IntToString | image_processing/svg_generator.py:165 | `str(i)` is non-empty digits, with a leading `-` exactly for negative numbers, and it reads back as `i` |
| Common.IntToStringInjective | image_processing/svg_generator.py:138 | distinct integers render to distinct strings, which is what keeps numbered ids apart |
| Common.ArgMaxFirst | image_clipping/face_guide.py:65 | `max(..., key=...)` picks an element no smaller than any other, and the first such element on ties |
| Common.FilterMembership | image_clipping/contour_refine.py:166-187 | a loop that appends the survivors keeps exactly the elements that pass |
| Sorting.SortStableSorted | image_clipping/contour_refine.py:45 | Python's sort puts every element before the ones that must come after it, for any total preorder |
| Sorting.SortStablePermutation | image_clipping/contour_refine.py:45 | sorting is a permutation of its input, as a multiset |
| Sorting.SortStableKeepsTieOrder | image_clipping/contour_refine.py:45 | elements the order cannot tell apart keep their input order (stability, also with `reverse=True`) |
| Landmarks.PixelCoords | image_processing/wireframe_portrait_processor.py:115-120 | a landmark inside the unit square maps to a pixel within `[0, width] x [0, height]` |
| Landmarks.CollectPoints | image_processing/wireframe_portrait_processor.py:122-128 | the point loop appends, in index order, the pixel of every landmark index below the landmark count, and skips the others |
| Landmarks.CollectedLength | image_processing/wireframe_portrait_processor.py:124-128 | as many points are collected as there are in-range indices |
| Landmarks.CollectedAllInRange | image_processing/wireframe_portrait_processor.py:124-128 | with every index in range, point `k` is the pixel of landmark `indices[k]` |
| Landmarks.CollectedNoneInRange | image_processing/wireframe_portrait_processor.py:107-108 | with no index in range, and so with no landmarks, nothing is collected |
| Landmarks.Segments | image_processing/wireframe_portrait_processor.py:131-132 | `k` points give `k - 1` segments, and fewer than two points give none |
| Landmarks.SegmentsFormChain | image_processing/wireframe_portrait_processor.py:131-132 | the segments form one connected polyline from the first point to the last |
| Landmarks.FullMeshDrawsEveryLine | image_processing/wireframe_portrait_processor.py:135-153 | with a full 468-landmark mesh, every construction line in the table is drawn through all of its points |
| ContourRefine.ByAreaDescendingIsTotalPreorder | image_clipping/contour_refine.py:45 | ordering by `contourArea` with `reverse=True` is a total preorder, so the stable-sort lemmas apply |
| ContourRefine.ExtractContours | image_clipping/contour_refine.py:35-48 | the loop keeps the found contours with area at least `min_contour_area`, in order, and then sorts them by descending area |
| ContourRefine.ExtractedProperties | image_clipping/contour_refine.py:37-45 | the result is exactly the contours of area at least the minimum (as a multiset), every kept contour meets the minimum, every qualifying contour is kept, and areas never increase along the list |
| ContourRefine.ExtractedKeepsTieOrder | image_clipping/contour_refine.py:45 | contours of equal area keep the order `findContours` gave them |
| ContourRefine.ToleranceScalesWithPerimeter | image_clipping/contour_refine.py:62-63 | the tolerance is proportional to the closed perimeter: `k` times the perimeter gives `k` times the tolerance, and a larger factor never gives a smaller one |
| ContourRefine.CutCornersUpToShape | image_clipping/contour_refine.py:99-109 | edge `i` contributes `p_i + r(p_{i+1} - p_i)` and then `p_i + (1 - r)(p_{i+1} - p_i)`, in edge order, and the last edge wraps round to the first point |
| ContourRefine.ChaikinIterateLength | image_clipping/contour_refine.py:95-111 | each iteration doubles the number of points, so `k` iterations give `n * 2^k` |
| ContourRefine.ChaikinIterateCompose | image_clipping/contour_refine.py:95-111 | `a` iterations followed by `b` iterations equal `a + b` iterations |
| ContourRefine.LerpInBox | image_clipping/contour_refine.py:105-106 | a cut point with ratio in `[0, 1]` stays inside any box that holds both edge ends |
| ContourRefine.ChaikinIterateInBox | image_clipping/contour_refine.py:95-111 | with a ratio in `[0, 1]`, the fractional points never leave a box that holds the input |
| ContourRefine.ChaikinSmooth | image_clipping/contour_refine.py:84-118 | the nested loops compute `Chaikin`: a contour of fewer than 3 points is returned as is; otherwise the corners are cut `max(iterations, 0)` times on fractional points and truncated to integers only at the end |
| ContourRefine.ChaikinLength | image_clipping/contour_refine.py:84-111 | fewer than 3 points come back unchanged; otherwise the result has `n * 2^iterations` points, and no iteration runs for a non-positive count |
| ContourRefine.ChaikinZeroIterations | image_clipping/contour_refine.py:93-118 | zero iterations give the contour back, because only the integer conversion runs |
| ContourRefine.ChaikinStaysInBox | image_clipping/contour_refine.py:95-118 | the smoothed integer contour stays inside the integer bounding box of its input |
| ContourRefine.SmoothPreset | image_clipping/contour_refine.py:132-138 | `light` and `heavy` select their rows, and every other name, `medium` included, selects `medium` |
| ContourRefine.SmoothPresetsAreProper | image_clipping/contour_refine.py:133-135 | every preset has a ratio in `(0, 1/2]`, a positive tolerance factor and 1 to 3 iterations |
| ContourRefine.AdaptiveSmooth | image_clipping/contour_refine.py:138-144 | simplification with the preset's tolerance factor runs first, then Chaikin smoothing with the preset's iterations and ratio |
| ContourRefine.FilterByProperties | image_clipping/contour_refine.py:164-190 | the loop keeps, in order, exactly the contours that pass the area, perimeter and aspect tests |
| ContourRefine.KeptContourBounds | image_clipping/contour_refine.py:168-185 | a kept contour has area at least `min_area`, area at most `max_area` when one is set, perimeter at least `min_perimeter`, and an aspect ratio in range when its rectangle has two positive sides |
| ContourRefine.AspectSymmetric | image_clipping/contour_refine.py:182-184 | the aspect test does not depend on which side is called the width |
| ContourRefine.SquareAspect | image_clipping/contour_refine.py:182-184 | a square passes the aspect test exactly when 1 lies in the accepted range |
| ContourRefine.DegenerateRectangleKept | image_clipping/contour_refine.py:180-187 | a rectangle with a zero side skips the aspect test, so size alone decides |
| ContourRefine.ZeroMaxAreaIsNoLimit | image_clipping/contour_refine.py:171 | `max_area` of 0 and of `None` filter alike, because 0 is falsy |
| ContourRefine.ProcessContours | image_clipping/contour_refine.py:211-238 | no extracted contour gives `[]`; otherwise there is one output per candidate, in order, refined by the policy for the given flags |
| ContourRefine.NoRefinementIsIdentity | image_clipping/contour_refine.py:224-234 | with both flags off each candidate is returned unchanged; smoothing alone uses Chaikin with 2 iterations and ratio 0.25; simplification alone uses the factor 0.005 |
| ContourRefine.ContourStatistics | image_clipping/contour_refine.py:268-283 | an empty list gives only a count of 0; otherwise the count is the length, the total is the sum of areas, the mean area times the count is the total, the mean perimeter times the count is the sum of the closed perimeters, and the largest area is at least every area and is the area of some contour |
| EdgeDetection.Lift | image_clipping/edge_detection.py:102 | the image built from a per-pixel rule has the requested size and that rule's value at every pixel |
| EdgeDetection.ToGray | image_clipping/edge_detection.py:29-39 | grey, BGR and BGRA inputs all convert to a grey image of the input's size |
| EdgeDetection.AlphaMaskedToWhite | image_clipping/edge_detection.py:30-35 | a BGRA pixel with alpha 0 becomes white (255); one with alpha above 0 keeps the grey value of its colour; a fully opaque BGRA image converts exactly as its BGR part |
| EdgeDetection.Preprocess | image_clipping/edge_detection.py:42-54 | the output keeps the input's size, and a method other than `bilateral`, `guided` or `gaussian` applies no smoothing |
| EdgeDetection.MedianThresholds | image_clipping/edge_detection.py:71-73 | lower = `max(0, int((1 - sigma) * median))` is at least 0 and upper = `min(255, int((1 + sigma) * median))` is at most 255 |
| EdgeDetection.MedianThresholdsBracketMedian | image_clipping/edge_detection.py:71-73 | for a grey median and `0 <= sigma <= 1`, lower is at most the median, upper is at least `int(median)`, and lower is at most upper |
| EdgeDetection.FinalThresholds | image_clipping/edge_detection.py:76-81 | the final lower threshold is the larger of the two lower estimates and the final upper threshold is the smaller of the two upper estimates; both stay within `[0, 255]` |
| EdgeDetection.AutoCanny | image_clipping/edge_detection.py:71-88 | the edge map has the input's size |
| EdgeDetection.OrBit | image_clipping/edge_detection.py:119 | a bit of `a OR b` is set exactly when it is set in `a` or in `b` |
| EdgeDetection.ScaleEdges | image_clipping/edge_detection.py:105-116 | every scale's edge map comes back at the input's size: a non-unit scale resizes to `(int(h*s), int(w*s))` and the edges back to `(h, w)` |
| EdgeDetection.OrInto | image_clipping/edge_detection.py:119 | `bitwise_or` into the buffer sets each pixel to the OR of its old value and the edge pixel |
| EdgeDetection.MultiscaleCanny | image_clipping/edge_detection.py:101-121 | starting from an all-zero map, the loop ORs in each scale's edges; the result has the input's size and equals the fused pixel at every pixel; a scale that would resize to an empty image is the error case |
| EdgeDetection.FusedPixelBits | image_clipping/edge_detection.py:102-119 | a bit of a fused pixel is set exactly when some scale's edge map sets it |
| EdgeDetection.FusionContainsEveryScale | image_clipping/edge_detection.py:102-119 | every scale's edges are contained in the result, and an edge pixel of any scale is non-zero in the result |
| EdgeDetection.FusionIgnoresScaleOrder | image_clipping/edge_detection.py:104-119 | the result depends only on the set of scales, not on their order or repetition |
| EdgeDetection.Structured | image_clipping/edge_detection.py:154-157 | the output is 255 exactly where the combined response is strictly above the Otsu threshold, and 0 everywhere else |
| EdgeDetection.FallbackCanny | image_clipping/edge_detection.py:186 | the fallback Canny(50, 150) map has the input's size |
| EdgeDetection.DetectEdges | image_clipping/edge_detection.py:174-188 | preprocessing comes first; `auto_canny` and `structured` give their detectors' maps, `multiscale_canny` gives the OR-fused map of the scales pixel by pixel (none when a scale's size is invalid), with the option scales defaulting to `[1.0, 0.8, 1.2]`; any other name gives Canny(50, 150); the map has the input's size |
| EdgeDetection.Morphology | image_clipping/edge_detection.py:208-215 | closing with a 3x3 ellipse, then opening with a 2x2 ellipse, only when requested; otherwise the edges are unchanged |
| EdgeDetection.RefineEdges | image_clipping/edge_detection.py:206-231 | a pixel is 255 exactly when its label is at least 1 and its component's area is at least `min_component_size`, and 0 otherwise; with the component filter off the morphology result is returned; the input is not changed |
| Wireframe.Render | image_processing/wireframe_portrait_processor.py:536 | the image built from a per-pixel rule has the requested size and that rule's colour at every pixel |
| Wireframe.WhiteCanvas | image_processing/wireframe_portrait_processor.py:536 | the starting canvas has the image's size and is white at every pixel |
| Wireframe.Paint | image_processing/wireframe_portrait_processor.py:131-132 | a drawing call never changes the image's shape |
| Wireframe.PaintAll | image_processing/wireframe_portrait_processor.py:131-132 | a sequence of drawing calls keeps the image's shape |
| Wireframe.PaintAllAppend | image_processing/wireframe_portrait_processor.py:135-153 | drawing one list of strokes and then another equals drawing their concatenation |
| Wireframe.PolylineStrokes | image_processing/wireframe_portrait_processor.py:131-132 | one stroke per consecutive pair of points |
| Wireframe.DrawPolyline | image_processing/wireframe_portrait_processor.py:131-132 | the drawing loop paints a line between each consecutive pair of points, in order, with the given `cv2.line` line type |
| Wireframe.DrawConstructionLines | image_processing/wireframe_portrait_processor.py:107-153 | the image gets the table's strokes in table order, each line through its in-range landmark points in its role's colour, drawn with OpenCV's default line type; no landmarks give the image back unchanged |
| Wireframe.NoLandmarksNoStrokes | image_processing/wireframe_portrait_processor.py:107-108 | without landmarks no construction line has a point, so nothing is drawn |
| Wireframe.FullMeshStrokeCount | image_processing/wireframe_portrait_processor.py:135-153 | a full 468-landmark mesh gives ten segments: three on the vertical centre line and one for each of the seven two-point lines |
| Wireframe.ConstructionStrokeColors | image_processing/wireframe_portrait_processor.py:135-153 | every construction stroke is a line drawn with the configured thickness and the given line type, in the colour of one of the table's roles |
| Wireframe.FaceStrokes | image_processing/wireframe_portrait_processor.py:193-227 | each face gets exactly three passes, because the colour guards test a 3-tuple, which is always truthy |
| Wireframe.DrawFaceMesh | image_processing/wireframe_portrait_processor.py:178-229 | the loop draws every face's three passes, faces in order; no faces give the image back unchanged |
| Wireframe.MeshStrokesLayout | image_processing/wireframe_portrait_processor.py:184-227 | pass `j` of face `i` is stroke `3i + j`, and there are three strokes per face |
| Wireframe.Colourised | image_processing/wireframe_portrait_processor.py:333-336 | white everywhere except the marked pixels, which take the outline colour |
| Wireframe.ThresholdMask | image_processing/wireframe_portrait_processor.py:327-330 | one mark per pixel of the target size: the resized edge value is strictly above the threshold |
| Wireframe.CannyMask | image_processing/wireframe_portrait_processor.py:342-347 | one mark per pixel: Canny(50, 150) of the grey image is non-zero |
| Wireframe.PostprocessEdges | image_processing/wireframe_portrait_processor.py:322-338 | the loop colours, on white, exactly the pixels whose resized edge value is strictly above `dexined_threshold` |
| Wireframe.FallbackEdgeDetection | image_processing/wireframe_portrait_processor.py:340-349 | the loop colours, on white, exactly the pixels where Canny(50, 150) is non-zero |
| Wireframe.OutlineImage | image_processing/wireframe_portrait_processor.py:273-295 | the outline has the image's size whichever source produced it |
| Wireframe.GenerateOutline | image_processing/wireframe_portrait_processor.py:273-295 | the network's thresholded edges when it ran; the Canny fallback when it is unavailable or raised |
| Wireframe.OverlayPixel | image_processing/wireframe_portrait_processor.py:666-673 | a line pixel replaces the canvas pixel exactly when it is not pure white |
| Wireframe.Overlaid | image_processing/wireframe_portrait_processor.py:661-678 | the overlay keeps the canvas's shape |
| Wireframe.AddLinesToCanvas | image_processing/wireframe_portrait_processor.py:659-678 | the loop writes into a copy of the canvas every non-white colour line pixel, or `dexined_color` wherever a grey line pixel is below 255; all other pixels keep the canvas |
| Wireframe.OverlayIdempotent | image_processing/wireframe_portrait_processor.py:659-678 | applying the same overlay twice gives the same result as applying it once |
| Wireframe.OverlayOntoWhiteCanvas | image_processing/wireframe_portrait_processor.py:666-673 | on a white canvas the colour overlay reproduces the line image exactly |
| Wireframe.OutlineOverlay | image_processing/wireframe_portrait_processor.py:333-336 | overlaying a colourised outline shows the outline colour at marked pixels and keeps the canvas elsewhere; an outline coloured pure white is invisible |
| Wireframe.MapRgba | image_processing/wireframe_portrait_processor.py:385 | a per-pixel RGBA conversion keeps the image's size and applies the rule at every pixel |
| Wireframe.WithAlpha | image_processing/wireframe_portrait_processor.py:392 | setting alpha keeps the colour |
| Wireframe.LinesOnlyPixel | image_processing/wireframe_portrait_processor.py:385-392 | the colour is kept, and alpha is 0 exactly when all three channels are at least 250, and 255 otherwise |
| Wireframe.LinesOnly | image_processing/wireframe_portrait_processor.py:382-394 | the loop applies the near-white rule to every pixel |
| Wireframe.InBandMeansNear | image_processing/wireframe_portrait_processor.py:453-458 | the clamped inclusive band `[max(0, c - 20), min(255, c + 20)]` holds a channel exactly when it is within 20 of `c` |
| Wireframe.ColorFilterPixel | image_processing/wireframe_portrait_processor.py:446-462 | the colour is kept, and alpha is 255 exactly when every channel lies in the band of one of the six palette colours, and 0 otherwise |
| Wireframe.ColorFilter | image_processing/wireframe_portrait_processor.py:441-464 | the loop ORs a keep mask over the six palette colours and then clears alpha off the mask, which equals the per-pixel rule |
| Wireframe.ColorDiff | image_processing/wireframe_portrait_processor.py:434-438 | the colours are unchanged and alpha is 255 everywhere |
| Wireframe.FaceMaskImage | image_processing/wireframe_portrait_processor.py:397-431 | the mask image keeps the input's size |
| Wireframe.FaceMask | image_processing/wireframe_portrait_processor.py:397-431 | the in-range face-oval landmarks are collected, and alpha is 0 exactly where the filled, eroded polygon is non-zero; with no oval landmark in range nothing is transparent |
| Wireframe.FaceMaskNeedsOvalLandmarks | image_processing/wireframe_portrait_processor.py:402-419 | every face-oval index is at least 10, so with ten or fewer landmarks the whole image stays opaque |
| Wireframe.CreateWireframeRgba | image_processing/wireframe_portrait_processor.py:369-379 | the method name selects its strategy, and any unknown name selects `lines_only` |
| Wireframe.TransparencyKeepsColour | image_processing/wireframe_portrait_processor.py:369-464 | every strategy keeps the shape and the colours and sets alpha only to 0 or 255 |
| Wireframe.WhiteBecomesTransparent | image_processing/wireframe_portrait_processor.py:388-392 | a pure-white canvas pixel becomes transparent under `lines_only` and under `color_filter` |
| Wireframe.PaletteColoursKept | image_processing/wireframe_portrait_processor.py:446-449 | the default construction colours and the tesselation grey survive the colour filter |
| Wireframe.ColorFilterDropsDarkLines | image_processing/wireframe_portrait_processor.py:446-462 | the default contour grey, the iris black and the outline black are not in the palette, so the colour filter makes them transparent |
| Wireframe.NearWhiteLineVanishes | image_processing/wireframe_portrait_processor.py:666-673 | a line pixel that is not pure white but has every channel at least 250 is written onto the canvas and then made transparent by `lines_only` (the 388-389 test) |
| Wireframe.Layered | image_processing/wireframe_portrait_processor.py:535-555 | the composed canvas has the image's size |
| Wireframe.DrawLayers | image_processing/wireframe_portrait_processor.py:535-555 | construction lines, then mesh, then the outline overlay are drawn on a white canvas; each layer's snapshot exists exactly when it is enabled; the outline runs only when enabled with a model path |
| Wireframe.ProcessImage | image_processing/wireframe_portrait_processor.py:519-566 | no image or no face gives no result; otherwise the results hold the original, the first face's landmarks and the enabled layer snapshots, and the final image is RGBA exactly when `output_format == "rgba"`, made with the configured transparency strategy |
| Wireframe.OutlineDrawnOnTop | image_processing/wireframe_portrait_processor.py:551-555 | wherever the outline image is not white, the composed canvas shows the outline pixel, whatever was drawn beneath |
| Wireframe.NoFeaturesBlankCanvas | image_processing/wireframe_portrait_processor.py:535-555 | with every feature off the canvas stays blank white |
| Wireframe.OutlineContours | image_processing/wireframe_portrait_processor.py:760-766 | no more contours are kept than were found |
| Wireframe.OutlineContoursMembership | image_processing/wireframe_portrait_processor.py:763-764 | a contour is kept exactly when it was found and its area is strictly above 50 |
| Wireframe.PresetConfigs | image_processing/wireframe_portrait_processor.py:789-833 | exactly five named presets, all with RGBA output, each the default configuration with only its feature toggles changed |
| Wireframe.PresetLadder | image_processing/wireframe_portrait_processor.py:793-831 | beginner enables all three features, intermediate construction and mesh, advanced construction only, `outline_only` the outline and `mesh_only` the mesh |
| HighResolution.ScaledThickness | image_processing/high_resolution_wireframe_processor.py:85-91 | the scaled construction thickness is never below one pixel |
| HighResolution.Thickness | image_processing/high_resolution_wireframe_processor.py:87-91 | `max(1, int(x))` is at least one pixel |
| HighResolution.ThicknessGrows | image_processing/high_resolution_wireframe_processor.py:87-91 | a larger scaled value never gives a thinner line |
| HighResolution.ThicknessAtBaseResolution | image_processing/high_resolution_wireframe_processor.py:85-91 | at 1080 pixels on the longer side with unit scaling the configured thickness is used unchanged |
| HighResolution.LineScaleMonotone | image_processing/high_resolution_wireframe_processor.py:85-91 | the unrounded line weight grows with the longer side of the canvas |
| HighResolution.ThicknessMonotone | image_processing/high_resolution_wireframe_processor.py:85-91 | a canvas whose longer side is at least as long never gets thinner lines |
| HighResolution.DrawSmoothLine | image_processing/high_resolution_wireframe_processor.py:102-117 | below two points nothing is drawn; otherwise the same segments are drawn anti-aliased (`cv2.LINE_AA`) whether vector mode is on or off |
| HighResolution.DrawConstructionLinesHires | image_processing/high_resolution_wireframe_processor.py:71-137 | the canvas equals the base table's construction strokes painted in order, with the thickness scaled to the canvas and every segment anti-aliased |
| HighResolution.DrawFaceMeshHires | image_processing/high_resolution_wireframe_processor.py:144-214 | the canvas equals the base mesh passes painted in order, with the mesh thickness scaled by canvas size and mesh density |
| HighResolution.HiresLinesAtBaseResolution | image_processing/high_resolution_wireframe_processor.py:85-91 | at the base resolution with unit scaling the high-resolution line configuration is the base configuration |
| HighResolution.LineScaling | image_processing/high_resolution_wireframe_processor.py:389 | the line scaling lies in [0.5, 3.0] and equals the resolution factor inside that range |
| HighResolution.MeshScaling | image_processing/high_resolution_wireframe_processor.py:390 | the mesh scaling lies in [0.5, 2.0] and equals 0.8 times the factor inside that range |
| HighResolution.ScalingForStandardTargets | image_processing/high_resolution_wireframe_processor.py:377-390 | HD keeps unit line scaling (mesh 0.8), 4K doubles it (mesh 1.6), 8K reaches both upper clamps |
| HighResolution.HighResolutionProcessor.constructor | image_processing/high_resolution_wireframe_processor.py:362-375 | the stored configuration is the given one with both scalings recomputed from the target, and the outline generator exists exactly when the outline is enabled with a model path |
| HighResolution.HighResolutionProcessor.CalculateScalingFactors | image_processing/high_resolution_wireframe_processor.py:377-390 | only the two scalings change, each set to the clamped factor |
| HighResolution.Scales | image_processing/high_resolution_wireframe_processor.py:234-236 | the scales always include 1.0 and stay within [0.5, 1.5] |
| HighResolution.ScaledThresholdProperties | image_processing/high_resolution_wireframe_processor.py:303 | the unit scale keeps the configured threshold and the threshold grows with the scale |
| HighResolution.ScaleOutline | image_processing/high_resolution_wireframe_processor.py:240-269 | one scale's outline has the image's size |
| HighResolution.ScaleEdgeImage | image_processing/high_resolution_wireframe_processor.py:240-271 | one pass of the loop is the scaled post-processing, resized back when the scale is not 1.0 |
| HighResolution.ScaleOutlines | image_processing/high_resolution_wireframe_processor.py:240-271 | one outline per scale, each of the image's size |
| HighResolution.ScaleEdgeImages | image_processing/high_resolution_wireframe_processor.py:238-271 | the loop collects exactly the per-scale outlines, in scale order |
| HighResolution.BlendAll | image_processing/high_resolution_wireframe_processor.py:312-332 | the blend of same-shaped results has their shape |
| HighResolution.CombineMultiscaleEdges | image_processing/high_resolution_wireframe_processor.py:312-332 | the in-place blend over a white start equals the pixelwise blend of the first three results |
| HighResolution.BlendChannelBelowWhite | image_processing/high_resolution_wireframe_processor.py:328-330 | blending a channel where either input is below white stays below 255 after truncation |
| HighResolution.WeightedBelowWhite | image_processing/high_resolution_wireframe_processor.py:328-330 | a proper mix of two values up to 255, one below 255, is below 255 |
| HighResolution.CombinedWhiteIffUnmarked | image_processing/high_resolution_wireframe_processor.py:318-330 | a blended pixel is pure white exactly when no weighted result marks it |
| HighResolution.CombinedImage | image_processing/high_resolution_wireframe_processor.py:274-277 | the combined outline has the image's shape, and a single result is used as is |
| HighResolution.EnhanceMask | image_processing/high_resolution_wireframe_processor.py:338-349 | the cleaned grey mask has one entry per pixel |
| HighResolution.EnhanceEdges | image_processing/high_resolution_wireframe_processor.py:352-355 | the enhanced image is the outline colour exactly where the cleaned grey is below 250, and white elsewhere |
| HighResolution.HiresOutline | image_processing/high_resolution_wireframe_processor.py:223-287 | the outline always has the image's size, falling back to Canny when the model is missing or raised; this is the corrected reading of the network call (see Findings) |
| HighResolution.GenerateOutlineHires | image_processing/high_resolution_wireframe_processor.py:223-287 | the method computes that outline: fallback, per-scale loop, blend when more than one scale, optional enhancement |
| HighResolution.SingleScaleIsBaseOutline | image_processing/high_resolution_wireframe_processor.py:234-287 | with one scale and no enhancement the high-resolution outline is the base outline |
| HighResolution.AsWrittenSource | image_processing/high_resolution_wireframe_processor.py:251-256 | as written, a loaded model never yields edge maps: the `with` on the module raises, and only a missing model stays a missing model |
| HighResolution.HiresOutlineAsWritten | image_processing/high_resolution_wireframe_processor.py:223-287 | the outline as written has the image's size |
| HighResolution.NetworkIgnoredAsWritten | image_processing/high_resolution_wireframe_processor.py:251-287 | as written, whatever the network would return, the outline is the Canny fallback; with one scale and no enhancement the intended outline is the network's thresholded edge map |
| HighResolution.PlannedSizeAsWritten | image_processing/high_resolution_wireframe_processor.py:400-407 | an upscale is planned exactly when the longer image side is shorter than the longer target side |
| HighResolution.PlannedSize | image_processing/high_resolution_wireframe_processor.py:400-407 | the same condition, with the target read as (width, height) |
| HighResolution.SwappedTargetCounterexample | image_processing/high_resolution_wireframe_processor.py:401 | a 1920x1080 image aimed at 4K becomes 2160x1215 as written, and 3840x2160 once corrected |
| HighResolution.UpscaleFitsTarget | image_processing/high_resolution_wireframe_processor.py:417-433 | the upscaled size fits inside the target box and fills one of its sides |
| HighResolution.WiderThanTarget | image_processing/high_resolution_wireframe_processor.py:426-429 | fitting the width of a wider image leaves a height inside the target |
| HighResolution.NotWiderThanTarget | image_processing/high_resolution_wireframe_processor.py:430-433 | fitting the height of a taller image leaves a width inside the target |
| HighResolution.Upscaled | image_processing/high_resolution_wireframe_processor.py:437-441 | the resized image has the requested width and height |
| HighResolution.PrepareImage | image_processing/high_resolution_wireframe_processor.py:400-415 | a large enough image is kept as is; a smaller one is resized to a size inside the target box; tiling changes nothing |
| HighResolution.PresetKeysDistinct | image_processing/high_resolution_wireframe_processor.py:555-556 | different (preset, resolution) pairs have different names |
| HighResolution.KeyNotBefore | image_processing/high_resolution_wireframe_processor.py:555-576 | a preset's name is not among the names inserted before it |
| HighResolution.InsertKeeps | image_processing/high_resolution_wireframe_processor.py:576 | one insertion keeps every earlier entry and adds a fresh name |
| HighResolution.InsertPreset | image_processing/high_resolution_wireframe_processor.py:555-576 | one insertion adds the preset built from the base preset at that resolution |
| HighResolution.AddResolution | image_processing/high_resolution_wireframe_processor.py:555-576 | one round adds every base preset at that resolution and keeps every earlier entry |
| HighResolution.PresetsFrom | image_processing/high_resolution_wireframe_processor.py:554-578 | after both loops every base preset is present at every resolution, and no other name |
| HighResolution.CreateHighResolutionPresets | image_processing/high_resolution_wireframe_processor.py:536-578 | the table has every base preset at every resolution, built from that preset, and nothing else |
| HighResolution.TilingAboveFourK | image_processing/high_resolution_wireframe_processor.py:571 | tiling is on for 8K and both print sizes, and off for HD and 4K |
| Svg.GuideLineNodes | image_processing/svg_generator.py:84-91 | a guide of n collected points gives one line element per segment between neighbours |
| Svg.GuideSegments | image_processing/svg_generator.py:84-91 | the segment loop builds exactly those line elements, in order |
| Svg.GuideLineIdIs | image_processing/svg_generator.py:85 | segment i of a guide gets the id `{line_id}-{i}` |
| Svg.GuideLineIdsDistinct | image_processing/svg_generator.py:84-85 | segment ids within one guide are distinct |
| Svg.NumberedIdsDistinct | image_processing/svg_generator.py:85 | ids with one prefix and different numbers differ |
| Svg.BuildConstructionLines | image_processing/svg_generator.py:93-111 | the guide loop produces the line elements of all eight guides, in table order |
| Svg.GuideLinesMatchStrokes | image_processing/svg_generator.py:72-91 | each line element of a guide runs along the segment of the matching raster stroke |
| Svg.ConstructionLinesMatchRaster | image_processing/svg_generator.py:48-111 | element k of the construction group runs along raster construction stroke k, for every k: the SVG and the raster guides agree |
| Svg.MatchesAppend | image_processing/svg_generator.py:93-111 | agreement between line elements and strokes is kept by concatenation |
| Svg.FullMeshConstructionLines | image_processing/svg_generator.py:95-111 | with a full 468-landmark mesh the construction group holds ten line elements |
| Svg.MeshLines | image_processing/svg_generator.py:132-138 | one line element per connection whose two ends exist |
| Svg.BuildMeshLines | image_processing/svg_generator.py:129-138 | the connection loop builds exactly those elements, in order |
| Svg.MeshIdInjective | image_processing/svg_generator.py:138 | different connections get different `mesh-{a}-{b}` ids |
| Svg.MeshIdTail | image_processing/svg_generator.py:138 | after `mesh-` come the two numbers and the dash between them |
| Svg.DigitsHaveNoDash | image_processing/svg_generator.py:138 | a rendered number holds no dash |
| Svg.SplitAtDash | image_processing/svg_generator.py:138 | in `s-t` with dash-free `s`, equal strings split at the same place |
| Svg.EdgePathRoundTrip | image_processing/svg_generator.py:154-170 | from two points on, the edge path's text parses back to a move to the first point and a line to each later point |
| Svg.ContourPaths | image_processing/svg_generator.py:186-188 | one path per contour of four or more points |
| Svg.ContourPathsFromContours | image_processing/svg_generator.py:186-227 | every path is the path of a contour of four or more points, numbered by that contour's position |
| Svg.ContourPathsStep | image_processing/svg_generator.py:186-188 | one more contour adds its path exactly when it has four or more points |
| Svg.ContourPathRoundTrip | image_processing/svg_generator.py:199-227 | a contour path's text parses back to its points, closed with `Z` exactly when it has more than six points and its ends lie within five pixels in both directions |
| Svg.ContourIdInjective | image_processing/svg_generator.py:191 | two contour paths with the same id come from the same contour |
| Svg.ContourPathData | image_processing/svg_generator.py:199-225 | the loop's text is the serialised polyline, closed under the same rule |
| Svg.BuildContourPaths | image_processing/svg_generator.py:186-227 | the contour loop builds exactly those paths, in order |
| Svg.PoseLines | image_processing/svg_generator.py:275-301 | one line element per connection with neither end excluded and both ends present |
| Svg.BuildPoseLines | image_processing/svg_generator.py:275-301 | the connection loop builds exactly those elements, in order |
| Svg.IncludedIndices | image_processing/svg_generator.py:307-310 | the circle indices are exactly the landmark indices not excluded |
| Svg.NothingExcludedEveryPoint | image_processing/svg_generator.py:307-310 | without exclusions every landmark gets a circle, in landmark order |
| Svg.PointsAt | image_processing/svg_generator.py:307-322 | one circle per listed landmark |
| Svg.PointsAtSnoc | image_processing/svg_generator.py:307-322 | one more listed landmark appends its circle |
| Svg.BuildPosePoints | image_processing/svg_generator.py:307-322 | the landmark loop builds one circle per included landmark, in order |
| Svg.ZoomViewBox | image_processing/svg_generator.py:372-385 | a zero zoom has no box; otherwise the box is the canvas divided by the zoom and never starts left of or above the origin, nor further than the canvas allows |
| Svg.ZoomInStaysOnCanvas | image_processing/svg_generator.py:372-385 | for a zoom of at least one the box lies inside the canvas, and a centre far enough inside is kept exactly |
| Svg.NonNegScaleDown | image_processing/svg_generator.py:373-374 | dividing a size by a zoom of at least one gives a value between zero and that size |
| Svg.UnitZoomIsWholeCanvas | image_processing/svg_generator.py:372-385 | a zoom of one frames the whole canvas |
| Svg.SvgGenerator.constructor | image_processing/svg_generator.py:15-46 | the root holds a background rectangle exactly when the background colour is not empty |
| Svg.SvgGenerator.AddConstructionLines | image_processing/svg_generator.py:48-111 | the construction group is appended to the root's children, and nothing else changes |
| Svg.SvgGenerator.AddFaceMesh | image_processing/svg_generator.py:113-138 | the mesh group is appended, and nothing else changes |
| Svg.SvgGenerator.AddEdgeOutline | image_processing/svg_generator.py:140-170 | the edge group is appended, empty below two points |
| Svg.SvgGenerator.AddDexinedOutline | image_processing/svg_generator.py:172-227 | the contour group is appended, and nothing else changes |
| Svg.SvgGenerator.AddPoseLandmarks | image_processing/svg_generator.py:241-322 | an empty pose changes nothing; otherwise the pose group with its connections and points is appended |
| Svg.SvgGenerator.CreateZoomedVersion | image_processing/svg_generator.py:387-406 | a zero zoom fails; otherwise the copy has the same children and the zoomed view box, and the document is unchanged |
| Svg.EnabledLayers | image_processing/svg_generator.py:409-444 | the enabled layers are among the four layer names |
| Svg.PresetLayers | image_processing/svg_generator.py:461-494 | beginner draws construction only, intermediate adds the mesh, advanced and print quality draw all four, print quality is never thinner than the defaults, and no preset changes a colour |
| PathData.SplitJoin | image_processing/svg_generator.py:165-168 | splitting undoes joining when no token holds the delimiter |
| PathData.ParseIntRoundTrip | image_processing/svg_generator.py:165 | an integer's text reads back as that integer |
| PathData.IntTextIsPlain | image_processing/svg_generator.py:165 | an integer's text holds no space and no comma |
| PathData.SerializeSnoc | image_processing/svg_generator.py:168 | one more command appends a space and its text |
| PathData.CommandTextIs | image_processing/svg_generator.py:165-168 | a move reads `M x y`, a line `L x y` (or `x,y`) and a close `Z` |
| PathData.ParseTokensRoundTrip | image_processing/svg_generator.py:165-168 | the tokens of any command list parse back to that list |
| PathData.ParseSerialize | image_processing/svg_generator.py:165-168 | path data reads back as the commands it was written from |
| PathData.SerializeInjective | image_processing/svg_generator.py:165-168 | different command lists give different path data |
| PathData.Polyline | image_processing/svg_generator.py:165-168 | a move to the first point, a line to each later point, and a close exactly when asked |
| PathData.PathDataSnoc | image_processing/svg_generator.py:168 | one more point adds ` L ` and the point |
| PathData.PathDataClose | image_processing/svg_generator.py:224-225 | closing adds ` Z` |
| PathData.OpenPathData | image_processing/svg_generator.py:165-168 | the loop's text is the serialised open polyline through the points |
| PathData.AppendLineTo | image_processing/svg_generator.py:168 | one turn of the loop extends the text to one more point |
| FaceGuide.CalculateGuideLines | image_clipping/face_guide.py:120-152 | the vertical guide runs top to bottom through the middle of the face box; the eye line is horizontal across the full width, at the floored mean of the eyes when both are found and 40% down the box otherwise |
| FaceGuide.EyeLineBetweenEyes | image_clipping/face_guide.py:133-137 | with both eyes found the eye line lies between their heights |
| FaceGuide.FallbackEyeLineInsideBox | image_clipping/face_guide.py:138-140 | without both eyes the eye line lies inside a face box of non-negative height |
| FaceGuide.DefaultGuides | image_clipping/face_guide.py:154-178 | without a face: no box, no eyes, not detected, centre line at half the width and eye line a third of the way down |
| FaceGuide.EyeCenterOnCanvas | image_clipping/face_guide.py:102-106 | an eye centre computed from landmarks on the image is a pixel of the image |
| FaceGuide.TruncatedMeanBetween | image_clipping/face_guide.py:104-106 | the truncated mean of positions within [0, size] lies within [0, size] |
| FaceGuide.SumBetween | image_clipping/face_guide.py:104-105 | a sum of n values between lo and hi lies between n·lo and n·hi |
| FaceGuide.PixelsOnCanvas | image_clipping/face_guide.py:103 | every landmark on the image gives pixel coordinates inside the canvas |
| FaceGuide.ExtractEyePositions | image_clipping/face_guide.py:89-118 | both eyes are found or neither; no mesh gives no eyes; eyes are found only when the mesh reaches index 466 |
| FaceGuide.FullMeshFindsEyes | image_clipping/face_guide.py:94-115 | a refined mesh of 478 landmarks always yields both eyes |
| FaceGuide.MainFace | image_clipping/face_guide.py:65 | the chosen detection has the highest score, and is the first one with that score |
| FaceGuide.DetectFaceFeatures | image_clipping/face_guide.py:37-87 | a face is reported exactly when there is a detection; without one the default guides are returned, with one the box of the best detection, the eyes from the mesh and the guides computed from both |
| FaceGuide.GuideMarks | image_clipping/face_guide.py:195-208 | the centre line is drawn first and the eye line second |
| FaceGuide.EyeDotsOnlyForDetectedFaces | image_clipping/face_guide.py:210-216 | eye dots appear only for a detected face, one for each eye found, and the default guides draw the two lines only |
| Cutout.Clip01 | image_clipping/run_cutout.py:80 | a clipped value lies in [0, 1], is unchanged inside that range and goes to the nearer end outside it |
| Cutout.PredictMask | image_clipping/run_cutout.py:79-81 | the mask has one value per pixel, each the clipped network output |
| Cutout.PredictedMaskIsUnit | image_clipping/run_cutout.py:63-81 | every predicted mask value lies in [0, 1] |
| Cutout.AlphaOf | image_clipping/run_cutout.py:90 | alpha is the truncated mask times 255: 255 for a full mask, 0 for none |
| Cutout.AlphaMonotone | image_clipping/run_cutout.py:90 | more mask never gives less alpha |
| Cutout.Binarised | image_clipping/run_cutout.py:94 | the binary image is 255 exactly where alpha is positive and 0 exactly where it is zero |
| Cutout.ComponentAreas | image_clipping/run_cutout.py:97 | one area per non-background label, each the count of its pixels |
| Cutout.LargestArea | image_clipping/run_cutout.py:97-98 | the first position of a largest area names a largest label, the lowest one on ties |
| Cutout.LargestLabel | image_clipping/run_cutout.py:96-98 | the kept label is a foreground label of maximal area, the lowest on ties |
| Cutout.LargestComponentAlpha | image_clipping/run_cutout.py:92-100 | the component rule keeps the alpha's size |
| Cutout.SingleComponentUntouched | image_clipping/run_cutout.py:96 | with at most one foreground component the rule changes nothing |
| Cutout.OnlyLargestComponentKept | image_clipping/run_cutout.py:92-100 | with more than one foreground component and no feathering, the mask's alpha survives only on the largest component and every other pixel becomes transparent |
| Cutout.FinalAlpha | image_clipping/run_cutout.py:89-103 | the final alpha has one value per pixel |
| Cutout.PlainAlpha | image_clipping/run_cutout.py:90 | without the component rule and feathering, alpha is the mask scaled to bytes |
| Cutout.AlphaChannel | image_clipping/run_cutout.py:89-103 | the alpha steps compute that final alpha |
| Cutout.Background | image_clipping/run_cutout.py:111 | the background alpha and the foreground alpha add up to 255 |
| Cutout.FillLayers | image_clipping/run_cutout.py:105-114 | both buffers have one pixel per input pixel, the foreground carrying the alpha and the background its complement, over the same colour |
| Cutout.CreateFgBgImages | image_clipping/run_cutout.py:83-116 | every foreground pixel is the image colour under the final alpha and every background pixel the same colour under its complement |
| Cutout.ForegroundBackgroundComplement | image_clipping/run_cutout.py:105-114 | the two outputs share their colours and their alphas add up to 255 at every pixel |
| Cutout.MakeProviders | image_clipping/run_cutout.py:38-57 | the providers are CUDA if offered, else ROCm if offered, then the CPU; each GPU provider carries the GPU options, with the cuDNN search set only when CUDA is offered, and the CPU empty options |
| Cutout.ProviderOrder | image_clipping/run_cutout.py:45-57 | the CPU comes last, CUDA and ROCm never both appear, and the GPU provider is one the runtime offers |
| Cutout.LastIndex | image_clipping/run_cutout.py:126 | the position found holds the last occurrence of the character, and none means it does not occur |
| Cutout.LastIndexSkips | image_clipping/run_cutout.py:126 | appending characters other than the one sought keeps the last occurrence |
| Cutout.Basename | image_clipping/run_cutout.py:126 | the base name holds no slash, ends the path, and follows a slash when shorter than the path |
| Cutout.BasenameAfterSlash | image_clipping/run_cutout.py:126 | a slash-free name after a slash (or alone) is its own base name |
| Cutout.StripExtension | image_clipping/run_cutout.py:126 | the stem is a prefix of the name |
| Cutout.StripsExtension | image_clipping/run_cutout.py:126 | a plain `name.ext` loses exactly its extension |
| Cutout.OutputNames | image_clipping/run_cutout.py:126-128 | both outputs are named after the input's stem, with `_fg.png` and `_bg.png`, and never collide in one directory |
| Cutout.SuffixedPaths | image_clipping/run_cutout.py:127-128 | each joined path ends in its file name, and the two differ in one directory |
| Cutout.LowerAscii | image_clipping/run_cutout.py:147 | lower-casing keeps the length |
| Cutout.SelectedNames | image_clipping/run_cutout.py:146-147 | never more names than were listed; which names pass is stated by Common.FilterMembership |
| Cutout.UpperCaseSelected | image_clipping/run_cutout.py:147 | upper-case extensions are accepted too |
| Cutout.CutoutBatch | image_clipping/run_cutout.py:142-160 | the returned count is the number of selected names whose processing succeeds, and never more than the names selected |
| OutlineGenerator.StringLeTotal | image_clipping/outline_generator.py:52 | any two strings are ordered one way or the other under Python's string comparison |
| OutlineGenerator.StringLeTransitive | image_clipping/outline_generator.py:52 | Python's string comparison is transitive |
| OutlineGenerator.StringOrderIsTotalPreorder | image_clipping/outline_generator.py:52 | that comparison is a total preorder, so the stable sort applies |
| OutlineGenerator.GetForegroundFiles | image_clipping/outline_generator.py:45-52 | a missing directory fails, and an existing one lists files |
| OutlineGenerator.ForegroundFilesSortedMatches | image_clipping/outline_generator.py:51-52 | the files are exactly the entries ending in `_fg.png`, each as often as listed, in ascending order |
| OutlineGenerator.RemoveAllFg | image_clipping/outline_generator.py:63 | removing every `_fg` never lengthens the stem |
| OutlineGenerator.WithoutFgSuffix | image_clipping/outline_generator.py:63 | the corrected base name drops one trailing `_fg` and nothing else |
| OutlineGenerator.BasenameOfJoin | image_clipping/outline_generator.py:63 | the final component of a joined path is the joined name |
| OutlineGenerator.StemOfForegroundName | image_clipping/outline_generator.py:63 | the stem of `{base}_fg.png` is `{base}_fg` |
| OutlineGenerator.ForegroundStem | image_clipping/outline_generator.py:63 | the stem of `{dir}/{base}_fg.png` is `{base}_fg` |
| OutlineGenerator.BaseNameRoundTrip | image_clipping/outline_generator.py:63 | the corrected base name of a cutout file `{base}_fg.png` is `{base}`, for every base |
| OutlineGenerator.BaseNameAsWrittenCollides | image_clipping/outline_generator.py:63 | as written, `a_fgb_fg.png` and `ab_fg.png` both get the base name `ab` |
| OutlineGenerator.AsWrittenOfForeground | image_clipping/outline_generator.py:63 | as written, the base name of a cutout file is its stem with every `_fg` removed |
| OutlineGenerator.AsWrittenAgreesOnPlainBases | image_clipping/outline_generator.py:63 | for bases without `_fg` the line as written and the corrected one agree |
| OutlineGenerator.RemoveAllFgAppendFg | image_clipping/outline_generator.py:63 | a string without `_fg`, followed by `_fg`, loses exactly the suffix |
| OutlineGenerator.RemoveAllFgKeepsPlainPrefix | image_clipping/outline_generator.py:63 | no occurrence starts inside a prefix without underscores |
| OutlineGenerator.OutputNamesDistinct | image_clipping/outline_generator.py:63-93 | different cutouts in one directory get different base names, so their outputs never overwrite each other |
| OutlineGenerator.EntriesOf | image_clipping/outline_generator.py:135-143 | guides from the face guide stage always hold both lines |
| OutlineGenerator.ContourElements | image_clipping/outline_generator.py:125-132 | one path element per contour of more than two points |
| OutlineGenerator.ContourElementsFromContours | image_clipping/outline_generator.py:125-132 | every path element comes from a contour of more than two points, and its path text reads back as that contour, closed |
| OutlineGenerator.ClosedPath | image_clipping/outline_generator.py:127-130 | the loop's text is the closed comma-separated path through the contour |
| OutlineGenerator.AppendContour | image_clipping/outline_generator.py:126-132 | one pass appends the contour's element exactly when it has more than two points |
| OutlineGenerator.ContourPathsText | image_clipping/outline_generator.py:125-132 | the contour loop's text is the elements of the contours, in order |
| OutlineGenerator.GuideElements | image_clipping/outline_generator.py:135-143 | one line element for each guide present |
| OutlineGenerator.GuideLinesText | image_clipping/outline_generator.py:135-143 | the guide text is the vertical line then the eye line, each when present |
| OutlineGenerator.GuidesFromFaceGuide | image_clipping/outline_generator.py:135-143 | guides from the face guide stage give both dashed lines, vertical first |
| OutlineGenerator.GenerateSvgOutline | image_clipping/outline_generator.py:117-145 | the document is the header, the contour paths, the guide lines and the closing tag |
| OutlineGenerator.DocumentFrame | image_clipping/outline_generator.py:120-145 | the document opens with the sized `<svg>` header and ends with `</svg>` |
| OutlineGenerator.HeaderStartsWithDeclaration | image_clipping/outline_generator.py:120 | the header starts with the XML declaration |
| OutlineGenerator.ProcessAll | image_clipping/outline_generator.py:189-194 | the success count is the number of files whose processing returns true, never more than the files |
| Downloader.FrontRun | download_data/aic_portrait_paintings_downloader.py:50 | the leading run that `strip` removes: every character in it is whitespace, and the next one is not |
| Downloader.BackRun | download_data/aic_portrait_paintings_downloader.py:50 | the trailing run that `strip` removes, likewise from the back |
| Downloader.StripBy | download_data/aic_portrait_paintings_downloader.py:50 | the stripped text neither starts nor ends with a removed character, and is the text between the two runs |
| Downloader.ReplaceSpaces | download_data/aic_portrait_paintings_downloader.py:51 | replacing spaces keeps the length, leaves no space, and changes only spaces, into underscores |
| Downloader.Chosen | download_data/aic_portrait_paintings_downloader.py:50-51 | the cleaned name cut to 150 characters, or `untitled`, is 1 to 150 characters long and free of deleted characters |
| Downloader.SanitizeFilename | download_data/aic_portrait_paintings_downloader.py:48-51 | a sanitised name is 1 to 150 characters long with no deleted character and no space, and a missing name becomes `untitled` |
| Downloader.SanitizeFallsBack | download_data/aic_portrait_paintings_downloader.py:50-51 | the `untitled` fallback is taken exactly when every character is a deleted one or whitespace |
| Downloader.SanitizeKeepsCleanNames | download_data/aic_portrait_paintings_downloader.py:48-51 | a name that is already clean comes back unchanged |
| Downloader.ReplaceSpacesKeepsNoBad | download_data/aic_portrait_paintings_downloader.py:51 | replacing spaces keeps a clean name clean |
| Downloader.CleanedHasNoBad | download_data/aic_portrait_paintings_downloader.py:50 | the cleaned text holds no deleted character |
| Downloader.Get | download_data/aic_portrait_paintings_downloader.py:81-89 | a value found under a key was stored under that key |
| Downloader.AsList | download_data/aic_portrait_paintings_downloader.py:72-77 | `None` gives nothing, a list gives the `str` of each element (strings nested in containers written as `repr` writes them), and anything else a one-element list |
| Downloader.Quote | download_data/aic_portrait_paintings_downloader.py:76 | a nested string's `repr` is its escaped text between double quotes when it holds a single quote and no double quote, and between single quotes otherwise |
| Downloader.ReprReadsBack | download_data/aic_portrait_paintings_downloader.py:76 | the body of a string's `repr` reads back as the string: backslashes, the chosen quote, tab, newline, carriage return and the `\xhh` escapes all undo |
| Downloader.PlainTextQuoted | download_data/aic_portrait_paintings_downloader.py:76 | printable ASCII text without quotes or backslashes is only wrapped in single quotes |
| Downloader.QuoteChoiceExamples | download_data/aic_portrait_paintings_downloader.py:76 | `it's` is written in double quotes, and a text with both quote kinds in single quotes with the single quote escaped |
| Downloader.AsListOfStrings | download_data/aic_portrait_paintings_downloader.py:72-77 | a JSON list of strings comes back as those strings, and a single string as a list of itself |
| Downloader.BuildPayload | download_data/aic_portrait_paintings_downloader.py:53-67 | the body carries the given page size, the card fields and four required clauses |
| Downloader.PayloadSelectsPortraits | download_data/aic_portrait_paintings_downloader.py:53-67 | whatever the page size, the query selects exactly the public-domain portrait paintings with an image |
| Downloader.ParseIntToString | download_data/aic_portrait_paintings_downloader.py:70 | a rendered integer reads back as itself and holds no slash |
| Downloader.ParseLocationRoundTrip | download_data/aic_portrait_paintings_downloader.py:70 | `{image_id}/full/{width}` reads back as the id and the width |
| Downloader.ParseIiifUrlFrame | download_data/aic_portrait_paintings_downloader.py:70 | an address read back is the text between the base and the fixed suffix |
| Downloader.IiifUrlRoundTrip | download_data/aic_portrait_paintings_downloader.py:69-70 | every address built names its image id and width unambiguously |
| Downloader.OrEmpty | download_data/aic_portrait_paintings_downloader.py:82-89 | a falsy value gives the empty text |
| Downloader.FieldsOf | download_data/aic_portrait_paintings_downloader.py:81-89 | the title is the stored title when truthy and `Artwork {id}` otherwise, and the id is the stored id |
| Downloader.When | download_data/aic_portrait_paintings_downloader.py:95-106 | a line is appended exactly when its field is present |
| Downloader.AppendIf | download_data/aic_portrait_paintings_downloader.py:95-106 | one conditional append adds the line exactly when present |
| Downloader.MkCuratorCard | download_data/aic_portrait_paintings_downloader.py:79-108 | the card is the card's lines joined with newlines, with a final newline |
| Downloader.CardShape | download_data/aic_portrait_paintings_downloader.py:91-107 | the card opens with the title heading and the id line, ends with the image line, and has one line between for each non-empty optional field |
| Downloader.LinesShape | download_data/aic_portrait_paintings_downloader.py:92-107 | the same shape for already defaulted fields |
| Downloader.SplitJoin | download_data/aic_portrait_paintings_downloader.py:108 | splitting joined lines at the newline gives the lines back |
| Downloader.CardReadsBack | download_data/aic_portrait_paintings_downloader.py:108 | when no field holds a line break, the card ends with a newline and splitting it gives its lines back |
| Validator.NonZeroCount | scripts/test_wireframe_workflow.py:201 | the count of coloured pixels never exceeds the pixels counted |
| Validator.NonZeroCountZero | scripts/test_wireframe_workflow.py:201-204 | no pixel is counted exactly when no pixel has colour |
| Validator.TransparentCount | scripts/test_wireframe_workflow.py:191 | the count of transparent pixels never exceeds the pixels counted |
| Validator.TransparencyNote | scripts/test_wireframe_workflow.py:190-198 | the ratio is reported over all pixels and is low exactly when fewer than a tenth are transparent |
| Validator.RatioBelowTenth | scripts/test_wireframe_workflow.py:193-195 | for a positive total, the ratio is below 0.1 exactly when ten times the part is below the total |
| Validator.QuotientBelowTenth | scripts/test_wireframe_workflow.py:193-195 | the same comparison on reals |
| Validator.ValidateWireframeOutput | scripts/test_wireframe_workflow.py:176-222 | a non-3D array fails with the dimension line only, and an RGBA output without four channels fails with the channel line only |
| Validator.ValidationAccepts | scripts/test_wireframe_workflow.py:176-222 | the validator accepts exactly a 3D array, with four channels for RGBA, with some coloured pixel, and with three channels to inspect when construction lines are on; neither the transparency ratio nor the construction colours change the verdict |
| Validator.AllBlackRejected | scripts/test_wireframe_workflow.py:200-204 | an image whose colour channels are all zero is rejected, with the all-black line last |
| Validator.LowTransparencyOnlyWarns | scripts/test_wireframe_workflow.py:190-198 | a low transparency ratio is reported first but does not fail an acceptable RGBA image |

## Left out

- Library algorithms are function-typed fields of records passed in as parameters. These are OpenCV's filters, Canny, Sobel/Scharr/Laplacian, resize, morphology, `findContours`, `contourArea`, `arcLength`, `approxPolyDP`, `minAreaRect`, connected components, Otsu and all drawing calls. The model states only what the repository does with their results.
- MediaPipe face detection, face mesh and pose, the DexiNed network with its preprocessing, and ONNX Runtime sessions and inference are foreign calls. Their outputs are inputs to the model.
- File and network I/O is not modelled. This covers image reads and writes, the `_save_image` variants, SVG file writes, directory globbing and creation, logging and every console message.
- Every argparse `main` function is not modelled, and neither are the file-based test runners of `scripts/test_wireframe_workflow.py`.
- Floating point is not modelled. Dafny's `real` is exact, `int(...)` and `astype` truncation are written out with `Common.Trunc`, and no claim is made about IEEE rounding.
- The grey conversion weights, percentiles, the median, `sqrt` and the alpha-over-white blend in `_load_image` are not modelled. Percentiles and the median of an image are library results. The resolution factor is a parameter constrained by `IsResolutionFactor`.
- ContourRefine.ContourStatistics: the `median_area` entry of `get_contour_statistics` is not modelled, because NumPy's median is an interpolating library routine. The other five entries are stated.
- `douglas_peucker_simplify`: only the tolerance (epsilon factor times the closed perimeter) is modelled. The simplification itself is `approxPolyDP`.
- `render_contours`, `render_outline` and the line and circle drawing in `render_construction_guide` only call drawing primitives, so they are not modelled. The eye-dot decision is modelled.
- EdgeDetection.Structured: the normalisation of the gradient response is folded into the library's response field. On a flat image the source divides by zero, and the model does not reproduce that.
- `_detect_landmarks`, `_setup_face_detector` and `_load_model` only wrap the detectors. `_load_image` reads a file.
- HighResolution: `process_image_from_array` composes the same layer flow as `Wireframe.ProcessImage`, from the high-resolution construction, mesh and outline members. The composition is not restated as a member of its own. `_process_full_image` only forwards to it.
- Tile processing is announced by the high-resolution processor but is not implemented. The model processes the whole image.
- SVG text rendering (`to_string`, `save`) is not modelled: ElementTree and minidom serialisation and pretty-printing. The SVG is an element tree of nodes and attribute values, and only the path-data strings are modelled as text. `add_metadata` and the wireframe processor's `_generate_svg`, which stamps a wall-clock timestamp into the metadata, are not modelled.
- Svg.PoseLines: pose coordinates are kept as exact reals in attribute values. Python's float-to-text formatting of them is not modelled.
- Downloader.Quote: a character above U+00FF that Python counts as unprintable is written by `repr` as a `\u` or `\U` escape. The model keeps such a character as it is, because printability comes from the Unicode database.
- Downloader.AsList: JSON numbers with a fraction are not modelled. The modelled values hold integers only.
- The downloader's main loop is not modelled: paging through the search API, HTTP requests, the rate-limit delay and the `metadata.jsonl` writes.
- OutlineGenerator: `process_single_image` reads, thresholds and traces an image through OpenCV. Only its base-name derivation and its call to `generate_svg_outline` are modelled.
- Concurrency does not arise: every script is sequential.

## Findings

| source | as written | input that shows it | evidently intended | confidence | as-written member | corrected member |
|---|---|---|---|---|---|---|
| image_processing/high_resolution_wireframe_processor.py:401 | `process_image` unpacks `target_resolution` as (height, width). `_calculate_scaling_factors` (line 379) and the preset table (lines 536-578) store it as (width, height). | A 1920 x 1080 image with target (3840, 2160) is planned as 2160 x 1215 instead of 3840 x 2160. | Read the target as (width, height) and upscale to fit it. | not executed | HighResolution.PlannedSizeAsWritten, HighResolution.SwappedTargetCounterexample | HighResolution.PlannedSize, HighResolution.UpscaleFitsTarget, HighResolution.PrepareImage |
| image_processing/high_resolution_wireframe_processor.py:252 | Each scale runs the network inside `with self.model.eval():`. `eval()` returns the network module, which is not a context manager, so the `with` raises, and the handler at line 285 returns the Canny fallback. The base processor uses `torch.no_grad()` here (image_processing/wireframe_portrait_processor.py:282). | Any image with a DexiNed model loaded: the outline is Canny(50, 150) in the outline colour, and the network's edge maps are never used. | Run the network under `torch.no_grad()` and build the outline from its edge maps. | not executed | HighResolution.AsWrittenSource, HighResolution.NetworkIgnoredAsWritten | HighResolution.HiresOutline, HighResolution.GenerateOutlineHires, HighResolution.SingleScaleIsBaseOutline |
| image_clipping/outline_generator.py:63 | The base name is the stem with every `_fg` removed. | `a_fgb_fg.png` and `ab_fg.png` both give base name `ab`, so their outlines overwrite each other. | Remove only the trailing `_fg` that the cut-out tool appended. | not executed | OutlineGenerator.BaseNameAsWrittenCollides | OutlineGenerator.BaseNameRoundTrip, OutlineGenerator.OutputNamesDistinct |
