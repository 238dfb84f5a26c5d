# handicam core, modelled in Dafny

handicam builds a stitched image of a work surface from a camera. It has two parts.

**Markers** finds the four ArUco markers at the corners of a marker board and projects the camera frame onto the board. It averages the quad over the last frames to keep it stable, then crops the border.

**IncrementalStitcher** matches each new frame against a base image: the previous warped frame in pairwise mode, or the whole canvas in aggregate mode. It rejects matches whose scale is off, splits the warp's corner into an image offset and a coordinate-origin offset, and composes the warped frame into a canvas that grows as needed.

Around these sit the other pieces:

- **Grid** lays a grid of cells over the canvas, keeps a selected cell and windows of recent alignment samples, and grows the canvas so the grid stays inside it.
- **Source** supplies frames: a queue of still images, or a camera that is done once it yields an empty frame.
- **stitch_stream** is the stream stitching tool. It waits for a first projected frame, then for each further frame runs match → sanity check (`checkTransform`) → compose.
- **capture** is the calibration capture tool. It keeps stability windows and names the frames it saves `calib-<width>-NNN.jpeg`.

There is one module per source file:

| module | file | role |
|---|---|---|
| `Wrappers` | `wrappers.dfy` | `Option` |
| `Numeric` | `numeric.dfy` | C/OpenCV numeric conversions |
| `Geometry` | `geometry.dfy` | points, rectangles, 3x3 matrices |
| `Text` | `text.dfy` | `to_string` and `"%03d"` |
| `Raster` | `raster.dfy` | images as `array2<Pixel>`, copy and masked copy |
| `Window` | `window.dfy` | front-insert / `pop_back` windows and the sum/min/max pass |
| `Stitcher` | `stitcher.dfy` | the stitcher |
| `Grid` | `grid.dfy` | the grid |
| `Markers` | `markers.dfy` | the markers |
| `Source` | `source.dfy` | the frame sources |
| `StitchStream` | `stitch_stream.dfy` | the stream stitching tool |
| `Capture` | `capture.dfy` | the calibration capture tool |

Objects whose fields the source updates in place are classes: `IncrementalStitcher`, `Grid`, `Markers`, `ImageSource`, `VideoSource`, and the capture tool's windows and sequence counter. Images are `array2<Pixel>`. The matrix that `composeImages` changes in place is an `array2<real>`. The loops of the source (`avg`, `avgRect`, `avgWarp`, the constructor's layout loop, the `pop_back` loops, pixel copies, `stats`, the wait for a first frame) are `while` loops. Each is proved against a specification function.

OpenCV's numeric details are written out:

- A float stored into an `int` field of `cv::Rect` truncates toward zero (`Trunc`).
- `Rect(Point2f, Size)` rounds half to even (`Round`).
- `image_width/3` is C integer division (`CDiv`).
- `sum / count` over an empty list is not a number; it is modelled as `None`.

## Model

| member | source | states |
|---|---|---|
| Numeric.Trunc | markers.cpp:143-146 | float→int conversion truncates toward zero: the result is the integer part, on each side of zero |
| Numeric.Round | grid.cpp:107-111 | the corner of a `Rect` built from a `Point2f` is within half a pixel of the point, and exact ties go to the even integer |
| Numeric.CDiv | stitch_stream.cpp:38-40 | C integer division: the quotient truncates toward zero, so the remainder has the dividend's sign and is smaller than the divisor |
| Numeric.RoundOfInt | grid.cpp:113-118 | a whole-pixel corner is kept exactly by the conversion |
| Geometry.Unscaled | stitcher.cpp:182-187 | undoScale divides the four linear entries by the scale and leaves translation and bottom row alone |
| Geometry.UnscaledKeepsSimilarity | stitcher.cpp:219-222 | undoing the scale of a rotation-plus-scale matrix leaves a rotation-plus-scale matrix with the same translation |
| Geometry.UnscaledHasUnitScale | stitcher.cpp:182-187 | dividing a matrix by its own non-zero scale leaves a matrix of scale 1 (a² + b² = 1) |
| Text.NatToString | capture.cpp:146 | `to_string` of a non-negative number is a non-empty digit string without a leading zero; it is one character exactly below 10 |
| Text.IntToStringRoundTrip | capture.cpp:146 | `to_string` of any int, negative ones included, reads back to that int, so two different widths never give the same numeral |
| Text.ParseNatToString | grid.cpp:29 | the numeral reads back as the number, so cell names and widths are unambiguous |
| Text.Pad3RoundTrip | capture.cpp:144-145 | `"%03d"` yields at least three digits, which read back as the number printed |
| Text.Pad3Injective | capture.cpp:145 | distinct numbers format differently under `"%03d"` |
| Text.Pad3Width | capture.cpp:144-145 | `"%03d"` is exactly three characters wide if and only if the number is below 1000 |
| Raster.Filled | stitcher.cpp:253 | `UMat::ones`/`zeros`: a fresh image of the given size, every pixel the fill value |
| Raster.CopyInto | stitcher.cpp:256 | `copyTo(buff(r))`: the source lands at the offset, and every pixel outside the rectangle is unchanged |
| Raster.CopyMasked | stitcher.cpp:257 | masked `copyTo`: only pixels whose mask is set are overwritten, all others keep their value |
| Window.Truncated | markers.cpp:46-48 | the `pop_back` loop leaves the first `cap` elements, or everything when there are fewer |
| Window.DropTail | grid.cpp:140-143 | the `while (size > MAX) pop_back()` loop computes exactly `Truncated` |
| Window.PushedShape | grid.cpp:134-144 | after a front insert and trim, the new sample is at index 0, the older ones follow in order shifted by one, and the length is min(old + 1, cap) |
| Window.ReplayKeepsLatest | capture.cpp:17-25 | a window fed sample by sample holds the `cap` most recent samples, newest first |
| Window.RunMin | grid.cpp:150-154 | the running minimum is at most the seed and every element, and is the seed or one of the elements |
| Window.RunMax | grid.cpp:151-155 | the running maximum is at least the seed and every element, and is the seed or one of the elements |
| Window.Scan | capture.cpp:27-37 | the accumulation loop computes the sum and the seeded running minimum and maximum of the whole list |
| Window.Mean | grid.cpp:157 | `sum / count` is a number exactly when the list is non-empty |
| Window.Avg | grid.cpp:146-159 | `avg` (and its copy in capture.cpp:27-40) returns the mean and max − min with the ±1000000 seeds |
| Window.RangeNonNegative | grid.cpp:158 | over a non-empty list the range is never negative |
| Window.MeanBetween | stitch_stream.cpp:30 | the mean lies between the running minimum and maximum, whatever the seeds |
| Window.ConstantMean | capture.cpp:38 | a constant window has its value as mean |
| Window.ConstantRange | capture.cpp:39 | a constant window within the seeds has range 0 |
| Window.SentinelLimitsRange | capture.cpp:31-32 | past the seeds the range is wrong: a window of 2000000 reports range 1000000 |
| Stitcher.Code | stitcher.hpp:14-22 | the enumerators' values, with `EXCEEDS_X_THRESHOLD_ERR` the only status without one |
| Stitcher.CodesDistinct | stitcher.hpp:15-21 | no two declared statuses share a value |
| Stitcher.MatchStatus | stitcher.cpp:130-143 | OK exactly when there is an inlier, a matrix, and a scale within the threshold; a bad scale overrides too few inliers; no matrix means too few matches |
| Stitcher.DetectAndMatch | stitcher.cpp:35-50 | R is produced exactly when the status is OK, and it is then the matcher's matrix |
| Stitcher.GetError | stitcher.cpp:262-282 | the message is empty exactly for OK, `COMPOSE_ERR` and `EXCEEDS_X_THRESHOLD_ERR`, which have no case |
| Stitcher.Split | stitcher.cpp:157-172 | a translation is split into a non-negative image offset and a non-negative origin shift, at most one of them non-zero, whose difference is the translation |
| Stitcher.SplitUnique | stitcher.cpp:160-168 | that split is the only one with this shape |
| Stitcher.Extent | stitcher.cpp:244-252 | `resultRoi` of the two placed images is at least as large as each image |
| Stitcher.PlacementFits | stitcher.cpp:252-257 | both copies fit the buffer if and only if one of the two offsets is zero, which the split guarantees |
| Stitcher.ComposeImagesWithOffset | stitcher.cpp:242-260 | a fresh buffer of the union's size: masked img2 at the image offset, else img1 at the origin shift, else ones |
| Stitcher.UndoScale | stitcher.cpp:182-187 | in place, R becomes `Unscaled` of its old value; when the divisor is R's own scale, R has scale 1 afterwards |
| Stitcher.MatchScaled | stitcher.cpp:208-211 | dividing the translation by matchScale changes only the two translation entries |
| Stitcher.IncrementalStitcher.constructor | stitcher.cpp:8-14 | the settings are stored, the offsets start at 0, and both images are empty |
| Stitcher.IncrementalStitcher.Translate | stitcher.cpp:157-172 | pairwise mode accumulates onto the old image offset before the split; aggregate mode splits the corner alone |
| Stitcher.IncrementalStitcher.PlaceWarped | stitcher.cpp:225-232 | an empty canvas is seeded with img1; the offsets are updated; the canvas is the composition; the last matched image is the masked warp on ones |
| Stitcher.IncrementalStitcher.ComposeImages | stitcher.cpp:201-240 | R's translation is divided by matchScale and its scale undone in place. With a zero scale nothing is composed, the last matched image becomes img1 and the zero-scale error is returned; otherwise OK, R left with scale 1, and the composition above |
| Grid.LayoutLength | grid.cpp:24-31 | the layout has rows × cols cells |
| Grid.LayoutAt | grid.cpp:24-28 | cell r·cols + c is at column c times the projected width and r projected heights up |
| Grid.SelectionStaysInRange | grid.cpp:120-132 | next and prev keep the selection a valid cell index |
| Grid.PrevUndoesNext | grid.cpp:120-132 | prev undoes next and next undoes prev |
| Grid.NextCyclesThroughAllCells | grid.cpp:127-132 | from cell 0, k presses of next select cell k, and n presses return to 0 |
| Grid.ConstantWarpsAverage | grid.cpp:168-187 | a window of equal warps averages to that warp |
| Grid.Placed | grid.cpp:212-215 | a zero canvas with the image copied in at the offset |
| Grid.Extended | grid.cpp:228-235 | the canvas grown right and down to contain the region, contents kept; unchanged when the region already fits |
| Grid.Grid.constructor | grid.cpp:11-31 | cells laid out row by row and named G1, G2, … in order, the selection and offsets at 0, all windows empty |
| Grid.Grid.GetRoiProject | grid.cpp:113-118 | the projected cell at the cell's corner plus the grid offset, of projected size |
| Grid.Grid.GetRoi | grid.cpp:107-111 | the full cell, of cell size, centred on the projected cell to within half a pixel on each axis |
| Grid.Grid.ProjectedCellInGridRoi | grid.cpp:97-101 | every projected cell lies inside the grid's region of interest |
| Grid.Grid.GridRoiSize | grid.cpp:97-101 | the grid's region has non-negative size |
| Grid.Grid.Next | grid.cpp:127-132 | the selection advances by one and wraps to 0 past the last cell |
| Grid.Grid.Prev | grid.cpp:120-125 | the selection steps back by one and wraps to the last cell below 0 |
| Grid.Grid.LogStats | grid.cpp:134-144 | translation, angle and scale are pushed at the front of their windows, each capped at MAX = 10 |
| Grid.Grid.Store | grid.cpp:161-166 | logs the sample and pushes the warp, capped at MAX |
| Grid.Grid.AvgWarp | grid.cpp:168-187 | none for an empty window; otherwise each of the six top entries is the mean of that entry over the window, and the bottom row is 0 0 1 |
| Grid.Grid.GrowTopLeft | grid.cpp:207-225 | a region above or left of the canvas shifts the canvas down/right by the overhang, contents kept, offsets bumped, region then non-negative |
| Grid.Grid.HandleGridChange | grid.cpp:204-236 | afterwards the grid's region lies inside the canvas; the old image sits at the shift; the canvas and offsets are untouched when the region already fitted |
| Markers.Code | markers.hpp:14-20 | the enumerators' values 0, 1, 100, 101, 102 |
| Markers.CodesDistinct | markers.hpp:15-19 | no two statuses share a value |
| Markers.GetError | markers.cpp:151-168 | "None" exactly for OK, a message for each error |
| Markers.CountStatus | markers.cpp:86-131 | the rule as written: OK if and only if exactly four detections, with the no/too-few/too-many cases by count |
| Markers.DetectionStatus | markers.cpp:107-128 | the corrected rule: OK if and only if four detections covering all board markers 0..3; otherwise as written by count, with four non-distinct ids counting as too few |
| Markers.QuadSlotLast | markers.cpp:94-105 | a quad slot holds the corner of the last detection of its marker |
| Markers.QuadSlotMissing | markers.cpp:85 | a slot whose marker was not detected keeps Point2f's default (0, 0) |
| Markers.QuadSlotDetected | markers.cpp:104 | a slot whose marker was detected holds one of that marker's corners |
| Markers.AcceptedQuadIsDetected | markers.cpp:104-110 | under the corrected rule every slot of an accepted quad is a detected corner of its marker |
| Markers.DuplicateIdsAccepted | markers.cpp:104-108 | as written, ids 0, 0, 1, 2 pass the `size() == 4` test and slot 3 stays (0, 0); the corrected rule rejects them |
| Markers.DestQuadIsBoardShaped | markers.cpp:30-34 | the destination quad is an origin-anchored axis-aligned rectangle with the board's proportions, clockwise from the top left |
| Markers.CropInside | markers.cpp:137-149 | for a border at most half the board, the crop lies inside the image and is centred to within 2 pixels |
| Markers.AvgOfOneGroup | markers.cpp:51-69 | with a single stored quad the average is that quad |
| Markers.TotalsAreSums | markers.cpp:54-64 | the eight running totals are the sums of each corner coordinate over all stored quads |
| Markers.AvgExpressionIsMean | markers.cpp:65-68 | `total / size * 4` is the mean over the stored quads |
| Markers.AvgCorner | markers.cpp:65-68 | the point built from the totals is the average corner |
| Markers.StoredQuadsShape | markers.cpp:41-49 | the window keeps whole quads, newest first, at most TARGET_FRAMES of them |
| Markers.Markers.constructor | markers.cpp:6-27 | the configuration is stored with ratio = height / width; TARGET_FRAMES is 25, or 1 without stabilisation; no quads |
| Markers.Markers.Copy | source.hpp:12 | the by-value copy a source receives: same configuration and same window |
| Markers.Markers.StoreRect | markers.cpp:41-49 | the quad is inserted at the front as a, b, c, d and the window trimmed to 4 × TARGET_FRAMES |
| Markers.Markers.SumCorners | markers.cpp:52-64 | the stride-4 loop computes the eight running totals |
| Markers.Markers.AvgRect | markers.cpp:51-69 | the output quad is the per-corner mean over the stored quads |
| Markers.Markers.Perspective | markers.cpp:29-39 | the projection maps the quad onto (0,0), (W,0), (W,W·ratio), (0,W·ratio), is W × trunc(W·ratio), and is cropped by `crop` |
| Markers.Markers.AssignQuad | markers.cpp:94-105 | the `markers[ids[i]] = corners[i][0]` loop yields `Quad` |
| Markers.Markers.GetArucoOrientedImage | markers.cpp:71-135 | without projection or drawing: OK and no change. Otherwise the status is the corrected detection rule (all four board markers present); on OK the quad is stored, and a projection of the averaged quad is produced exactly when projection is on |
| Source.Downgrade | source.cpp:29-31 | OK with an empty projection becomes ERR; everything else is passed through |
| Source.Project | source.cpp:51-55 | a copy of the markers projects the frame, under the corrected detection rule; the caller's window is untouched |
| Source.ImageSource.constructor | source.cpp:44-46 | the source holds the given images |
| Source.ImageSource.NextImage | source.cpp:48-56 | exactly the front image is removed, the rest kept in order; done if and only if it was the last; the status is the downgraded (corrected) detection status; the caller's markers are unchanged |
| Source.VideoSource.constructor | source.hpp:26 | the source starts not done |
| Source.VideoSource.NextImage | source.cpp:12-37 | the last of SKIP_FRAMES = 5 reads is used. An empty frame sets the sticky done flag and gives ERR; otherwise the frame is projected under the corrected detection rule and downgraded, and the flag is unchanged |
| StitchStream.CheckTransform | stitch_stream.cpp:36-47 | OK if and only if \|tx\| ≤ width/3 and \|ty\| ≤ height/3 (integer division) and \|angle\| ≤ 15; every failure is `EXCEEDS_X_THRESHOLD_ERR` |
| StitchStream.DefaultShiftLimits | config.hpp:26-28 | with 1280 × 1024 frames the limits are 426 pixels across and 341 down |
| StitchStream.Stats | stitch_stream.cpp:19-34 | the mean of the timings (none when there are none) and their minimum and maximum with the 100000 / −1 seeds |
| StitchStream.StatsReportSamples | stitch_stream.cpp:21-30 | for timings within the seeds, the minimum and maximum are timings that occurred, and min ≤ mean ≤ max |
| StitchStream.ProjectVerdict | source.cpp:48-56 | the image source answers OK exactly for a frame whose markers are accepted and whose crop is non-empty |
| StitchStream.AwaitFirstImage | stitch_stream.cpp:89-99 | the wait loop stops at the first accepted image, consumes exactly up to it, and returns its projection |
| StitchStream.AcceptedMatchHasScale | stitcher.cpp:219-237 | a match within the scale threshold has a positive scale, so composing never hits the zero-scale error |
| StitchStream.StitchStep | stitch_stream.cpp:103-130 | compose only when the markers, the match and checkTransform are all OK; the next base image is then the stitcher's; otherwise canvas, offsets and base image are unchanged and the error shown is the failing status's message |
| Capture.CaptureStats.constructor | capture.cpp:16 | the three windows start empty |
| Capture.CaptureStats.LogStats | capture.cpp:17-25 | x, y and angle are pushed at the front of their windows, each capped at MAX = 10; the three windows keep equal length |
| Capture.CaptureStats.Stability | capture.cpp:93-102 | after logging, each window's mean exists and its range is max − min, never negative |
| Capture.CaptureNumberRoundTrip | capture.cpp:143-146 | the sequence number reads back from the file name between the width and `.jpeg` |
| Capture.CaptureFilenameInjective | capture.cpp:146 | different sequence numbers give different file names |
| Capture.CaptureSequence.constructor | capture.cpp:66 | the sequence starts at 0 |
| Capture.CaptureSequence.Capture | capture.cpp:143-148 | the sequence is pre-incremented and the file is named `calib-<width>-<%03d>.jpeg` |
| Capture.CapturesNeverCollide | capture.cpp:145-148 | a later capture never overwrites an earlier one |
| Capture.SprintfInto | capture.cpp:144-145 | formatting fits a buffer exactly when the text and its NUL fit |
| Capture.CaptureBufferOverflows | capture.cpp:144-145 | the three-byte buffer overflows on every capture; a four-byte one is enough below 1000 |

## Left out

- OpenCV itself is not modelled; what it computes enters the model as inputs:
  - undistortion, ArUco detection and pose estimation;
  - feature detection, extraction and matching;
  - the affine and perspective warps;
  - `imshow`, `waitKey`, `imwrite`, `VideoCapture` and `VideoWriter`.
- `getScale` (a square root) and `getAngle`/`angle` (an arctangent) are parameters. A scale parameter is tied to its matrix by s ≥ 0 and s² = a² + b².
- Floats are real numbers. The model assumes no rounding error, no NaN and no infinity, except that an empty average is `None`.
- Stitcher.IncrementalStitcher.constructor: requires a positive match scale, where the source takes any float. Every caller passes 1.0; a zero would make `composeImages` divide by it.
- Stitcher.UndoScale: requires a non-zero scale. `composeImages` only calls it behind `s != 0`.
- Stitcher.IncrementalStitcher.ComposeImages: `copyTo` into the canvas is modelled as replacing the canvas array by a fresh one. `lastMatchedImage = img1` and `getNextBaseImage().copyTo(img1)` are modelled as sharing the array, as `UMat` assignment does.
- The offsets dx, dy, gx, gy and the warp corner are whole pixels. The source keeps them in floats, but they only ever receive the integer corner of the warp.
- Grid.Grid.constructor: requires non-negative sizes. Pixel lengths are whole numbers (inch size × pixels per inch).
- Grid.Grid.HandleGridChange: `imwrite("stitched.jpeg")` and `saveOffsets` are not modelled.
- `Grid::drawRectProject`, `drawRect`, `drawGrid`, `drawMetrics` and `showStats` are not modelled: they only draw or print.
- `Grid::getCell()`, `getCellProject()` and `getRoi()` without an argument are not modelled separately: they only pass `selected` on.
- Grid.Grid.Store: models `undoScale2` receiving a copy of the matrix. The warp is stored with its scale, even though the call is commented as destructive.
- Markers.Markers.constructor: requires positive board dimensions, because `ratio` and `crop` divide by them. The camera matrix and distortion coefficients are not modelled.
- Markers.Markers.GetArucoOrientedImage: returns the corrected `DetectionStatus`, not the count rule of markers.cpp:108. Four detections with a repeated id (ids 0, 0, 1, 2) are OK in the source, which then stores and projects a quad with a (0, 0) corner; the model rejects them with the too-few-markers error and stores nothing. `Source.Project`, both `NextImage` methods, `StitchStream.ProjectVerdict` and `StitchStream.AwaitFirstImage` inherit this. The as-written rule is `CountStatus` (see Findings).
- Markers.Markers.GetArucoOrientedImage: requires every detected id to be 0..3. An id of 4 or more would write outside `markers[4]`, which the source does not guard against.
- Markers.Markers.Perspective: describes the projection by its quads, size and crop, not by its pixels.
- `Source::done` (the base class, always false) is not modelled: both sources override it.
- The commented-out debug frame dump in `VideoSource::nextImage` is not modelled.
- Source.ImageSource.NextImage: requires a non-empty queue, since `front()` on an empty vector is undefined.
- StitchStream.AwaitFirstImage: covers the still-image source only. It requires that some image is accepted: with none, the source reads past its end, and a camera that never shows the board loops forever.
- Capture.CaptureStats.Stability: takes a successful match. capture.cpp:94-96 ignores the status of `detectAndMatch` and converts R to `Matx33f` anyway; after a failed match R is empty and that conversion fails an OpenCV assertion. That failure path is not modelled.
- The timing of detect-and-match (`getTime`) is not modelled; `stats` receives the timings as a list.
- The keyboard handling of both tools is not modelled. That covers focus, exposure and zoom settings, the projection, stability and marker toggles, and the `% 4.3f` labels.
- The UI-only tool match_stream.cpp is not part of this model.

## Findings

| source | as written | input that shows it | evidently intended | confidence | as-written member | corrected member |
|---|---|---|---|---|---|---|
| markers.cpp:104-110 | four detections are accepted by count alone, so a marker detected twice hides a missing one, and the missing slot keeps (0, 0) as a projection corner | ids 0, 0, 1, 2 | accept only when all four board markers 0..3 are present | high, not executed | Markers.DuplicateIdsAccepted | Markers.AcceptedQuadIsDetected |
| capture.cpp:144-145 | `char buf[3]` receives `"%03d"`: three or more digits plus the terminating NUL | any capture, e.g. sequence 1 writes "001" and NUL, 4 bytes | a buffer that holds the formatted number, as the file name needs | high, not executed | Capture.CaptureBufferOverflows | Capture.CaptureNumberRoundTrip |

The model uses the corrected versions. `DetectionStatus` is the corrected rule, and `GetArucoOrientedImage` returns it. `CaptureFilename` formats into a string that holds every digit, so the sequence number is recovered from each name.

`EXCEEDS_X_THRESHOLD_ERR` is returned by `checkTransform` in stitch_stream.cpp:38-44, but stitcher.hpp:14-22 does not declare it. The model adds it as a status without a numeric value.
