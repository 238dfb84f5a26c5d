/** The stream stitching tool: wait for a first projected frame, then for every further
    frame match it against the base image, sanity-check the transform and compose it into
    the canvas.  The matcher's output, the matrix's scale and rotation angle and the
    warper's output are inputs; timings are a list of numbers. */
module StitchStream {
  import opened Wrappers
  import opened Numeric
  import opened Geometry
  import opened Raster
  import opened Window
  import opened Stitcher
  import M = Markers
  import Source

  /** The shift and rotation limits: a third of the frame's width (C int division), a third
      of its height, 15 degrees.  Past any of them the transform is rejected. */
  function CheckTransform(h: Mat3, angle: real, imageWidth: int, imageHeight: int): (s: Status)
    ensures s == Ok <==>
      && Abs(h.m02) <= CDiv(imageWidth, 3) as real
      && Abs(h.m12) <= CDiv(imageHeight, 3) as real
      && Abs(angle) <= 15.0
    ensures s == Ok || s == ExceedsXThresholdErr
  {
    if Abs(h.m02) > CDiv(imageWidth, 3) as real then ExceedsXThresholdErr
    else if Abs(h.m12) > CDiv(imageHeight, 3) as real then ExceedsXThresholdErr
    else if Abs(angle) > 15.0 then ExceedsXThresholdErr
    else Ok
  }

  /** With the default 1280 x 1024 frame, a shift of 426 pixels across passes and one of
      427 does not; down the frame the limit is 341. */
  lemma DefaultShiftLimits(h: Mat3)
    requires h.m12 == 0.0
    ensures CheckTransform(h.(m02 := 426.0), 0.0, 1280, 1024) == Ok
    ensures CheckTransform(h.(m02 := 427.0), 0.0, 1280, 1024) == ExceedsXThresholdErr
    ensures CheckTransform(h.(m02 := 0.0, m12 := 341.0), 0.0, 1280, 1024) == Ok
    ensures CheckTransform(h.(m02 := 0.0, m12 := 342.0), 0.0, 1280, 1024) == ExceedsXThresholdErr
  {
    assert CDiv(1280, 3) == 426;
    assert CDiv(1024, 3) == 341;
  }

  /** The extremes stats seeds its maximum and minimum with. */
  const StatsMaxInit: real := -1.0
  const StatsMinInit: real := 100000.0

  /** stats: the mean, minimum and maximum of the detect-and-match timings.  With no
      timing the mean is 0/0, which is no number. */
  method Stats(dmtime: seq<real>) returns (mean: Option<real>, lo: real, hi: real)
    ensures mean == Mean(dmtime)
    ensures lo == RunMin(dmtime, StatsMinInit) && hi == RunMax(dmtime, StatsMaxInit)
  {
    var sum: real;
    sum, lo, hi := Scan(dmtime, StatsMinInit, StatsMaxInit);
    mean := if |dmtime| == 0 then None else Some(sum / |dmtime| as real);
  }

  /** For timings strictly between the seeds, the reported minimum and maximum are timings
      that occurred, and the mean lies between them. */
  lemma StatsReportSamples(dmtime: seq<real>)
    requires |dmtime| > 0
    requires forall i :: 0 <= i < |dmtime| ==> StatsMaxInit < dmtime[i] < StatsMinInit
    ensures exists i :: 0 <= i < |dmtime| && RunMin(dmtime, StatsMinInit) == dmtime[i]
    ensures exists i :: 0 <= i < |dmtime| && RunMax(dmtime, StatsMaxInit) == dmtime[i]
    ensures RunMin(dmtime, StatsMinInit) <= Mean(dmtime).value <= RunMax(dmtime, StatsMaxInit)
  {
    assert RunMin(dmtime, StatsMinInit) <= dmtime[0] < StatsMinInit;
    assert RunMax(dmtime, StatsMaxInit) >= dmtime[0] > StatsMaxInit;
    MeanBetween(dmtime, StatsMinInit, StatsMaxInit);
  }

  /** Whether a frame's detections are accepted by the image source: the marker status is
      OK and the crop has a width (the crop depends on the configuration only). */
  predicate Accepted(markers: M.Markers, f: Source.Frame)
    reads markers
    requires markers.Valid()
  {
    M.DetectionStatus(f.ids) == M.Ok && CropWidth(markers) != 0
  }

  /** The width of the crop every projection of this configuration gets. */
  function CropWidth(markers: M.Markers): int
    reads markers
    requires markers.Valid()
  {
    var rows := Trunc(markers.imageWidth as real * markers.ratio);
    M.CropRoi(markers.imageWidth, rows, markers.boardWidth, markers.boardHeight, markers.boardOffset).width
  }

  /** The image source's verdict on a frame is OK exactly when the frame is accepted. */
  lemma ProjectVerdict(markers: M.Markers, f: Source.Frame, status: M.Status, proj: Option<M.Projection>)
    requires markers.Valid() && Source.Detectable(f)
    requires proj.Some? <==> M.DetectionStatus(f.ids) == M.Ok
    requires proj.Some? ==> proj.value == Source.ExpectedProjection(markers, f)
    requires status == Source.Downgrade(M.DetectionStatus(f.ids), Source.ProjCols(proj))
    ensures status == M.Ok <==> Accepted(markers, f)
  {
  }

  /** The wait before stitching: read images until one is projected.  It ends at the first
      accepted image, which must exist (reading past the last image is undefined). */
  method AwaitFirstImage(src: Source.ImageSource, markers: M.Markers) returns (img1: M.Projection)
    requires markers.Valid()
    requires forall k :: 0 <= k < |src.imgs| ==> Source.Detectable(src.imgs[k])
    requires exists k :: 0 <= k < |src.imgs| && Accepted(markers, src.imgs[k])
    modifies src
    ensures exists k :: (0 <= k < |old(src.imgs)|
      && src.imgs == old(src.imgs)[k + 1..]
      && Accepted(markers, old(src.imgs)[k])
      && (forall j :: 0 <= j < k ==> !Accepted(markers, old(src.imgs)[j]))
      && img1 == Source.ExpectedProjection(markers, old(src.imgs)[k]))
  {
    ghost var imgs := src.imgs;
    ghost var read := 0;
    var status := M.Err;
    var proj: Option<M.Projection> := None;
    while status != M.Ok
      invariant 0 <= read <= |imgs| && src.imgs == imgs[read..]
      invariant forall j :: 0 <= j < read - 1 ==> !Accepted(markers, imgs[j])
      invariant status != M.Ok ==> forall j :: 0 <= j < read ==> !Accepted(markers, imgs[j])
      invariant status == M.Ok ==>
        read > 0 && Accepted(markers, imgs[read - 1]) && proj == Some(Source.ExpectedProjection(markers, imgs[read - 1]))
      invariant status == M.Ok || exists k :: read <= k < |imgs| && Accepted(markers, imgs[k])
      decreases |src.imgs|, if status == M.Ok then 0 else 1
    {
      assert src.imgs[0] == imgs[read];
      status, proj := src.NextImage(markers);
      ProjectVerdict(markers, imgs[read], status, proj);
      read := read + 1;
    }
    img1 := proj.value;
    assert src.imgs == imgs[(read - 1) + 1..];
  }

  /** A match that passes the scale threshold has a non-zero scale, so composing it never
      fails with the zero-scale error. */
  lemma AcceptedMatchHasScale(numInliers: int, H: Option<Mat3>, scale: real, threshold: real)
    requires H.Some? ==> IsScaleOf(scale, H.value.m00, H.value.m01)
    requires 0.0 <= threshold < 1.0
    requires MatchStatus(numInliers, H, scale, threshold) == Ok
    ensures scale > 0.0
  {
  }

  /** R as a fresh 3x3 float matrix. */
  method MatrixOf(h: Mat3) returns (R: array2<real>)
    ensures fresh(R) && R.Length0 == 3 && R.Length1 == 3 && MatOf(R) == h
  {
    R := new real[3, 3];
    R[0, 0], R[0, 1], R[0, 2] := h.m00, h.m01, h.m02;
    R[1, 0], R[1, 1], R[1, 2] := h.m10, h.m11, h.m12;
    R[2, 0], R[2, 1], R[2, 2] := h.m20, h.m21, h.m22;
  }

  /** One pass of the stitching loop.  The frame's marker status comes from the source;
      the matcher reports numInliers, H and the scale of H; angle is H's rotation; the warper
      gives wimg2, wmask and the corner (tlx, tly).  The frame is composed only when the
      markers, the match and the transform check all pass; the base image for the next
      frame is then the stitcher's next base image, otherwise it stays img1.  `message` is
      the error shown over the canvas. */
  method StitchStep(stitcher: IncrementalStitcher, img1: array2<Pixel>, markersStatus: M.Status,
                    numInliers: int, H: Option<Mat3>, scale: real, angle: real,
                    wimg2: array2<Pixel>, wmask: array2<bool>, tlx: int, tly: int,
                    imageWidth: int, imageHeight: int)
    returns (next: array2<Pixel>, composed: bool, message: string)
    requires stitcher.Valid()
    requires H.Some? ==> IsScaleOf(scale, H.value.m00, H.value.m01)
    requires wmask.Length0 == wimg2.Length0 && wmask.Length1 == wimg2.Length1
    modifies stitcher
    ensures stitcher.Valid()
    ensures stitcher.matchScale == old(stitcher.matchScale) && stitcher.matchMode == old(stitcher.matchMode)
    ensures composed <==>
      && markersStatus == M.Ok
      && MatchStatus(numInliers, H, scale, stitcher.matchScaleThreshold) == Ok
      && CheckTransform(H.value, angle, imageWidth, imageHeight) == Ok
    ensures composed ==> message == "" && next == stitcher.GetNextBaseImage()
    ensures composed ==>
      && (stitcher.dx, stitcher.gx) == Split(if stitcher.matchMode == Pairwise then tlx + old(stitcher.dx) else tlx)
      && (stitcher.dy, stitcher.gy) == Split(if stitcher.matchMode == Pairwise then tly + old(stitcher.dy) else tly)
      && fresh(stitcher.stitchedImage) && fresh(stitcher.lastMatchedImage)
    ensures composed ==>
      var base := if old(stitcher.stitchedImage.Length1) == 0 then img1 else old(stitcher.stitchedImage);
      && stitcher.stitchedImage.Length0 == Extent(base.Length0, stitcher.dy - stitcher.gy, wimg2.Length0)
      && stitcher.stitchedImage.Length1 == Extent(base.Length1, stitcher.dx - stitcher.gx, wimg2.Length1)
      && forall i, j :: 0 <= i < stitcher.stitchedImage.Length0 && 0 <= j < stitcher.stitchedImage.Length1 ==>
           stitcher.stitchedImage[i, j]
             == ComposedAt(base, wimg2, wmask, stitcher.dx, stitcher.dy, stitcher.gx, stitcher.gy, i, j)
    ensures !composed ==>
      && next == img1
      && stitcher.stitchedImage == old(stitcher.stitchedImage)
      && stitcher.lastMatchedImage == old(stitcher.lastMatchedImage)
      && stitcher.dx == old(stitcher.dx) && stitcher.dy == old(stitcher.dy)
      && stitcher.gx == old(stitcher.gx) && stitcher.gy == old(stitcher.gy)
    ensures !composed && markersStatus != M.Ok ==> message == M.GetError(markersStatus)
    ensures !composed && markersStatus == M.Ok ==>
      message == GetError(MatchStatus(numInliers, H, scale, stitcher.matchScaleThreshold))
  {
    next, composed := img1, false;
    if markersStatus == M.Ok {
      var (status, R) := DetectAndMatch(numInliers, H, scale, stitcher.matchScaleThreshold);
      if status == Ok && CheckTransform(R.value, angle, imageWidth, imageHeight) == Ok {
        AcceptedMatchHasScale(numInliers, H, scale, stitcher.matchScaleThreshold);
        var m := MatrixOf(R.value);
        var _ := stitcher.ComposeImages(img1, wimg2, wmask, tlx, tly, m, scale);
        next := stitcher.GetNextBaseImage();
        composed, message := true, "";
      } else {
        message := GetError(status);
      }
    } else {
      message := M.GetError(markersStatus);
    }
  }
}
