/** The frame sources of the stitching tool: a queue of still images, or a camera read a
    few frames at a time.  A frame is what the model needs of an image: its width and
    the marker detections in it.  Each source hands its frame to a copy of the caller's
    Markers (the object is passed by value), so the caller's window of quads is never
    updated by a source. */
module Source {
  import opened Wrappers
  import opened Geometry
  import opened Window
  import M = Markers

  /** A frame: its width in pixels (0 for the empty image a finished stream yields), the
      ids of the detected markers and the first corner of each. */
  datatype Frame = Frame(cols: int, ids: seq<int>, corners: seq<Point>)

  /** Detections the four-slot quad can take: one corner per id, ids in 0..3. */
  predicate Detectable(f: Frame)
  {
    |f.corners| == |f.ids| && forall i :: 0 <= i < |f.ids| ==> 0 <= f.ids[i] < 4
  }

  /** imgProj.cols after getArucoOrientedImage: the crop's width, or 0 when nothing was
      projected. */
  function ProjCols(proj: Option<M.Projection>): int
  {
    if proj.None? then 0 else proj.value.crop.width
  }

  /** An OK status with an empty projection is reported as ERR; every other status is
      passed through. */
  function Downgrade(status: M.Status, projCols: int): (s: M.Status)
    ensures s == M.Ok <==> status == M.Ok && projCols != 0
    ensures s == M.Err <==> status == M.Err || (status == M.Ok && projCols == 0)
    ensures s != M.Err ==> s == status
  {
    if status == M.Ok && projCols == 0 then M.Err else status
  }

  /** The projection a frame gets from a Markers holding the window `rects`, when the
      frame's detections are accepted. */
  function ExpectedProjection(markers: M.Markers, f: Frame): M.Projection
    reads markers
    requires markers.Valid() && Detectable(f) && M.DetectionStatus(f.ids) == M.Ok
  {
    var window := Truncated(M.Quad(f.ids, f.corners) + markers.rects, 4 * markers.targetFrames);
    markers.Perspective(M.AvgQuad(window))
  }

  /** Both sources' common step: project the frame with a copy of markers and downgrade
      an OK without a projection. */
  method Project(markers: M.Markers, f: Frame) returns (status: M.Status, proj: Option<M.Projection>)
    requires markers.Valid() && Detectable(f)
    ensures proj.Some? <==> M.DetectionStatus(f.ids) == M.Ok
    ensures proj.Some? ==> proj.value == ExpectedProjection(markers, f)
    ensures status == Downgrade(M.DetectionStatus(f.ids), ProjCols(proj))
  {
    var copy := new M.Markers.Copy(markers);
    status, proj := copy.GetArucoOrientedImage(f.ids, f.corners, false, true);
    if status == M.Ok && ProjCols(proj) == 0 {
      status := M.Err;
    }
  }

  /** A still-image source: the images are consumed front first. */
  class ImageSource {
    var imgs: seq<Frame>

    constructor (i: seq<Frame>)
      ensures imgs == i
    {
      imgs := i;
    }

    /** done: no image is left. */
    function Done(): bool
      reads this
    {
      |imgs| == 0
    }

    /** nextImage: take the front image (front() on an empty list is undefined, so there
        must be one) and project it. */
    method NextImage(markers: M.Markers) returns (status: M.Status, proj: Option<M.Projection>)
      requires |imgs| > 0 && markers.Valid() && Detectable(imgs[0])
      modifies this`imgs
      ensures imgs == old(imgs[1..])
      ensures |imgs| == old(|imgs|) - 1 && (Done() <==> old(|imgs|) == 1)
      ensures markers.rects == old(markers.rects)
      ensures var f := old(imgs[0]);
        && (proj.Some? <==> M.DetectionStatus(f.ids) == M.Ok)
        && (proj.Some? ==> proj.value == ExpectedProjection(markers, f))
        && status == Downgrade(M.DetectionStatus(f.ids), ProjCols(proj))
    {
      var img := imgs[0];
      imgs := imgs[1..];
      status, proj := Project(markers, img);
    }
  }

  /** Frames read and dropped before the one used, so the stream does not lag. */
  const SkipFrames: nat := 5

  /** A camera source: once an empty frame is read the source is done for good. */
  class VideoSource {
    var isDone: bool

    constructor ()
      ensures !isDone
    {
      isDone := false;
    }

    function Done(): bool
      reads this
    {
      isDone
    }

    /** nextImage: read SkipFrames frames and keep the last; an empty frame ends the
        stream with ERR, any other is projected. */
    method NextImage(markers: M.Markers, frames: seq<Frame>) returns (status: M.Status, proj: Option<M.Projection>)
      requires markers.Valid() && |frames| == SkipFrames
      requires frames[SkipFrames - 1].cols > 0 ==> Detectable(frames[SkipFrames - 1])
      modifies this`isDone
      ensures markers.rects == old(markers.rects)
      ensures old(isDone) ==> isDone
      ensures var f := frames[SkipFrames - 1];
        && (f.cols <= 0 ==> isDone && status == M.Err && proj.None?)
        && (f.cols > 0 ==>
              && isDone == old(isDone)
              && (proj.Some? <==> M.DetectionStatus(f.ids) == M.Ok)
              && (proj.Some? ==> proj.value == ExpectedProjection(markers, f))
              && status == Downgrade(M.DetectionStatus(f.ids), ProjCols(proj)))
    {
      var img := frames[0];
      var i := 0;
      while i < SkipFrames
        invariant 0 <= i <= SkipFrames
        invariant i > 0 ==> img == frames[i - 1]
      {
        img := frames[i];
        i := i + 1;
      }
      if img.cols > 0 {
        status, proj := Project(markers, img);
      } else {
        isDone := true;
        status, proj := M.Err, None;
      }
    }
  }
}
