/** IncrementalStitcher: the offset bookkeeping and image composition around OpenCV's
    feature matcher and affine warper.  The matcher's result (inlier count, affine matrix
    H), the scale of a matrix (a square root) and the warper's output (warped image, warped
    mask, top-left corner) are inputs of the model. */
module Stitcher {
  import opened Wrappers
  import opened Numeric
  import opened Geometry
  import opened Raster

  /** IncrementalStitcher::Status, plus EXCEEDS_X_THRESHOLD_ERR, which the stream tool
      returns although the enum does not declare it. */
  datatype Status =
    | Ok
    | MatchErr
    | TooFewMatchesErr
    | ExceedsScaleThresholdErr
    | EstimationErr
    | ComposeErr
    | ComposeErrScaleIsZero
    | ExceedsXThresholdErr

  /** The enum's numeric values; the undeclared enumerator has none. */
  function Code(s: Status): (c: Option<int>)
    ensures c.None? <==> s == ExceedsXThresholdErr
    ensures c == Some(0) <==> s == Ok
  {
    match s
    case Ok => Some(0)
    case MatchErr => Some(100)
    case TooFewMatchesErr => Some(101)
    case ExceedsScaleThresholdErr => Some(102)
    case EstimationErr => Some(200)
    case ComposeErr => Some(300)
    case ComposeErrScaleIsZero => Some(301)
    case ExceedsXThresholdErr => None
  }

  /** No two declared statuses share a code. */
  lemma CodesDistinct(s: Status, t: Status)
    requires Code(s).Some? && Code(s) == Code(t)
    ensures s == t
  {
  }

  datatype MatchMode = Pairwise | Aggregate
  datatype DetectMethod = DetectSurf | DetectOrb | DetectSift
  datatype ExtractMethod = ExtractSurf | ExtractOrb | ExtractFreak | ExtractBrisk

  /** The decision at the end of matchImages: too few inliers, then the scale test, which
      overrides the inlier verdict whenever a matrix was estimated; no matrix at all is
      always too few matches.  `scale` is getScale of H. */
  function MatchStatus(numInliers: int, H: Option<Mat3>, scale: real, threshold: real): (r: Status)
    requires H.Some? ==> IsScaleOf(scale, H.value.m00, H.value.m01)
    ensures r == Ok <==> numInliers >= 1 && H.Some? && Abs(1.0 - scale) <= threshold
    ensures r == ExceedsScaleThresholdErr <==> H.Some? && Abs(1.0 - scale) > threshold
    ensures r == TooFewMatchesErr <==> H.None? || (numInliers < 1 && Abs(1.0 - scale) <= threshold)
  {
    var status := if numInliers < 1 then TooFewMatchesErr else Ok;
    if H.Some? then
      (if Abs(1.0 - scale) > threshold then ExceedsScaleThresholdErr else status)
    else TooFewMatchesErr
  }

  /** detectAndMatch: the match status, and the matrix written to R only on success. */
  function DetectAndMatch(numInliers: int, H: Option<Mat3>, scale: real, threshold: real): (r: (Status, Option<Mat3>))
    requires H.Some? ==> IsScaleOf(scale, H.value.m00, H.value.m01)
    ensures r.1.Some? <==> r.0 == Ok
    ensures r.0 == Ok ==> r.1 == H && numInliers >= 1
    ensures r.0 == MatchStatus(numInliers, H, scale, threshold)
  {
    var status := MatchStatus(numInliers, H, scale, threshold);
    if status != Ok then (status, None) else (Ok, H)
  }

  /** getError: a message for five statuses, the empty string for the others. */
  function GetError(status: Status): (e: string)
    ensures e == "" <==> status in {Ok, ComposeErr, ExceedsXThresholdErr}
  {
    match status
    case ComposeErrScaleIsZero => "Bad (zero) scale in transform matrix. Can't stitch image."
    case MatchErr => "Match error."
    case TooFewMatchesErr => "Insufficient matching features."
    case ExceedsScaleThresholdErr => "Match scale exceeds threshold."
    case EstimationErr => "Camera estimation error."
    case _ => ""
  }

  /** One axis of an offset split into a placement part d and an origin shift g. */
  predicate SplitShape(d: int, g: int)
  {
    d >= 0 && g >= 0 && (d == 0 || g == 0)
  }

  /** translate on one axis: a positive sum becomes the placement, a negative one the
      origin shift. */
  function Split(s: int): (r: (int, int))
    ensures r.0 - r.1 == s && SplitShape(r.0, r.1)
  {
    (if s > 0 then s else 0, if s < 0 then -s else 0)
  }

  /** The split is the only one of its shape. */
  lemma SplitUnique(s: int, d: int, g: int)
    requires d - g == s && SplitShape(d, g)
    ensures (d, g) == Split(s)
  {
  }

  /** One side of detail::resultRoi for rectangles at 0 (length n1) and at off (length n2). */
  function Extent(n1: nat, off: int, n2: nat): (e: nat)
    ensures e >= n1 && e >= n2
  {
    Max(n1, off + n2) - Min(0, off)
  }

  /** With img1 placed at g and img2 at d, both inside the bounding extent of corners 0 and
      d - g, exactly when the offsets have the split shape. */
  lemma PlacementFits(n1: nat, n2: nat, d: int, g: int)
    requires d >= 0 && g >= 0
    ensures (g + n1 <= Extent(n1, d - g, n2) && d + n2 <= Extent(n1, d - g, n2)) <==> (d == 0 || g == 0)
  {
  }

  /** A pixel of composeImagesWithOffset's buffer: img2's where its rectangle at (dy, dx)
      covers it and the mask is set, otherwise img1's where its rectangle at (gy, gx) covers
      it, otherwise the ones fill. */
  ghost function ComposedAt(img1: array2<Pixel>, img2: array2<Pixel>, mask: array2<bool>,
                            dx: int, dy: int, gx: int, gy: int, i: int, j: int): Pixel
    reads img1, img2, mask
    requires mask.Length0 == img2.Length0 && mask.Length1 == img2.Length1
  {
    if InRect(i, j, dy, dx, img2.Length0, img2.Length1) && mask[i - dy, j - dx] then img2[i - dy, j - dx]
    else if InRect(i, j, gy, gx, img1.Length0, img1.Length1) then img1[i - gy, j - gx]
    else Ones
  }

  /** composeImagesWithOffset with image offset (dx, dy) and coordinate offset (gx, gy). */
  method ComposeImagesWithOffset(img1: array2<Pixel>, img2: array2<Pixel>, img2mask: array2<bool>,
                                 dx: int, dy: int, gx: int, gy: int) returns (buff: array2<Pixel>)
    requires img2mask.Length0 == img2.Length0 && img2mask.Length1 == img2.Length1
    requires SplitShape(dx, gx) && SplitShape(dy, gy)
    ensures fresh(buff)
    ensures buff.Length0 == Extent(img1.Length0, dy - gy, img2.Length0)
    ensures buff.Length1 == Extent(img1.Length1, dx - gx, img2.Length1)
    ensures forall i, j :: 0 <= i < buff.Length0 && 0 <= j < buff.Length1 ==>
      buff[i, j] == ComposedAt(img1, img2, img2mask, dx, dy, gx, gy, i, j)
  {
    PlacementFits(img1.Length0, img2.Length0, dy, gy);
    PlacementFits(img1.Length1, img2.Length1, dx, gx);
    buff := Filled(Extent(img1.Length0, dy - gy, img2.Length0), Extent(img1.Length1, dx - gx, img2.Length1), Ones);
    CopyInto(img1, buff, gy, gx);
    CopyMasked(img2, img2mask, buff, dy, dx);
  }

  /** A 3x3 cv::Mat of floats read as a matrix value. */
  ghost function MatOf(R: array2<real>): Mat3
    reads R
    requires R.Length0 == 3 && R.Length1 == 3
  {
    Mat3(R[0, 0], R[0, 1], R[0, 2], R[1, 0], R[1, 1], R[1, 2], R[2, 0], R[2, 1], R[2, 2])
  }

  /** undoScale: the four linear entries of R divided by the scale, in place. */
  method UndoScale(R: array2<real>, scale: real)
    requires R.Length0 == 3 && R.Length1 == 3 && scale != 0.0
    modifies R
    ensures MatOf(R) == Unscaled(old(MatOf(R)), scale)
    ensures old(IsScaleOf(scale, R[0, 0], R[0, 1])) ==> IsScaleOf(1.0, R[0, 0], R[0, 1])
  {
    ghost var h := MatOf(R);
    R[0, 0] := R[0, 0] / scale;
    R[0, 1] := R[0, 1] / scale;
    R[1, 0] := R[1, 0] / scale;
    R[1, 1] := R[1, 1] / scale;
    if IsScaleOf(scale, h.m00, h.m01) {
      UnscaledHasUnitScale(h, scale);
    }
  }

  /** The translation column divided by the match scale when that is not 1. */
  function MatchScaled(h: Mat3, matchScale: real): (t: Mat3)
    requires matchScale != 0.0
    ensures t.m02 * matchScale == h.m02 && t.m12 * matchScale == h.m12
    ensures t.(m02 := h.m02, m12 := h.m12) == h
  {
    if matchScale != 1.0 then h.(m02 := h.m02 / matchScale, m12 := h.m12 / matchScale) else h
  }

  class IncrementalStitcher {
    /** Largest accepted |1 - scale| of a match. */
    const matchScaleThreshold: real := 0.01
    const maxDetectPoints: int := 1500
    const minHessian: int := 400

    var matchScale: real
    var matchMode: MatchMode
    var detectMethod: DetectMethod
    var extractMethod: ExtractMethod
    /** The aggregate stitched image. */
    var stitchedImage: array2<Pixel>
    /** The last image matched, post-warp. */
    var lastMatchedImage: array2<Pixel>
    /** Placement of the next image within the canvas. */
    var dx: int
    var dy: int
    /** Shift of the coordinate origin. */
    var gx: int
    var gy: int

    ghost predicate Valid()
      reads this
    {
      matchScale > 0.0 && SplitShape(dx, gx) && SplitShape(dy, gy)
    }

    constructor (scale: real := 1.0, mode: MatchMode := Pairwise,
                 detect: DetectMethod := DetectSurf, extract: ExtractMethod := ExtractFreak)
      requires scale > 0.0
      ensures Valid()
      ensures matchScale == scale && matchMode == mode
      ensures detectMethod == detect && extractMethod == extract
      ensures dx == 0 && dy == 0 && gx == 0 && gy == 0
      ensures fresh(stitchedImage) && stitchedImage.Length0 == 0 && stitchedImage.Length1 == 0
      ensures fresh(lastMatchedImage) && lastMatchedImage.Length0 == 0 && lastMatchedImage.Length1 == 0
    {
      matchScale := scale;
      matchMode := mode;
      detectMethod := detect;
      extractMethod := extract;
      stitchedImage := new Pixel[0, 0];
      lastMatchedImage := new Pixel[0, 0];
      dx, dy, gx, gy := 0, 0, 0, 0;
    }

    /** translate: in pairwise mode the new corner is accumulated onto the old placement
        before the split; in aggregate mode it is split alone. */
    method Translate(x: int, y: int)
      requires Valid()
      modifies this`dx, this`dy, this`gx, this`gy
      ensures Valid()
      ensures (dx, gx) == Split(if matchMode == Pairwise then x + old(dx) else x)
      ensures (dy, gy) == Split(if matchMode == Pairwise then y + old(dy) else y)
    {
      var sx := if matchMode == Pairwise then x + dx else x;
      var sy := if matchMode == Pairwise then y + dy else y;
      gx := if sx < 0 then -sx else 0;
      gy := if sy < 0 then -sy else 0;
      dx := if sx > 0 then sx else 0;
      dy := if sy > 0 then sy else 0;
    }

    /** getNextBaseImage: pairwise mode matches the next frame against the previous warped
        frame, aggregate mode against the whole stitched canvas. */
    function GetNextBaseImage(): (b: array2<Pixel>)
      reads this
      ensures matchMode == Pairwise ==> b == lastMatchedImage
      ensures matchMode == Aggregate ==> b == stitchedImage
    {
      if matchMode == Pairwise then lastMatchedImage else stitchedImage
    }

    /** The successful branch of composeImages: seed an empty canvas with img1, accumulate
        the warped corner into the offsets, compose, and keep the masked warped image. */
    method PlaceWarped(img1: array2<Pixel>, wimg2: array2<Pixel>, wmask: array2<bool>, tlx: int, tly: int)
      requires Valid()
      requires wmask.Length0 == wimg2.Length0 && wmask.Length1 == wimg2.Length1
      modifies this
      ensures Valid()
      ensures matchScale == old(matchScale) && matchMode == old(matchMode)
      ensures detectMethod == old(detectMethod) && extractMethod == old(extractMethod)
      ensures (dx, gx) == Split(if matchMode == Pairwise then tlx + old(dx) else tlx)
      ensures (dy, gy) == Split(if matchMode == Pairwise then tly + old(dy) else tly)
      ensures var base := if old(stitchedImage.Length1) == 0 then img1 else old(stitchedImage);
        && fresh(stitchedImage)
        && stitchedImage.Length0 == Extent(base.Length0, dy - gy, wimg2.Length0)
        && stitchedImage.Length1 == Extent(base.Length1, dx - gx, wimg2.Length1)
        && forall i, j :: 0 <= i < stitchedImage.Length0 && 0 <= j < stitchedImage.Length1 ==>
             stitchedImage[i, j] == ComposedAt(base, wimg2, wmask, dx, dy, gx, gy, i, j)
      ensures fresh(lastMatchedImage)
      ensures lastMatchedImage.Length0 == wimg2.Length0 && lastMatchedImage.Length1 == wimg2.Length1
      ensures forall i, j :: 0 <= i < wimg2.Length0 && 0 <= j < wimg2.Length1 ==>
        lastMatchedImage[i, j] == if wmask[i, j] then wimg2[i, j] else Ones
    {
      // An empty canvas is seeded with img1, which buff then replaces: composing onto img1.
      var base := if stitchedImage.Length1 == 0 then img1 else stitchedImage;
      Translate(tlx, tly);
      var buff := ComposeImagesWithOffset(base, wimg2, wmask, dx, dy, gx, gy);
      stitchedImage := buff;
      var last := Filled(wimg2.Length0, wimg2.Length1, Ones);
      CopyMasked(wimg2, wmask, last, 0, 0);
      lastMatchedImage := last;
    }

    /** composeImages.  R is the caller's matrix, changed in place; s is its scale; the
        warper's output for R (wimg2, wmask and the top-left corner tl) is given. */
    method ComposeImages(img1: array2<Pixel>, wimg2: array2<Pixel>, wmask: array2<bool>,
                         tlx: int, tly: int, R: array2<real>, s: real) returns (status: Status)
      requires Valid()
      requires R.Length0 == 3 && R.Length1 == 3 && IsScaleOf(s, R[0, 0], R[0, 1])
      requires wmask.Length0 == wimg2.Length0 && wmask.Length1 == wimg2.Length1
      modifies this, R
      ensures Valid()
      ensures matchScale == old(matchScale) && matchMode == old(matchMode)
      ensures detectMethod == old(detectMethod) && extractMethod == old(extractMethod)
      ensures status == if s != 0.0 then Ok else ComposeErrScaleIsZero
      ensures s != 0.0 ==> IsScaleOf(1.0, R[0, 0], R[0, 1])
      ensures MatOf(R) == if s != 0.0 then Unscaled(MatchScaled(old(MatOf(R)), matchScale), s)
                          else MatchScaled(old(MatOf(R)), matchScale)
      ensures s == 0.0 ==>
        && stitchedImage == old(stitchedImage) && lastMatchedImage == img1
        && dx == old(dx) && dy == old(dy) && gx == old(gx) && gy == old(gy)
      ensures s != 0.0 ==>
        && (dx, gx) == Split(if matchMode == Pairwise then tlx + old(dx) else tlx)
        && (dy, gy) == Split(if matchMode == Pairwise then tly + old(dy) else tly)
      ensures s != 0.0 ==>
        var base := if old(stitchedImage.Length1) == 0 then img1 else old(stitchedImage);
        && fresh(stitchedImage)
        && stitchedImage.Length0 == Extent(base.Length0, dy - gy, wimg2.Length0)
        && stitchedImage.Length1 == Extent(base.Length1, dx - gx, wimg2.Length1)
        && forall i, j :: 0 <= i < stitchedImage.Length0 && 0 <= j < stitchedImage.Length1 ==>
             stitchedImage[i, j] == ComposedAt(base, wimg2, wmask, dx, dy, gx, gy, i, j)
      ensures s != 0.0 ==>
        && fresh(lastMatchedImage)
        && lastMatchedImage.Length0 == wimg2.Length0 && lastMatchedImage.Length1 == wimg2.Length1
        && forall i, j :: 0 <= i < wimg2.Length0 && 0 <= j < wimg2.Length1 ==>
             lastMatchedImage[i, j] == if wmask[i, j] then wimg2[i, j] else Ones
    {
      if matchScale != 1.0 {
        R[0, 2] := R[0, 2] / matchScale;
        R[1, 2] := R[1, 2] / matchScale;
      }
      if s != 0.0 {
        UndoScale(R, s);
        PlaceWarped(img1, wimg2, wmask, tlx, tly);
        status := Ok;
      } else {
        lastMatchedImage := img1;
        status := ComposeErrScaleIsZero;
      }
    }
  }
}
