/** Markers: the four ArUco markers at the corners of the marker board give the quad the
    camera image is projected from.  Detection itself (undistortion, detectMarkers,
    estimatePoseSingleMarkers) and the perspective warp are outside the model: the
    detected ids and first corners are inputs, and the projection is described by its
    source quad, destination quad, output size and crop rectangle. */
module Markers {
  import opened Wrappers
  import opened Numeric
  import opened Geometry
  import opened Window

  datatype Status = Ok | Err | OrientNoMarkersErr | OrientTooFewMarkersErr | OrientTooManyMarkersErr

  /** The enumerators' values. */
  function Code(s: Status): (c: int)
    ensures c == 0 <==> s == Ok
    ensures c == 1 <==> s == Err
    ensures 100 <= c <= 102 <==> s in {OrientNoMarkersErr, OrientTooFewMarkersErr, OrientTooManyMarkersErr}
  {
    match s
    case Ok => 0
    case Err => 1
    case OrientNoMarkersErr => 100
    case OrientTooFewMarkersErr => 101
    case OrientTooManyMarkersErr => 102
  }

  /** No two statuses share a code. */
  lemma CodesDistinct(s: Status, t: Status)
    requires Code(s) == Code(t)
    ensures s == t
  {
  }

  /** getError: a message per error status, "None" for OK. */
  function GetError(status: Status): (e: string)
    ensures e == "None" <==> status == Ok
  {
    match status
    case Ok => "None"
    case Err => "Unknown Marker error."
    case OrientNoMarkersErr => "Reoriented image was bad. No markers found. Skipping."
    case OrientTooFewMarkersErr => "Reoriented image was bad. Obstructed marker? Skipping."
    case OrientTooManyMarkersErr => "Reoriented image was bad. Too many markers. Skipping."
  }

  /** The status rule of getArucoOrientedImage as written: it looks at the number of
      detections only. */
  function CountStatus(n: nat): (s: Status)
    ensures s == Ok <==> n == 4
    ensures s == OrientNoMarkersErr <==> n == 0
    ensures s == OrientTooFewMarkersErr <==> 1 <= n < 4
    ensures s == OrientTooManyMarkersErr <==> n > 4
  {
    if n > 0 then
      if n == 4 then Ok else if n < 4 then OrientTooFewMarkersErr else OrientTooManyMarkersErr
    else OrientNoMarkersErr
  }

  /** Every board marker 0..3 is among the detections. */
  predicate AllBoardMarkers(ids: seq<int>)
  {
    forall k :: 0 <= k < 4 ==> k in ids
  }

  /** The corrected rule: four detections are accepted only when they are the four board
      markers; four detections with a marker missing count as too few. */
  function DetectionStatus(ids: seq<int>): (s: Status)
    ensures s == Ok <==> |ids| == 4 && AllBoardMarkers(ids)
    ensures s == OrientNoMarkersErr <==> |ids| == 0
    ensures s == OrientTooFewMarkersErr <==> 1 <= |ids| < 4 || (|ids| == 4 && !AllBoardMarkers(ids))
    ensures s == OrientTooManyMarkersErr <==> |ids| > 4
    ensures |ids| != 4 ==> s == CountStatus(|ids|)
  {
    if |ids| > 0 then
      if |ids| == 4 && AllBoardMarkers(ids) then Ok
      else if |ids| <= 4 then OrientTooFewMarkersErr
      else OrientTooManyMarkersErr
    else OrientNoMarkersErr
  }

  /** Slot k of the quad after `markers[ids[i]] = corners[i][0]` for every detection in
      order: the corner of the last detection of marker k, or Point2f's default (0, 0)
      when marker k was not detected. */
  function QuadSlot(ids: seq<int>, corners: seq<Point>, k: int): Point
    requires |corners| == |ids|
  {
    if |ids| == 0 then Point(0.0, 0.0)
    else if ids[|ids| - 1] == k then corners[|ids| - 1]
    else QuadSlot(ids[..|ids| - 1], corners[..|ids| - 1], k)
  }

  /** The quad the detections give: slots 0..3. */
  function Quad(ids: seq<int>, corners: seq<Point>): (q: seq<Point>)
    requires |corners| == |ids|
    ensures |q| == 4
  {
    seq(4, k => QuadSlot(ids, corners, k))
  }

  /** A slot holds the corner of the last detection of its marker. */
  lemma {:induction false} QuadSlotLast(ids: seq<int>, corners: seq<Point>, k: int, i: int)
    requires |corners| == |ids| && 0 <= i < |ids| && ids[i] == k
    requires forall j :: i < j < |ids| ==> ids[j] != k
    ensures QuadSlot(ids, corners, k) == corners[i]
  {
    var n := |ids| - 1;
    if i < n {
      QuadSlotLast(ids[..n], corners[..n], k, i);
    }
  }

  /** A slot whose marker was not detected keeps (0, 0). */
  lemma {:induction false} QuadSlotMissing(ids: seq<int>, corners: seq<Point>, k: int)
    requires |corners| == |ids| && k !in ids
    ensures QuadSlot(ids, corners, k) == Point(0.0, 0.0)
  {
    if |ids| > 0 {
      var n := |ids| - 1;
      assert forall x :: x in ids[..n] ==> x in ids;
      QuadSlotMissing(ids[..n], corners[..n], k);
    }
  }

  /** A slot whose marker was detected holds one of that marker's corners. */
  lemma {:induction false} QuadSlotDetected(ids: seq<int>, corners: seq<Point>, k: int)
    requires |corners| == |ids| && k in ids
    ensures exists i :: 0 <= i < |ids| && ids[i] == k && QuadSlot(ids, corners, k) == corners[i]
  {
    var n := |ids| - 1;
    if ids[n] != k {
      assert k in ids[..n] by {
        var i :| 0 <= i < |ids| && ids[i] == k;
        assert ids[..n][i] == k;
      }
      QuadSlotDetected(ids[..n], corners[..n], k);
      var i :| 0 <= i < n && ids[..n][i] == k && QuadSlot(ids[..n], corners[..n], k) == corners[..n][i];
      assert ids[i] == k && QuadSlot(ids, corners, k) == corners[i];
    }
  }

  /** p is the corner of some detection of marker k. */
  ghost predicate DetectedCorner(ids: seq<int>, corners: seq<Point>, k: int, p: Point)
    requires |corners| == |ids|
  {
    exists i :: 0 <= i < |ids| && ids[i] == k && corners[i] == p
  }

  /** Under the corrected rule an accepted quad is made of detected corners only: slot k
      holds a corner of marker k. */
  lemma AcceptedQuadIsDetected(ids: seq<int>, corners: seq<Point>)
    requires |corners| == |ids| && DetectionStatus(ids) == Ok
    ensures forall k :: 0 <= k < 4 ==> DetectedCorner(ids, corners, k, Quad(ids, corners)[k])
  {
    forall k | 0 <= k < 4
      ensures DetectedCorner(ids, corners, k, Quad(ids, corners)[k])
    {
      assert k in ids;
      QuadSlotDetected(ids, corners, k);
    }
  }

  /** As written, four detections of three markers are accepted, and the slot of the
      missing marker keeps (0, 0), which then becomes a corner of the projection. */
  lemma DuplicateIdsAccepted()
    ensures var ids := [0, 0, 1, 2];
      var corners := [Point(1.0, 1.0), Point(2.0, 1.0), Point(2.0, 2.0), Point(1.0, 2.0)];
      && CountStatus(|ids|) == Ok
      && Quad(ids, corners)[3] == Point(0.0, 0.0)
      && DetectionStatus(ids) == OrientTooFewMarkersErr
  {
    var ids := [0, 0, 1, 2];
    var corners := [Point(1.0, 1.0), Point(2.0, 1.0), Point(2.0, 2.0), Point(1.0, 2.0)];
    QuadSlotMissing(ids, corners, 3);
    assert 3 !in ids;
  }

  /** getPerspective's destination quad: (0, 0), (W, 0), (W, W * ratio), (0, W * ratio). */
  function DestQuad(w: int, ratio: real): (q: seq<Point>)
    ensures |q| == 4
  {
    [Point(0.0, 0.0), Point(w as real, 0.0), Point(w as real, w as real * ratio), Point(0.0, w as real * ratio)]
  }

  /** The destination quad is an axis-aligned rectangle at the origin with the board's
      proportions, clockwise from the top-left corner. */
  lemma DestQuadIsBoardShaped(w: int, ratio: real, boardWidth: real, boardHeight: real)
    requires ratio * boardWidth == boardHeight
    ensures var q := DestQuad(w, ratio);
      && q[0] == Point(0.0, 0.0)
      && q[1].y == q[0].y && q[2].x == q[1].x && q[3].y == q[2].y && q[3].x == q[0].x
      && (q[2].y - q[1].y) * boardWidth == (q[1].x - q[0].x) * boardHeight
  {
    var q := DestQuad(w, ratio);
    MulAssoc(w as real, ratio, boardWidth);
  }

  /** Proof helper: one arithmetic step Z3 does not take on its own. */
  lemma MulAssoc(a: real, b: real, c: real)
    ensures (a * b) * c == a * (b * c)
  {
  }

  /** crop: a border of `border` board units cut off each side, converted to pixels per
      board unit along each axis. */
  function CropRoi(cols: int, rows: int, boardWidth: real, boardHeight: real, border: real): Rect
    requires boardWidth != 0.0 && boardHeight != 0.0
  {
    var colsPerUnit := cols as real / boardWidth;
    var rowsPerUnit := rows as real / boardHeight;
    Rect(Trunc(colsPerUnit * border), Trunc(rowsPerUnit * border),
         Trunc(cols as real - colsPerUnit * border * 2.0), Trunc(rows as real - rowsPerUnit * border * 2.0))
  }

  /** The projection of `src` for a configuration: it depends on nothing else. */
  function ProjectionFor(src: seq<Point>, imageWidth: int, ratio: real, boardWidth: real, boardHeight: real,
                         border: real): Projection
    requires boardWidth != 0.0 && boardHeight != 0.0
  {
    var rows := Trunc(imageWidth as real * ratio);
    Projection(src, DestQuad(imageWidth, ratio), imageWidth, rows, CropRoi(imageWidth, rows, boardWidth, boardHeight, border))
  }

  /** Proof helper: one arithmetic step Z3 does not take on its own. */
  lemma MulLeft(a: real, b: real, c: real)
    requires a >= 0.0 && b <= c
    ensures a * b <= a * c
  {
  }

  /** Proof helper: one arithmetic step Z3 does not take on its own. */
  lemma DivMul(n: real, b: real)
    requires b != 0.0
    ensures (n / b) * b == n
  {
  }

  /** A border of at most half the board leaves 0 <= m and 2m <= n pixels of margin. */
  lemma MarginBounds(n: real, b: real, border: real)
    requires n >= 0.0 && b > 0.0 && 0.0 <= border && 2.0 * border <= b
    ensures 0.0 <= (n / b) * border
    ensures (n / b) * border * 2.0 <= n
  {
    MulLeft(n / b, 0.0, border);
    MulLeft(n / b, border * 2.0, b);
    DivMul(n, b);
  }

  /** One axis of the crop: a margin m cut off both ends of n pixels keeps a segment that
      fits, centred to within two pixels. */
  lemma CropAxis(n: int, m: real)
    requires 0.0 <= m && m * 2.0 <= n as real
    ensures 0 <= Trunc(m) && 0 <= Trunc(n as real - m * 2.0)
    ensures Trunc(m) + Trunc(n as real - m * 2.0) <= n
    ensures 0 <= n - (2 * Trunc(m) + Trunc(n as real - m * 2.0)) <= 2
  {
  }

  /** The same, with the margin of `border` board units out of b on n pixels. */
  lemma CropAxisOfBoard(n: int, b: real, border: real)
    requires n >= 0 && b > 0.0 && 0.0 <= border && 2.0 * border <= b
    ensures var m := (n as real / b) * border;
      && 0 <= Trunc(m) && 0 <= Trunc(n as real - m * 2.0)
      && Trunc(m) + Trunc(n as real - m * 2.0) <= n
      && 0 <= n - (2 * Trunc(m) + Trunc(n as real - m * 2.0)) <= 2
  {
    MarginBounds(n as real, b, border);
    CropAxis(n, (n as real / b) * border);
  }

  /** The crop rectangle lies inside the image as long as the border is at most half of
      each board dimension, and it is symmetric up to the truncations. */
  lemma CropInside(cols: int, rows: int, boardWidth: real, boardHeight: real, border: real)
    requires cols >= 0 && rows >= 0 && boardWidth > 0.0 && boardHeight > 0.0
    requires 0.0 <= border && 2.0 * border <= boardWidth && 2.0 * border <= boardHeight
    ensures RectInside(CropRoi(cols, rows, boardWidth, boardHeight, border), cols, rows)
    ensures var roi := CropRoi(cols, rows, boardWidth, boardHeight, border);
      0 <= cols - (2 * roi.x + roi.width) <= 2 && 0 <= rows - (2 * roi.y + roi.height) <= 2
  {
    CropAxisOfBoard(cols, boardWidth, border);
    CropAxisOfBoard(rows, boardHeight, border);
  }

  /** What getPerspective computes around the warp: the source quad mapped onto the
      destination quad, an output of cols x rows pixels, and the crop taken from it. */
  datatype Projection = Projection(src: seq<Point>, dst: seq<Point>, cols: int, rows: int, crop: Rect)

  /** The value of a point's x (useY false) or y (useY true). */
  function Coord(p: Point, useY: bool): real
  {
    if useY then p.y else p.x
  }

  /** One coordinate of corner k of every stored group of four, oldest group last. */
  function CornerCoords(rs: seq<Point>, k: int, useY: bool): (cs: seq<real>)
    requires 0 <= k < 4 && |rs| % 4 == 0
    ensures |cs| == |rs| / 4
  {
    if |rs| == 0 then [] else CornerCoords(rs[..|rs| - 4], k, useY) + [Coord(rs[|rs| - 4 + k], useY)]
  }

  /** The average quad: each corner's coordinates averaged over the stored groups. */
  function AvgQuad(rs: seq<Point>): (q: seq<Point>)
    requires |rs| % 4 == 0 && |rs| > 0
    ensures |q| == 4
  {
    seq(4, k requires 0 <= k < 4 =>
      Point(Mean(CornerCoords(rs, k, false)).value, Mean(CornerCoords(rs, k, true)).value))
  }

  /** With a single stored group the average quad is that group. */
  lemma AvgOfOneGroup(rs: seq<Point>)
    requires |rs| == 4
    ensures AvgQuad(rs) == rs
  {
    forall k | 0 <= k < 4 ensures AvgQuad(rs)[k] == rs[k] {
      assert CornerCoords(rs, k, false) == [rs[k].x];
      assert CornerCoords(rs, k, true) == [rs[k].y];
      assert Sum([rs[k].x]) == rs[k].x by { assert [rs[k].x][..0] == []; }
      assert Sum([rs[k].y]) == rs[k].y by { assert [rs[k].y][..0] == []; }
    }
  }

  lemma SumAppend(s: seq<real>, v: real)
    ensures Sum(s + [v]) == Sum(s) + v
  {
    assert (s + [v])[..|s|] == s;
  }

  /** The eight running sums of avgRect's loop. */
  datatype Totals = Totals(aX: real, bX: real, cX: real, dX: real, aY: real, bY: real, cY: real, dY: real)

  /** The sums after one more quad. */
  function AddQuad(t: Totals, q: seq<Point>): Totals
    requires |q| == 4
  {
    Totals(t.aX + q[0].x, t.bX + q[1].x, t.cX + q[2].x, t.dX + q[3].x,
           t.aY + q[0].y, t.bY + q[1].y, t.cY + q[2].y, t.dY + q[3].y)
  }

  /** The sums over a sequence of whole quads, added oldest-stored last. */
  function RunningTotals(rs: seq<Point>): Totals
    requires |rs| % 4 == 0
  {
    if |rs| == 0 then Totals(0.0, 0.0, 0.0, 0.0, 0.0, 0.0, 0.0, 0.0)
    else AddQuad(RunningTotals(rs[..|rs| - 4]), rs[|rs| - 4..])
  }

  /** The sum of coordinate useY of corner k. */
  function TotalOf(t: Totals, k: int, useY: bool): real
    requires 0 <= k < 4
  {
    if k == 0 then (if useY then t.aY else t.aX)
    else if k == 1 then (if useY then t.bY else t.bX)
    else if k == 2 then (if useY then t.cY else t.cX)
    else (if useY then t.dY else t.dX)
  }

  /** Each running sum is the sum of that corner's coordinates. */
  lemma {:induction false} TotalsAreSums(rs: seq<Point>, k: int, useY: bool)
    requires 0 <= k < 4 && |rs| % 4 == 0
    ensures TotalOf(RunningTotals(rs), k, useY) == Sum(CornerCoords(rs, k, useY))
  {
    if |rs| > 0 {
      var p := rs[..|rs| - 4];
      TotalsAreSums(p, k, useY);
      SumAppend(CornerCoords(p, k, useY), Coord(rs[|rs| - 4 + k], useY));
    }
  }

  /** Proof helper: avgRect's expression sum / size * 4 is the mean over size / 4 groups. */
  lemma QuarterCount(sum: real, n: real)
    requires n > 0.0
    ensures sum / (4.0 * n) * 4.0 == sum / n
  {
  }

  lemma AvgExpressionIsMean(rs: seq<Point>, k: int, useY: bool)
    requires 0 <= k < 4 && |rs| % 4 == 0 && |rs| > 0
    ensures Sum(CornerCoords(rs, k, useY)) / |rs| as real * 4.0 == Mean(CornerCoords(rs, k, useY)).value
  {
    var groups := |rs| / 4;
    assert |rs| as real == 4.0 * groups as real;
    QuarterCount(Sum(CornerCoords(rs, k, useY)), groups as real);
  }

  /** avgRect's output point for corner k, computed from the running sums, is that
      corner of the average quad. */
  lemma AvgCorner(rs: seq<Point>, t: Totals, k: int, q: Point)
    requires |rs| % 4 == 0 && |rs| > 0 && t == RunningTotals(rs) && 0 <= k < 4
    requires q.x == TotalOf(t, k, false) / |rs| as real * 4.0
    requires q.y == TotalOf(t, k, true) / |rs| as real * 4.0
    ensures AvgQuad(rs)[k] == q
  {
    AvgCoord(rs, t, k, false);
    AvgCoord(rs, t, k, true);
  }

  lemma AvgCoord(rs: seq<Point>, t: Totals, k: int, useY: bool)
    requires |rs| % 4 == 0 && |rs| > 0 && t == RunningTotals(rs) && 0 <= k < 4
    ensures Coord(AvgQuad(rs)[k], useY) == TotalOf(t, k, useY) / |rs| as real * 4.0
  {
    var cs := CornerCoords(rs, k, useY);
    assert Coord(AvgQuad(rs)[k], useY) == Mean(cs).value;
    TotalsAreSums(rs, k, useY);
    AvgExpressionIsMean(rs, k, useY);
  }

  class Markers {
    const imageWidth: int
    const boardWidth: real
    const boardHeight: real
    const boardOffset: real
    /** markerboard_height / markerboard_width. */
    const ratio: real
    /** Number of recent quads averaged: 25, or 1 without stabilisation. */
    const targetFrames: nat
    /** Recent quads, four corners per quad, newest first. */
    var rects: seq<Point>

    ghost predicate Valid()
      reads this
    {
      boardWidth > 0.0 && boardHeight > 0.0 && targetFrames >= 1 &&
      |rects| % 4 == 0 && |rects| <= 4 * targetFrames
    }

    constructor (width: int, boardW: real, boardH: real, offset: real, stabilizeMarkers: bool := true)
      requires boardW > 0.0 && boardH > 0.0
      ensures Valid()
      ensures imageWidth == width && boardWidth == boardW && boardHeight == boardH && boardOffset == offset
      ensures ratio * boardWidth == boardHeight
      ensures targetFrames == if stabilizeMarkers then 25 else 1
      ensures rects == []
    {
      imageWidth := width;
      boardWidth := boardW;
      boardHeight := boardH;
      ratio := boardH / boardW;
      boardOffset := offset;
      targetFrames := if stabilizeMarkers then 25 else 1;
      rects := [];
    }

    /** The copy made when a Markers is passed by value. */
    constructor Copy(other: Markers)
      requires other.Valid()
      ensures Valid()
      ensures imageWidth == other.imageWidth && boardWidth == other.boardWidth
      ensures boardHeight == other.boardHeight && boardOffset == other.boardOffset
      ensures ratio == other.ratio && targetFrames == other.targetFrames && rects == other.rects
    {
      imageWidth := other.imageWidth;
      boardWidth := other.boardWidth;
      boardHeight := other.boardHeight;
      boardOffset := other.boardOffset;
      ratio := other.ratio;
      targetFrames := other.targetFrames;
      rects := other.rects;
    }

    /** storeRect: the quad a, b, c, d inserted at the front, the window trimmed to
        targetFrames quads. */
    method StoreRect(a: Point, b: Point, c: Point, d: Point)
      requires Valid()
      modifies this`rects
      ensures Valid()
      ensures rects == Truncated([a, b, c, d] + old(rects), 4 * targetFrames)
    {
      rects := [d] + rects;
      rects := [c] + rects;
      rects := [b] + rects;
      rects := [a] + rects;
      assert rects == [a, b, c, d] + old(rects);
      rects := DropTail(rects, 4 * targetFrames);
    }

    /** The accumulation loop of avgRect: per-corner sums of x and of y over the
        stored quads. */
    static method SumCorners(rs: seq<Point>) returns (aX: real, bX: real, cX: real, dX: real,
                                                      aY: real, bY: real, cY: real, dY: real)
      requires |rs| % 4 == 0
      ensures Totals(aX, bX, cX, dX, aY, bY, cY, dY) == RunningTotals(rs)
    {
      aX, bX, cX, dX, aY, bY, cY, dY := 0.0, 0.0, 0.0, 0.0, 0.0, 0.0, 0.0, 0.0;
      ghost var groups := |rs| / 4;
      assert |rs| == 4 * groups;
      var i := 0;
      ghost var g := 0;
      while i < |rs|
        invariant 0 <= g <= groups && i == 4 * g
        invariant Totals(aX, bX, cX, dX, aY, bY, cY, dY) == RunningTotals(rs[..i])
      {
        assert rs[..i + 4][..i] == rs[..i] && rs[..i + 4][i..] == rs[i..i + 4];
        aX := aX + rs[i + 0].x;
        bX := bX + rs[i + 1].x;
        cX := cX + rs[i + 2].x;
        dX := dX + rs[i + 3].x;
        aY := aY + rs[i + 0].y;
        bY := bY + rs[i + 1].y;
        cY := cY + rs[i + 2].y;
        dY := dY + rs[i + 3].y;
        i := i + 4;
        g := g + 1;
      }
      assert rs[..i] == rs;
    }

    /** avgRect: each corner of r set to that corner averaged over the stored quads
        (sum / size * 4 is the sum over size / 4 quads). */
    method AvgRect(r: array<Point>)
      requires Valid() && |rects| > 0 && r.Length == 4
      modifies r
      ensures r[..] == AvgQuad(rects)
    {
      var aX, bX, cX, dX, aY, bY, cY, dY := SumCorners(rects);
      var n := |rects| as real;
      r[0] := Point(aX / n * 4.0, aY / n * 4.0);
      r[1] := Point(bX / n * 4.0, bY / n * 4.0);
      r[2] := Point(cX / n * 4.0, cY / n * 4.0);
      r[3] := Point(dX / n * 4.0, dY / n * 4.0);
      var t := Totals(aX, bX, cX, dX, aY, bY, cY, dY);
      AvgCorner(rects, t, 0, r[0]);
      AvgCorner(rects, t, 1, r[1]);
      AvgCorner(rects, t, 2, r[2]);
      AvgCorner(rects, t, 3, r[3]);
    }

    /** getPerspective without the warp: the quad mapped onto the destination quad, the
        output's size (W, W * ratio) and the crop of that output. */
    function Perspective(src: seq<Point>): (p: Projection)
      requires boardWidth > 0.0 && boardHeight > 0.0
      ensures p.src == src && p.dst == DestQuad(imageWidth, ratio)
      ensures p.cols == imageWidth && p.rows == Trunc(imageWidth as real * ratio)
      ensures p.crop == CropRoi(p.cols, p.rows, boardWidth, boardHeight, boardOffset)
    {
      ProjectionFor(src, imageWidth, ratio, boardWidth, boardHeight, boardOffset)
    }

    /** The markers[ids[i]] = corners[i][0] loop over a default-initialised quad. */
    static method AssignQuad(ids: seq<int>, corners: seq<Point>, m: array<Point>)
      requires |corners| == |ids| && m.Length == 4
      requires forall i :: 0 <= i < |ids| ==> 0 <= ids[i] < 4
      requires forall k :: 0 <= k < 4 ==> m[k] == Point(0.0, 0.0)
      modifies m
      ensures m[..] == Quad(ids, corners)
    {
      var i := 0;
      while i < |ids|
        invariant 0 <= i <= |ids|
        invariant forall k :: 0 <= k < 4 ==> m[k] == QuadSlot(ids[..i], corners[..i], k)
      {
        assert ids[..i + 1][..i] == ids[..i] && corners[..i + 1][..i] == corners[..i];
        m[ids[i]] := corners[i];
        i := i + 1;
      }
      assert ids[..i] == ids && corners[..i] == corners;
    }

    /** getArucoOrientedImage, from the detections on: with neither drawing nor projection
        requested nothing is detected and the result is OK; otherwise the detections are
        classified, and an accepted quad is stored, averaged and (if requested) projected.
        Marker ids index a four-slot array, so they must lie in 0..3. */
    method GetArucoOrientedImage(ids: seq<int>, corners: seq<Point>, drawMarkers: bool, doProjection: bool)
      returns (status: Status, proj: Option<Projection>)
      requires Valid()
      requires |corners| == |ids| && forall i :: 0 <= i < |ids| ==> 0 <= ids[i] < 4
      modifies this`rects
      ensures Valid()
      ensures status == if doProjection || drawMarkers then DetectionStatus(ids) else Ok
      ensures (doProjection || drawMarkers) && status == Ok ==>
        rects == Truncated(Quad(ids, corners) + old(rects), 4 * targetFrames)
      ensures !(doProjection || drawMarkers) || status != Ok ==> rects == old(rects)
      ensures proj.Some? <==> doProjection && status == Ok
      ensures proj.Some? ==> |rects| > 0 && proj.value == Perspective(AvgQuad(rects))
    {
      status, proj := Ok, None;
      if doProjection || drawMarkers {
        if |ids| > 0 {
          var m := new Point[4](_ => Point(0.0, 0.0));
          AssignQuad(ids, corners, m);
          if |ids| == 4 && AllBoardMarkers(ids) {
            StoreRect(m[0], m[1], m[2], m[3]);
            assert [m[0], m[1], m[2], m[3]] == Quad(ids, corners);
            AvgRect(m);
            if doProjection {
              proj := Some(Perspective(m[..]));
            }
          } else {
            status := if |ids| <= 4 then OrientTooFewMarkersErr else OrientTooManyMarkersErr;
          }
        } else {
          status := OrientNoMarkersErr;
        }
      }
    }
  }

  /** storeRect's window: the new quad first, then the old quads in order, whole quads
      only, at most `frames` of them. */
  lemma StoredQuadsShape(w: seq<Point>, q: seq<Point>, frames: nat)
    requires |q| == 4 && frames >= 1 && |w| % 4 == 0
    ensures var r := Truncated(q + w, 4 * frames);
      && r[..4] == q && r[4..] == Truncated(w, 4 * frames - 4)
      && |r| % 4 == 0 && |r| <= 4 * frames
  {
    var r := Truncated(q + w, 4 * frames);
    assert r[4..] == w[..|r| - 4];
  }
}
