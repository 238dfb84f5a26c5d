/** Grid: a rows x cols grid of cells laid out on the stitched canvas, a selected cell,
    the windows of recent alignment samples, and the canvas growth that keeps the grid's
    region of interest inside the image.  Lengths are in whole pixels: the source's
    inch sizes times pixels-per-inch (cell_project_width * cols_per_inch, ...) are taken
    as integers, so cvRound only matters for getCell's half-pixel margin. */
module Grid {
  import opened Wrappers
  import opened Numeric
  import opened Geometry
  import opened Raster
  import opened Window
  import Text

  /** A cell's top-left corner before the grid offset is added. */
  datatype Cell = Cell(x: int, y: int)

  /** Row r of the layout: cells step right by a projected cell width, and the row sits
      r projected cell heights above the first. */
  function RowCells(r: int, cols: nat, projW: int, projH: int): (row: seq<Cell>)
    ensures |row| == cols
  {
    seq(cols, c => Cell(c * projW, -r * projH))
  }

  /** The first `rows` rows, in row-major order. */
  function Layout(rows: nat, cols: nat, projW: int, projH: int): seq<Cell>
  {
    if rows == 0 then [] else Layout(rows - 1, cols, projW, projH) + RowCells(rows - 1, cols, projW, projH)
  }

  /** The name of cell k: "G1", "G2", ... */
  function CellName(k: nat): string
  {
    "G" + Text.NatToString(k + 1)
  }

  lemma {:induction false} LayoutLength(rows: nat, cols: nat, projW: int, projH: int)
    ensures |Layout(rows, cols, projW, projH)| == rows * cols
  {
    if rows > 0 {
      LayoutLength(rows - 1, cols, projW, projH);
    }
  }

  /** Cell r * cols + c of the layout is the one in row r and column c. */
  lemma {:induction false} LayoutAt(rows: nat, cols: nat, projW: int, projH: int, r: int, c: int)
    requires 0 <= r < rows && 0 <= c < cols
    ensures |Layout(rows, cols, projW, projH)| == rows * cols
    ensures Layout(rows, cols, projW, projH)[r * cols + c] == Cell(c * projW, -r * projH)
  {
    LayoutLength(rows, cols, projW, projH);
    LayoutLength(rows - 1, cols, projW, projH);
    if r < rows - 1 {
      LayoutAt(rows - 1, cols, projW, projH, r, c);
      MulMonotone(r + 1, rows - 1, cols);
    } else {
      assert r * cols + c == (rows - 1) * cols + c;
    }
  }

  /** Proof helper: one arithmetic step Z3 does not take on its own. */
  lemma MulMonotone(a: int, b: int, k: int)
    requires a <= b && k >= 0
    ensures a * k <= b * k
  {
  }

  lemma IndexBelowSize(r: int, c: int, rows: int, cols: int)
    requires 0 <= r < rows && 0 <= c < cols
    ensures r * cols + c < rows * cols
  {
    MulMonotone(r + 1, rows, cols);
  }

  /** A rows x cols zero canvas with img copied in at (top, left). */
  method Placed(img: array2<Pixel>, rows: int, cols: int, top: int, left: int) returns (buf: array2<Pixel>)
    requires 0 <= top && top + img.Length0 <= rows
    requires 0 <= left && left + img.Length1 <= cols
    ensures fresh(buf) && buf.Length0 == rows && buf.Length1 == cols
    ensures forall i, j :: 0 <= i < rows && 0 <= j < cols ==>
      buf[i, j] == if InRect(i, j, top, left, img.Length0, img.Length1) then img[i - top, j - left] else Zeros
  {
    buf := Filled(rows, cols, Zeros);
    CopyInto(img, buf, top, left);
  }

  /** The second half of handleGridChange: if roi runs past the right or bottom edge of
      cur, a zero canvas just large enough for both, with cur at its top-left corner.
      When cur holds orig shifted by (sy, sx), so does the result. */
  method Extended(cur: array2<Pixel>, roi: Rect, ghost orig: array2<Pixel>, ghost sy: int, ghost sx: int)
    returns (out: array2<Pixel>)
    requires 0 <= roi.x && 0 <= roi.y && 0 <= roi.width && 0 <= roi.height
    requires 0 <= sy && 0 <= sx
    requires cur.Length0 == orig.Length0 + sy && cur.Length1 == orig.Length1 + sx
    requires forall i, j :: 0 <= i < cur.Length0 && 0 <= j < cur.Length1 ==>
      cur[i, j] == if InRect(i, j, sy, sx, orig.Length0, orig.Length1) then orig[i - sy, j - sx] else Zeros
    ensures RectInside(roi, out.Length1, out.Length0)
    ensures out.Length0 == Max(cur.Length0, roi.y + roi.height)
    ensures out.Length1 == Max(cur.Length1, roi.x + roi.width)
    ensures forall i, j :: 0 <= i < out.Length0 && 0 <= j < out.Length1 ==>
      out[i, j] == if InRect(i, j, sy, sx, orig.Length0, orig.Length1) then orig[i - sy, j - sx] else Zeros
    ensures RectInside(roi, cur.Length1, cur.Length0) ==> out == cur
    ensures out == cur || fresh(out)
  {
    out := cur;
    if roi.x + roi.width > cur.Length1 || roi.y + roi.height > cur.Length0 {
      var w := Max(roi.x + roi.width, cur.Length1);
      var h := Max(roi.y + roi.height, cur.Length0);
      out := Placed(cur, h, w, 0, 0);
      forall i, j | 0 <= i < h && 0 <= j < w
        ensures out[i, j] == if InRect(i, j, sy, sx, orig.Length0, orig.Length1) then orig[i - sy, j - sx] else Zeros
      {
        if !InRect(i, j, 0, 0, cur.Length0, cur.Length1) {
          assert !InRect(i, j, sy, sx, orig.Length0, orig.Length1);
        }
      }
    }
  }

  /** `inner` lies within `outer`. */
  predicate Contains(outer: Rect, inner: Rect)
  {
    outer.x <= inner.x && inner.x + inner.width <= outer.x + outer.width &&
    outer.y <= inner.y && inner.y + inner.height <= outer.y + outer.height
  }

  /** next: one step forward, wrapping past the last cell.  The comparison with
      cells.size() is unsigned, so a negative index also wraps to 0. */
  function NextIndex(s: int, n: int): int
  {
    if s + 1 < 0 || s + 1 >= n then 0 else s + 1
  }

  /** prev: one step back, wrapping below 0 to the last cell. */
  function PrevIndex(s: int, n: int): int
  {
    if s - 1 < 0 then n - 1 else s - 1
  }

  /** Both steps keep a valid selection valid. */
  lemma SelectionStaysInRange(s: int, n: int)
    requires 0 <= s < n
    ensures 0 <= NextIndex(s, n) < n && 0 <= PrevIndex(s, n) < n
  {
  }

  /** prev undoes next and next undoes prev. */
  lemma PrevUndoesNext(s: int, n: int)
    requires 0 <= s < n
    ensures PrevIndex(NextIndex(s, n), n) == s
    ensures NextIndex(PrevIndex(s, n), n) == s
  {
  }

  /** The index reached after k steps of next. */
  function NextSteps(s: int, n: int, k: nat): int
  {
    if k == 0 then s else NextIndex(NextSteps(s, n, k - 1), n)
  }

  lemma {:induction false} NextStepsFromZero(n: int, k: nat)
    requires 0 < n && k <= n
    ensures NextSteps(0, n, k) == if k == n then 0 else k
  {
    if k > 0 {
      NextStepsFromZero(n, k - 1);
    }
  }

  /** Pressing next once per cell brings the selection back to the first cell. */
  lemma NextCyclesThroughAllCells(n: int)
    requires n > 0
    ensures NextSteps(0, n, n) == 0
    ensures forall k :: 0 < k < n ==> NextSteps(0, n, k) == k
  {
    NextStepsFromZero(n, n);
    forall k | 0 < k < n ensures NextSteps(0, n, k) == k {
      NextStepsFromZero(n, k);
    }
  }

  /** Entry k of the six affine entries of a matrix, row-major: (0,0), (0,1), (0,2),
      (1,0), (1,1), (1,2). */
  function Entry(m: Mat3, k: int): real
    requires 0 <= k < 6
  {
    if k == 0 then m.m00 else if k == 1 then m.m01 else if k == 2 then m.m02
    else if k == 3 then m.m10 else if k == 4 then m.m11 else m.m12
  }

  /** Entry k of every stored matrix, in window order. */
  function Entries(ws: seq<Mat3>, k: int): (es: seq<real>)
    requires 0 <= k < 6
    ensures |es| == |ws|
  {
    seq(|ws|, i requires 0 <= i < |ws| => Entry(ws[i], k))
  }

  /** A window holding one matrix throughout averages to that matrix's entries. */
  lemma ConstantWarpsAverage(ws: seq<Mat3>, w: Mat3, k: int)
    requires 0 <= k < 6 && |ws| > 0
    requires forall i :: 0 <= i < |ws| ==> ws[i] == w
    ensures Mean(Entries(ws, k)) == Some(Entry(w, k))
  {
    assert Entries(ws, k) == seq(|ws|, _ => Entry(w, k));
    ConstantMean(Entry(w, k), |ws|);
  }

  class Grid {
    /** The layout, the names and the sizes are set by the constructor and never change
        afterwards. */
    const cells: seq<Cell>
    const names: seq<string>
    const cols: int
    const rows: int
    /** cell_width * cols_per_inch and cell_height * rows_per_inch. */
    const cellW: int
    const cellH: int
    /** cell_project_width * cols_per_inch and cell_project_height * rows_per_inch. */
    const projW: int
    const projH: int
    var selected: int
    /** Offset of the grid within the canvas. */
    var gx: int
    var gy: int
    var warps: seq<Mat3>
    /** Cap of every window. */
    const MAX: nat := 10
    /** Recent translations, angles and scales, newest first. */
    var ax: seq<real>
    var ay: seq<real>
    var ar: seq<real>
    var aScale: seq<real>

    /** The cells are laid out row by row and named in order.  Everything here is
        constant, so the constructor establishes it once and for all. */
    ghost predicate LaidOut()
    {
      && 0 <= cols && 0 <= rows
      && cells == Layout(rows, cols, projW, projH)
      && names == seq(|cells|, k requires 0 <= k => CellName(k))
    }

    ghost predicate Valid()
      reads this
    {
      && 0 <= cols && 0 <= rows
      && 0 <= cellW && 0 <= cellH && 0 <= projW && 0 <= projH
      && (|cells| > 0 ==> 0 <= selected < |cells|)
      && |warps| <= MAX
      && |ax| <= MAX && |ay| <= MAX && |ar| <= MAX && |aScale| <= MAX
    }

    constructor (gridCols: int, gridRows: int, cellWidth: int, cellHeight: int,
                 projectWidth: int, projectHeight: int)
      requires 0 <= gridCols && 0 <= gridRows
      requires 0 <= cellWidth && 0 <= cellHeight && 0 <= projectWidth && 0 <= projectHeight
      ensures Valid() && LaidOut()
      ensures cols == gridCols && rows == gridRows
      ensures cellW == cellWidth && cellH == cellHeight && projW == projectWidth && projH == projectHeight
      ensures |cells| == gridRows * gridCols
      ensures selected == 0 && gx == 0 && gy == 0
      ensures warps == [] && ax == [] && ay == [] && ar == [] && aScale == []
    {
      var cs: seq<Cell> := [];
      var ns: seq<string> := [];
      var n := 1;
      var r := 0;
      while r < gridRows
        invariant 0 <= r <= gridRows
        invariant cs == Layout(r, gridCols, projectWidth, projectHeight)
        invariant ns == seq(|cs|, k requires 0 <= k => CellName(k)) && n == |cs| + 1
      {
        var c := 0;
        while c < gridCols
          invariant 0 <= c <= gridCols
          invariant cs == Layout(r, gridCols, projectWidth, projectHeight)
                          + RowCells(r, gridCols, projectWidth, projectHeight)[..c]
          invariant ns == seq(|cs|, k requires 0 <= k => CellName(k)) && n == |cs| + 1
        {
          cs := cs + [Cell(c * projectWidth, -r * projectHeight)];
          ns := ns + ["G" + Text.NatToString(n)];
          n := n + 1;
          c := c + 1;
        }
        assert RowCells(r, gridCols, projectWidth, projectHeight)[..gridCols]
            == RowCells(r, gridCols, projectWidth, projectHeight);
        r := r + 1;
      }
      LayoutLength(gridRows, gridCols, projectWidth, projectHeight);
      cells, names := cs, ns;
      selected := 0;
      cols, rows := gridCols, gridRows;
      gx, gy := 0, 0;
      cellW, cellH, projW, projH := cellWidth, cellHeight, projectWidth, projectHeight;
      warps := [];
      ax, ay, ar, aScale := [], [], [], [];
    }

    /** getCell: the cell's corner shifted by the grid offset and moved up-left by half the
        margin between the cell and its projected part. */
    function GetCell(c: int): Point
      reads this
      requires 0 <= c < |cells|
    {
      Point((cells[c].x + gx) as real - (cellW - projW) as real / 2.0,
            (cells[c].y + gy) as real - (cellH - projH) as real / 2.0)
    }

    /** getRoiProject: the projected part of cell c, at the cell's corner plus the offset. */
    function GetRoiProject(c: int): (roi: Rect)
      reads this
      requires 0 <= c < |cells|
      ensures roi.width == projW && roi.height == projH
      ensures roi.x - gx == cells[c].x && roi.y - gy == cells[c].y
    {
      Rect(cells[c].x + gx, cells[c].y + gy, projW, projH)
    }

    /** getRoi: the full cell, placed with cvRound.  Its centre is within half a pixel of
        the centre of the projected part, on each axis. */
    function GetRoi(c: int): (roi: Rect)
      reads this
      requires 0 <= c < |cells|
      ensures roi.width == cellW && roi.height == cellH
      ensures -1 <= (2 * roi.x + roi.width) - (2 * GetRoiProject(c).x + projW) <= 1
      ensures -1 <= (2 * roi.y + roi.height) - (2 * GetRoiProject(c).y + projH) <= 1
    {
      var p := GetCell(c);
      Rect(Round(p.x), Round(p.y), cellW, cellH)
    }

    /** getGridRoi: from the bottom-left cell's offset, rows - 1 projected heights up, and
        cols x rows projected cells in size. */
    function GetGridRoi(): (roi: Rect)
      reads this
    {
      Rect(gx, gy - (rows - 1) * projH, cols * projW, rows * projH)
    }

    /** Every projected cell lies within the grid's region of interest. */
    lemma ProjectedCellInGridRoi(r: int, c: int)
      requires Valid() && LaidOut() && 0 <= r < rows && 0 <= c < cols
      ensures r * cols + c < |cells|
      ensures Contains(GetGridRoi(), GetRoiProject(r * cols + c))
    {
      LayoutAt(rows, cols, projW, projH, r, c);
      var k := r * cols + c;
      assert cells[k] == Cell(c * projW, -r * projH);
      IndexBelowSize(r, c, rows, cols);
      MulMonotone(0, c, projW);
      MulMonotone(c + 1, cols, projW);
      MulMonotone(r, rows - 1, projH);
      MulMonotone(0, r, projH);
      assert (c + 1) * projW == c * projW + projW;
      assert -r * projH == -(r * projH);
    }

    method Next()
      requires Valid()
      modifies this`selected
      ensures Valid()
      ensures selected == NextIndex(old(selected), |cells|)
    {
      selected := selected + 1;
      if selected < 0 || selected >= |cells| {
        selected := 0;
      }
    }

    method Prev()
      requires Valid()
      modifies this`selected
      ensures Valid()
      ensures selected == PrevIndex(old(selected), |cells|)
    {
      selected := selected - 1;
      if selected < 0 {
        selected := |cells| - 1;
      }
    }

    /** logStats: the translation, angle and scale of aH pushed at the front of their
        windows, each trimmed to MAX.  `angle` is getAngle(aH), `scale` getScale(aH). */
    method LogStats(aH: Mat3, angle: real, scale: real)
      requires Valid() && IsScaleOf(scale, aH.m00, aH.m01)
      modifies this`ax, this`ay, this`ar, this`aScale
      ensures Valid()
      ensures ax == Pushed(old(ax), aH.m02, MAX) && ay == Pushed(old(ay), aH.m12, MAX)
      ensures ar == Pushed(old(ar), angle, MAX) && aScale == Pushed(old(aScale), scale, MAX)
    {
      ax := [aH.m02] + ax;
      ay := [aH.m12] + ay;
      ar := [angle] + ar;
      aScale := [scale] + aScale;
      ax := DropTail(ax, MAX);
      ay := DropTail(ay, MAX);
      ar := DropTail(ar, MAX);
      aScale := DropTail(aScale, MAX);
    }

    /** store: log the sample and push the matrix itself.  undoScale2 receives a copy of
        the matrix, so what is stored is the argument, scale and all. */
    method Store(warp: Mat3, angle: real, scale: real)
      requires Valid() && IsScaleOf(scale, warp.m00, warp.m01)
      modifies this`ax, this`ay, this`ar, this`aScale, this`warps
      ensures Valid()
      ensures ax == Pushed(old(ax), warp.m02, MAX) && ay == Pushed(old(ay), warp.m12, MAX)
      ensures ar == Pushed(old(ar), angle, MAX) && aScale == Pushed(old(aScale), scale, MAX)
      ensures warps == Pushed(old(warps), warp, MAX)
    {
      LogStats(warp, angle, scale);
      warps := [warp] + warps;
      warps := DropTail(warps, MAX);
    }

    /** avgWarp: each affine entry averaged over the window, bottom row (0, 0, 1).  An
        empty window divides 0 by 0 and has no average. */
    method AvgWarp() returns (a: Option<Mat3>)
      ensures a.None? <==> |warps| == 0
      ensures a.Some? ==> forall k :: 0 <= k < 6 ==> Some(Entry(a.value, k)) == Mean(Entries(warps, k))
      ensures a.Some? ==> a.value.m20 == 0.0 && a.value.m21 == 0.0 && a.value.m22 == 1.0
    {
      var s00, s01, s02, s10, s11, s12 := 0.0, 0.0, 0.0, 0.0, 0.0, 0.0;
      var count := |warps|;
      var i := 0;
      while i < count
        invariant 0 <= i <= count
        invariant s00 == Sum(Entries(warps[..i], 0)) && s01 == Sum(Entries(warps[..i], 1))
        invariant s02 == Sum(Entries(warps[..i], 2)) && s10 == Sum(Entries(warps[..i], 3))
        invariant s11 == Sum(Entries(warps[..i], 4)) && s12 == Sum(Entries(warps[..i], 5))
      {
        forall k | 0 <= k < 6
          ensures Entries(warps[..i + 1], k)[..i] == Entries(warps[..i], k)
        {
        }
        s00 := s00 + warps[i].m00;
        s01 := s01 + warps[i].m01;
        s02 := s02 + warps[i].m02;
        s10 := s10 + warps[i].m10;
        s11 := s11 + warps[i].m11;
        s12 := s12 + warps[i].m12;
        i := i + 1;
      }
      assert warps[..count] == warps;
      if count == 0 {
        a := None;
      } else {
        var n := count as real;
        a := Some(Mat3(s00 / n, s01 / n, s02 / n, s10 / n, s11 / n, s12 / n, 0.0, 0.0, 1.0));
      }
    }

    /** The grid's region of interest never has a negative size. */
    lemma GridRoiSize()
      requires Valid()
      ensures GetGridRoi().width >= 0 && GetGridRoi().height >= 0
    {
      MulMonotone(0, cols, projW);
      MulMonotone(0, rows, projH);
    }

    /** The first half of handleGridChange: if the grid's region of interest starts left
        of or above the canvas, grow the canvas on that side by the overhang, shift the
        content, and move the grid offset by the same amounts. */
    method GrowTopLeft(img: array2<Pixel>) returns (cur: array2<Pixel>, dy: int, dx: int)
      requires Valid()
      modifies this`gx, this`gy
      ensures Valid()
      ensures dx == (if old(GetGridRoi()).x < 0 then -old(GetGridRoi()).x else 0)
      ensures dy == (if old(GetGridRoi()).y < 0 then -old(GetGridRoi()).y else 0)
      ensures gx == old(gx) + dx && gy == old(gy) + dy
      ensures GetGridRoi().x >= 0 && GetGridRoi().y >= 0
      ensures cur.Length0 == img.Length0 + dy && cur.Length1 == img.Length1 + dx
      ensures forall i, j :: 0 <= i < cur.Length0 && 0 <= j < cur.Length1 ==>
        cur[i, j] == if InRect(i, j, dy, dx, img.Length0, img.Length1) then img[i - dy, j - dx] else Zeros
      ensures dx == 0 && dy == 0 ==> cur == img
      ensures cur == img || fresh(cur)
    {
      var roi := GetGridRoi();
      cur, dx, dy := img, 0, 0;
      if roi.x < 0 || roi.y < 0 {
        dx := if roi.x < 0 then -roi.x else 0;
        dy := if roi.y < 0 then -roi.y else 0;
        cur := Placed(img, img.Length0 + dy, img.Length1 + dx, dy, dx);
        gx := gx + dx;
        gy := gy + dy;
      }
    }

    /** handleGridChange: grow the canvas left and up as GrowTopLeft does, then, if the
        grid's region of interest runs past the right or bottom edge, extend the canvas
        there.  New pixels are zero and the old content keeps its place relative to the
        grid. */
    method HandleGridChange(img: array2<Pixel>) returns (out: array2<Pixel>)
      requires Valid()
      modifies this`gx, this`gy
      ensures Valid()
      ensures gx == old(gx) + (if old(GetGridRoi()).x < 0 then -old(GetGridRoi()).x else 0)
      ensures gy == old(gy) + (if old(GetGridRoi()).y < 0 then -old(GetGridRoi()).y else 0)
      ensures RectInside(GetGridRoi(), out.Length1, out.Length0)
      ensures out.Length0 == Max(img.Length0 + (gy - old(gy)), GetGridRoi().y + GetGridRoi().height)
      ensures out.Length1 == Max(img.Length1 + (gx - old(gx)), GetGridRoi().x + GetGridRoi().width)
      ensures forall i, j :: 0 <= i < out.Length0 && 0 <= j < out.Length1 ==>
        out[i, j] == if InRect(i, j, gy - old(gy), gx - old(gx), img.Length0, img.Length1)
                     then img[i - (gy - old(gy)), j - (gx - old(gx))] else Zeros
      ensures RectInside(old(GetGridRoi()), img.Length1, img.Length0) ==> out == img && gx == old(gx) && gy == old(gy)
      ensures out == img || fresh(out)
    {
      var cur, dy, dx := GrowTopLeft(img);
      GridRoiSize();
      out := Extended(cur, GetGridRoi(), img, dy, dx);
    }
  }
}
