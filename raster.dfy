/** Images as the stitcher and the grid handle them: 2-D arrays of opaque pixels,
    allocated filled with a constant and written by region copies (UMat::copyTo into a
    sub-rectangle, with or without a mask). */
module Raster {

  /** A CV_8UC3 pixel, channels in OpenCV's B, G, R order. */
  datatype Pixel = Pixel(b: int, g: int, r: int)

  /** UMat::ones on a three-channel image sets the first channel only. */
  const Ones := Pixel(1, 0, 0)

  /** UMat::zeros. */
  const Zeros := Pixel(0, 0, 0)

  /** (i, j) lies in the h x w rectangle whose top-left corner is (top, left). */
  predicate InRect(i: int, j: int, top: int, left: int, h: int, w: int)
  {
    top <= i < top + h && left <= j < left + w
  }

  /** A rows x cols image whose every pixel is p. */
  method Filled(rows: nat, cols: nat, p: Pixel) returns (img: array2<Pixel>)
    ensures fresh(img) && img.Length0 == rows && img.Length1 == cols
    ensures forall i, j :: 0 <= i < rows && 0 <= j < cols ==> img[i, j] == p
  {
    img := new Pixel[rows, cols]((i, j) => p);
  }

  /** src.copyTo(dst(Rect(left, top, src.cols, src.rows))): the rectangle is overwritten
      by src, every other pixel of dst is kept. */
  method CopyInto(src: array2<Pixel>, dst: array2<Pixel>, top: int, left: int)
    requires src != dst
    requires 0 <= top && top + src.Length0 <= dst.Length0
    requires 0 <= left && left + src.Length1 <= dst.Length1
    modifies dst
    ensures forall i, j :: 0 <= i < dst.Length0 && 0 <= j < dst.Length1 ==>
      dst[i, j] == if InRect(i, j, top, left, src.Length0, src.Length1)
                   then src[i - top, j - left] else old(dst[i, j])
  {
    var h, w := src.Length0, src.Length1;
    var y := 0;
    while y < h
      invariant 0 <= y <= h
      invariant forall i, j :: 0 <= i < dst.Length0 && 0 <= j < dst.Length1 ==>
        dst[i, j] == if InRect(i, j, top, left, y, w) then src[i - top, j - left] else old(dst[i, j])
    {
      var x := 0;
      while x < w
        invariant 0 <= x <= w
        invariant forall i, j :: 0 <= i < dst.Length0 && 0 <= j < dst.Length1 ==>
          dst[i, j] == if InRect(i, j, top, left, y, w) || (i == top + y && left <= j < left + x)
                       then src[i - top, j - left] else old(dst[i, j])
      {
        dst[top + y, left + x] := src[y, x];
        x := x + 1;
      }
      y := y + 1;
    }
  }

  /** src.copyTo(dst(Rect(left, top, src.cols, src.rows)), mask): inside the rectangle only
      the pixels whose mask entry is set are overwritten. */
  method CopyMasked(src: array2<Pixel>, mask: array2<bool>, dst: array2<Pixel>, top: int, left: int)
    requires src != dst
    requires mask.Length0 == src.Length0 && mask.Length1 == src.Length1
    requires 0 <= top && top + src.Length0 <= dst.Length0
    requires 0 <= left && left + src.Length1 <= dst.Length1
    modifies dst
    ensures forall i, j :: 0 <= i < dst.Length0 && 0 <= j < dst.Length1 ==>
      dst[i, j] == if InRect(i, j, top, left, src.Length0, src.Length1) && mask[i - top, j - left]
                   then src[i - top, j - left] else old(dst[i, j])
  {
    var h, w := src.Length0, src.Length1;
    var y := 0;
    while y < h
      invariant 0 <= y <= h
      invariant forall i, j :: 0 <= i < dst.Length0 && 0 <= j < dst.Length1 ==>
        dst[i, j] == if InRect(i, j, top, left, y, w) && mask[i - top, j - left]
                     then src[i - top, j - left] else old(dst[i, j])
    {
      var x := 0;
      while x < w
        invariant 0 <= x <= w
        invariant forall i, j :: 0 <= i < dst.Length0 && 0 <= j < dst.Length1 ==>
          dst[i, j] == if (InRect(i, j, top, left, y, w) || (i == top + y && left <= j < left + x))
                          && mask[i - top, j - left]
                       then src[i - top, j - left] else old(dst[i, j])
      {
        if mask[y, x] {
          dst[top + y, left + x] := src[y, x];
        }
        x := x + 1;
      }
      y := y + 1;
    }
  }
}
