/** OpenCV's small value types as the model uses them, and the scale algebra of
    util.cpp's getScale, which the model does not compute (it takes a square root)
    but states as a relation between a scale and the matrix entries it comes from. */
module Geometry {

  /** cv::Point2f. */
  datatype Point = Point(x: real, y: real)

  /** cv::Rect: integer top-left corner and size. */
  datatype Rect = Rect(x: int, y: int, width: int, height: int)

  /** cv::Matx33f, row-major; a value, copied when passed. */
  datatype Mat3 = Mat3(m00: real, m01: real, m02: real,
                       m10: real, m11: real, m12: real,
                       m20: real, m21: real, m22: real)

  /** `s` is getScale of a matrix whose first row starts with a, b:
      s = sqrt(a^2 + b^2), stated without the square root. */
  ghost predicate IsScaleOf(s: real, a: real, b: real)
  {
    s >= 0.0 && s * s == a * a + b * b
  }

  /** The rectangle r lies inside an image of `rows` x `cols` pixels. */
  predicate RectInside(r: Rect, cols: int, rows: int)
  {
    0 <= r.x && 0 <= r.width && r.x + r.width <= cols &&
    0 <= r.y && 0 <= r.height && r.y + r.height <= rows
  }

  /** The matrix with its four linear entries divided by s and everything else kept:
      what undoScale and undoScale2 write. */
  function Unscaled(h: Mat3, s: real): (u: Mat3)
    requires s != 0.0
    ensures u.m00 * s == h.m00 && u.m01 * s == h.m01
    ensures u.m10 * s == h.m10 && u.m11 * s == h.m11
    ensures u.m02 == h.m02 && u.m12 == h.m12
    ensures u.m20 == h.m20 && u.m21 == h.m21 && u.m22 == h.m22
  {
    h.(m00 := h.m00 / s, m01 := h.m01 / s, m10 := h.m10 / s, m11 := h.m11 / s)
  }

  /** A rotation-plus-uniform-scale matrix (the partial affine form the matcher estimates):
      second row (-b, a) below the first row (a, b). */
  ghost predicate IsSimilarity(h: Mat3)
  {
    h.m10 == -h.m01 && h.m11 == h.m00
  }

  /** Proof helper: dividing commutes with negation. */
  lemma NegateQuotient(x: real, s: real)
    requires s != 0.0
    ensures (-x) / s == -(x / s)
  {
  }

  /** Dividing out the scale keeps the similarity shape and the translation column. */
  lemma UnscaledKeepsSimilarity(h: Mat3, s: real)
    requires IsSimilarity(h) && s != 0.0
    ensures IsSimilarity(Unscaled(h, s))
    ensures Unscaled(h, s).m02 == h.m02 && Unscaled(h, s).m12 == h.m12
  {
    NegateQuotient(h.m01, s);
  }

  /** Dividing a matrix by its own non-zero scale leaves a matrix of scale 1. */
  lemma UnscaledHasUnitScale(h: Mat3, s: real)
    requires IsScaleOf(s, h.m00, h.m01) && s != 0.0
    ensures IsScaleOf(1.0, Unscaled(h, s).m00, Unscaled(h, s).m01)
  {
  }
}
