/** The numeric conversions of C++ and OpenCV that the model needs written out:
    float-to-int truncation, cvRound, and integer division truncating toward zero. */
module Numeric {

  function Abs(r: real): (a: real)
    ensures a >= 0.0 && (a == r || a == -r)
  {
    if r < 0.0 then -r else r
  }

  function Max(a: int, b: int): (m: int)
    ensures m >= a && m >= b && (m == a || m == b)
  {
    if a >= b then a else b
  }

  function Min(a: int, b: int): (m: int)
    ensures m <= a && m <= b && (m == a || m == b)
  {
    if a <= b then a else b
  }

  /** The implicit conversion of a float to int in C++: truncation toward zero. */
  function Trunc(r: real): (t: int)
    ensures r >= 0.0 ==> t >= 0 && t as real <= r < t as real + 1.0
    ensures r < 0.0 ==> t <= 0 && t as real - 1.0 < r <= t as real
  {
    if r >= 0.0 then r.Floor else -((-r).Floor)
  }

  /** cvRound, used when a Point2f becomes a Point: nearest integer, ties to even. */
  function Round(r: real): (t: int)
    ensures t as real - 0.5 <= r <= t as real + 0.5
    ensures (r == t as real - 0.5 || r == t as real + 0.5) ==> t % 2 == 0
  {
    var f := r.Floor;
    var frac := r - f as real;
    if frac < 0.5 then f
    else if frac > 0.5 then f + 1
    else if f % 2 == 0 then f
    else f + 1
  }

  /** C++ `a / b` on int: the quotient truncated toward zero. */
  function CDiv(a: int, b: int): (q: int)
    requires b != 0
    ensures a >= 0 && b > 0 ==> 0 <= a - b * q < b
    ensures a < 0 && b > 0 ==> -b < a - b * q <= 0
    ensures a >= 0 && b < 0 ==> 0 <= a - b * q < -b
    ensures a < 0 && b < 0 ==> b < a - b * q <= 0
  {
    if a >= 0 then (if b > 0 then a / b else -(a / -b))
    else (if b > 0 then -((-a) / b) else (-a) / (-b))
  }

  lemma RoundOfInt(n: int)
    ensures Round(n as real) == n
  {
  }
}
