/** The calibration capture tool: the stability windows it keeps over successive matches,
    their averages, and the names of the frames it saves. */
module Capture {
  import opened Wrappers
  import opened Geometry
  import opened Window
  import opened Text

  /** The three stability windows of the capture tool (x shift, y shift, rotation). */
  class CaptureStats {
    const MAX: nat := 10
    var ax: seq<real>
    var ay: seq<real>
    var ar: seq<real>

    /** The windows are pushed together, so they always have the same length, at most MAX. */
    ghost predicate Valid()
      reads this
    {
      |ax| == |ay| == |ar| <= MAX
    }

    constructor ()
      ensures Valid() && ax == [] && ay == [] && ar == []
    {
      ax, ay, ar := [], [], [];
    }

    /** logStats: aH's translation and angle (getAngle(aH)) at the front of their windows,
        each trimmed back to MAX. */
    method LogStats(aH: Mat3, angle: real)
      requires Valid()
      modifies this`ax, this`ay, this`ar
      ensures Valid()
      ensures ax == Pushed(old(ax), aH.m02, MAX) && ay == Pushed(old(ay), aH.m12, MAX)
      ensures ar == Pushed(old(ar), angle, MAX)
    {
      ax := [aH.m02] + ax;
      ay := [aH.m12] + ay;
      ar := [angle] + ar;
      ax := DropTail(ax, MAX);
      ay := DropTail(ay, MAX);
      ar := DropTail(ar, MAX);
    }

    /** The stability readout: log the match, then the mean and range of each window. */
    method Stability(aH: Mat3, angle: real) returns (mx: Option<real>, rx: real, my: Option<real>, ry: real,
                                                     mr: Option<real>, rr: real)
      requires Valid()
      modifies this`ax, this`ay, this`ar
      ensures Valid()
      ensures ax == Pushed(old(ax), aH.m02, MAX) && ay == Pushed(old(ay), aH.m12, MAX)
      ensures ar == Pushed(old(ar), angle, MAX)
      ensures mx.Some? && my.Some? && mr.Some?
      ensures mx == Mean(ax) && rx == RunMax(ax, AvgMaxInit) - RunMin(ax, AvgMinInit)
      ensures my == Mean(ay) && ry == RunMax(ay, AvgMaxInit) - RunMin(ay, AvgMinInit)
      ensures mr == Mean(ar) && rr == RunMax(ar, AvgMaxInit) - RunMin(ar, AvgMinInit)
      ensures rx >= 0.0 && ry >= 0.0 && rr >= 0.0
    {
      LogStats(aH, angle);
      PushedShape(old(ax), aH.m02, MAX);
      PushedShape(old(ay), aH.m12, MAX);
      PushedShape(old(ar), angle, MAX);
      mx, rx := Avg(ax);
      my, ry := Avg(ay);
      mr, rr := Avg(ar);
      RangeNonNegative(ax, AvgMinInit, AvgMaxInit);
      RangeNonNegative(ay, AvgMinInit, AvgMaxInit);
      RangeNonNegative(ar, AvgMinInit, AvgMaxInit);
    }
  }

  /** The name a capture is saved under: "calib-", the frame width, "-", the sequence
      number zero-padded to three digits, ".jpeg". */
  function CaptureFilename(imageWidth: int, n: nat): string
  {
    "calib-" + IntToString(imageWidth) + "-" + Pad3(n) + ".jpeg"
  }

  /** The sequence number is read back from the name: it sits between the width's "-" and
      the ".jpeg" suffix. */
  lemma CaptureNumberRoundTrip(imageWidth: int, n: nat)
    ensures var f := CaptureFilename(imageWidth, n);
      var start := |"calib-" + IntToString(imageWidth) + "-"|;
      && start + 3 <= |f| - 5 && f[|f| - 5..] == ".jpeg"
      && AllDigits(f[start..|f| - 5]) && ParseDigits(f[start..|f| - 5]) == n
  {
    var f := CaptureFilename(imageWidth, n);
    var prefix := "calib-" + IntToString(imageWidth) + "-";
    Pad3RoundTrip(n);
    assert f == prefix + Pad3(n) + ".jpeg";
    assert f[|prefix|..|f| - 5] == Pad3(n);
  }

  /** Different sequence numbers never overwrite each other's file. */
  lemma CaptureFilenameInjective(imageWidth: int, n: nat, m: nat)
    requires CaptureFilename(imageWidth, n) == CaptureFilename(imageWidth, m)
    ensures n == m
  {
    CaptureNumberRoundTrip(imageWidth, n);
    CaptureNumberRoundTrip(imageWidth, m);
  }

  /** The capture counter: each capture pre-increments it, so the first file is 001. */
  class CaptureSequence {
    var sequence: nat

    constructor ()
      ensures sequence == 0
    {
      sequence := 0;
    }

    method Capture(imageWidth: int) returns (filename: string)
      modifies this`sequence
      ensures sequence == old(sequence) + 1
      ensures filename == CaptureFilename(imageWidth, sequence)
    {
      sequence := sequence + 1;
      filename := CaptureFilename(imageWidth, sequence);
    }
  }

  /** Successive captures get names no earlier capture had. */
  lemma CapturesNeverCollide(imageWidth: int, earlier: nat, later: nat)
    requires earlier < later
    ensures CaptureFilename(imageWidth, earlier) != CaptureFilename(imageWidth, later)
  {
    if CaptureFilename(imageWidth, earlier) == CaptureFilename(imageWidth, later) {
      CaptureFilenameInjective(imageWidth, earlier, later);
    }
  }

  /** The size of the buffer the sequence number is formatted into. */
  const CaptureBufSize: nat := 3

  /** sprintf into a buffer of `size` bytes: the text and its terminating NUL must fit,
      otherwise the write runs past the buffer (None). */
  function SprintfInto(size: nat, text: string): (r: Option<string>)
    ensures r.Some? <==> |text| + 1 <= size
    ensures r.Some? ==> r.value == text
  {
    if |text| + 1 <= size then Some(text) else None
  }

  /** "%03d" writes at least three digits and a NUL, so the three-byte buffer overflows on
      every capture. */
  lemma CaptureBufferOverflows(n: nat)
    ensures SprintfInto(CaptureBufSize, Pad3(n)).None?
    ensures SprintfInto(CaptureBufSize + 1, Pad3(n)).Some? <==> n < 1000
  {
    Pad3RoundTrip(n);
    Pad3Width(n);
  }
}
