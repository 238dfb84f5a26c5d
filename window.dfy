/** The bounded sample windows kept by Grid, Markers and the capture tool: a new sample is
    inserted at the front and a pop_back loop trims the tail to a cap.  Also the single
    pass that Grid::avg, the capture tool's avg and stitch_stream's stats all make over a
    window: a running sum and a running minimum and maximum seeded with sentinels. */
module Window {
  import opened Wrappers

  /** What the pop_back loop leaves: the first `cap` elements, or all of s if it is shorter. */
  function Truncated<T>(s: seq<T>, cap: nat): (r: seq<T>)
    ensures |r| <= cap && |r| <= |s| && r == s[..|r|]
    ensures |s| <= cap ==> r == s
    ensures |s| > cap ==> |r| == cap
  {
    if |s| <= cap then s else s[..cap]
  }

  /** `while (v.size() > cap) v.pop_back();` */
  method DropTail<T>(s: seq<T>, cap: nat) returns (r: seq<T>)
    ensures r == Truncated(s, cap)
  {
    r := s;
    while |r| > cap
      invariant r == s[..|r|]
      invariant |s| <= cap ==> r == s
      invariant |s| > cap ==> |r| >= cap
    {
      r := r[..|r| - 1];
    }
  }

  /** One newest-first insertion into a window capped at `cap`. */
  function Pushed<T>(w: seq<T>, x: T, cap: nat): seq<T>
  {
    Truncated([x] + w, cap)
  }

  /** The new sample is at index 0, the older ones follow in their old order shifted by one,
      and the length is min(old + 1, cap). */
  lemma PushedShape<T>(w: seq<T>, x: T, cap: nat)
    requires cap >= 1
    ensures |Pushed(w, x, cap)| == if |w| + 1 <= cap then |w| + 1 else cap
    ensures Pushed(w, x, cap)[0] == x
    ensures Pushed(w, x, cap)[1..] == Truncated(w, cap - 1)
  {
    var p := Pushed(w, x, cap);
    assert p[1..] == w[..|p| - 1];
  }

  /** Newest first: the reverse of a history kept oldest first. */
  function NewestFirst<T>(h: seq<T>): (r: seq<T>)
    ensures |r| == |h|
  {
    if |h| == 0 then [] else [h[|h| - 1]] + NewestFirst(h[..|h| - 1])
  }

  /** The window after pushing the samples of h, oldest first, into an empty window. */
  function Replay<T>(h: seq<T>, cap: nat): seq<T>
  {
    if |h| == 0 then [] else Pushed(Replay(h[..|h| - 1], cap), h[|h| - 1], cap)
  }

  /** Trimming before or after a front insertion gives the same window. */
  lemma {:induction false} PushTruncated<T>(s: seq<T>, x: T, cap: nat)
    ensures Truncated([x] + Truncated(s, cap), cap) == Truncated([x] + s, cap)
  {
    if |s| > cap {
      var t := Truncated(s, cap);
      assert ([x] + t)[..cap] == ([x] + s)[..cap];
    }
  }

  /** A window fed sample by sample holds the `cap` most recent samples, newest first. */
  lemma {:induction false} ReplayKeepsLatest<T>(h: seq<T>, cap: nat)
    ensures Replay(h, cap) == Truncated(NewestFirst(h), cap)
  {
    if |h| > 0 {
      var p := h[..|h| - 1];
      ReplayKeepsLatest(p, cap);
      PushTruncated(NewestFirst(p), h[|h| - 1], cap);
    }
  }

  /** The loop's running sum: list[0] + ... + list[|list| - 1]. */
  function Sum(list: seq<real>): real
  {
    if |list| == 0 then 0.0 else Sum(list[..|list| - 1]) + list[|list| - 1]
  }

  /** The running minimum seeded with `init`: `if (list[i] < min) min = list[i];` */
  function RunMin(list: seq<real>, init: real): (m: real)
    ensures m <= init && forall i :: 0 <= i < |list| ==> m <= list[i]
    ensures m == init || exists i :: 0 <= i < |list| && m == list[i]
  {
    if |list| == 0 then init
    else
      var m := RunMin(list[..|list| - 1], init);
      if list[|list| - 1] < m then list[|list| - 1] else m
  }

  /** The running maximum seeded with `init`: `if (list[i] > max) max = list[i];` */
  function RunMax(list: seq<real>, init: real): (m: real)
    ensures m >= init && forall i :: 0 <= i < |list| ==> m >= list[i]
    ensures m == init || exists i :: 0 <= i < |list| && m == list[i]
  {
    if |list| == 0 then init
    else
      var m := RunMax(list[..|list| - 1], init);
      if list[|list| - 1] > m then list[|list| - 1] else m
  }

  /** The accumulation loop shared by avg and stats. */
  method Scan(list: seq<real>, minInit: real, maxInit: real) returns (sum: real, lo: real, hi: real)
    ensures sum == Sum(list)
    ensures lo == RunMin(list, minInit) && hi == RunMax(list, maxInit)
  {
    sum, lo, hi := 0.0, minInit, maxInit;
    var i := 0;
    while i < |list|
      invariant 0 <= i <= |list|
      invariant sum == Sum(list[..i])
      invariant lo == RunMin(list[..i], minInit) && hi == RunMax(list[..i], maxInit)
    {
      assert list[..i + 1][..i] == list[..i];
      sum := sum + list[i];
      if list[i] < lo { lo := list[i]; }
      if list[i] > hi { hi := list[i]; }
      i := i + 1;
    }
    assert list[..|list|] == list;
  }

  /** The sentinels avg seeds its minimum and maximum with. */
  const AvgMinInit: real := 1000000.0
  const AvgMaxInit: real := -1000000.0

  /** The mean of a non-empty list; sum / count is 0/0 (NaN) for an empty one. */
  function Mean(list: seq<real>): (m: Option<real>)
    ensures m.Some? <==> |list| > 0
  {
    if |list| == 0 then None else Some(Sum(list) / |list| as real)
  }

  /** Grid::avg (and its copy in the capture tool): mean = sum / count, range = max - min. */
  method Avg(list: seq<real>) returns (mean: Option<real>, range: real)
    ensures mean == Mean(list)
    ensures range == RunMax(list, AvgMaxInit) - RunMin(list, AvgMinInit)
  {
    var sum, lo, hi := Scan(list, AvgMinInit, AvgMaxInit);
    mean := if |list| == 0 then None else Some(sum / |list| as real);
    range := hi - lo;
  }

  /** Over a non-empty list the range is never negative. */
  lemma RangeNonNegative(list: seq<real>, minInit: real, maxInit: real)
    requires |list| > 0
    ensures RunMax(list, maxInit) - RunMin(list, minInit) >= 0.0
  {
    assert RunMin(list, minInit) <= list[0] <= RunMax(list, maxInit);
  }

  lemma {:induction false} SumBounds(list: seq<real>, lo: real, hi: real)
    requires forall i :: 0 <= i < |list| ==> lo <= list[i] <= hi
    ensures lo * |list| as real <= Sum(list) <= hi * |list| as real
  {
    if |list| > 0 {
      SumBounds(list[..|list| - 1], lo, hi);
    }
  }

  /** The mean lies between the running minimum and maximum, whatever the sentinels. */
  lemma MeanBetween(list: seq<real>, minInit: real, maxInit: real)
    requires |list| > 0
    ensures RunMin(list, minInit) <= Mean(list).value <= RunMax(list, maxInit)
  {
    var lo, hi, n := RunMin(list, minInit), RunMax(list, maxInit), |list| as real;
    SumBounds(list, lo, hi);
    DivideBounds(lo, Sum(list), hi, n);
  }

  lemma DivideBounds(lo: real, s: real, hi: real, n: real)
    requires n > 0.0 && lo * n <= s <= hi * n
    ensures lo <= s / n <= hi
  {
  }

  lemma {:induction false} SumConstant(v: real, n: nat)
    ensures Sum(seq(n, _ => v)) == v * n as real
  {
    if n > 0 {
      assert seq(n, _ => v)[..n - 1] == seq(n - 1, _ => v);
      SumConstant(v, n - 1);
    }
  }

  /** A constant window of value v has mean v. */
  lemma ConstantMean(v: real, n: nat)
    requires n > 0
    ensures Mean(seq(n, _ => v)) == Some(v)
  {
    SumConstant(v, n);
    CancelCount(v, n as real);
  }

  /** ... and range 0, as long as v lies within the sentinels. */
  lemma ConstantRange(v: real, n: nat)
    requires n > 0 && AvgMinInit >= v >= AvgMaxInit
    ensures RunMax(seq(n, _ => v), AvgMaxInit) - RunMin(seq(n, _ => v), AvgMinInit) == 0.0
  {
    var list := seq(n, _ => v);
    assert list[0] == v;
  }

  /** Proof helper: one arithmetic step Z3 does not take on its own. */
  lemma CancelCount(v: real, n: real)
    requires n > 0.0
    ensures (v * n) / n == v
  {
  }

  /** Beyond the sentinel the range is wrong: a constant window of 2000000.0 reports a
      range of 1000000.0, because the minimum never drops below its seed. */
  lemma SentinelLimitsRange()
    ensures RunMax([2000000.0], AvgMaxInit) - RunMin([2000000.0], AvgMinInit) == 1000000.0
  {
    assert [2000000.0][..0] == [];
  }
}
