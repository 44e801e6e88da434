/** The altitude smoother: a centred moving average whose window is clipped
    at both ends of the series instead of being padded or wrapped. */
module Smoothing {

  function Max(a: int, b: int): int { if a >= b then a else b }
  function Min(a: int, b: int): int { if a <= b then a else b }

  /** Left-to-right sum, the `reduce((sum, val) => sum + val, 0)` of the source. */
  function SumReal(s: seq<real>): real {
    if s == [] then 0.0 else SumReal(s[..|s| - 1]) + s[|s| - 1]
  }

  function Mean(s: seq<real>): real
    requires |s| > 0
  {
    SumReal(s) / (|s| as real)
  }

  function Reverse<T>(s: seq<T>): seq<T> {
    seq(|s|, i requires 0 <= i < |s| => s[|s| - 1 - i])
  }

  /** First index of the window around `i`: `max(0, i - floor(w / 2))`. */
  function WindowStart(i: int, windowSize: int): int {
    Max(0, i - windowSize / 2)
  }

  /** One past the last index of the window: `min(n, i + ceil(w / 2))`. */
  function WindowEnd(i: int, windowSize: int, n: int): int {
    Min(n, i + (windowSize + 1) / 2)
  }

  lemma WindowBounds(i: int, windowSize: int, n: int)
    requires windowSize > 1 && 0 <= i < n
    ensures 0 <= WindowStart(i, windowSize) <= i < WindowEnd(i, windowSize, n) <= n
  {
  }

  /** The smoothed series: each value is the mean of the raw values in its
      clipped window; a window of at most one sample leaves the series alone. */
  function Smoothed(altitudes: seq<real>, windowSize: int): (r: seq<real>)
    ensures |r| == |altitudes|
  {
    if windowSize <= 1 then altitudes
    else
      seq(|altitudes|, i requires 0 <= i < |altitudes| =>
        WindowBounds(i, windowSize, |altitudes|);
        Mean(altitudes[WindowStart(i, windowSize)..WindowEnd(i, windowSize, |altitudes|)]))
  }

  /** `slice.reduce((sum, val) => sum + val, 0) / slice.length`. */
  method SliceMean(slice: seq<real>) returns (avg: real)
    requires |slice| > 0
    ensures avg == Mean(slice)
  {
    var total := 0.0;
    for k := 0 to |slice|
      invariant total == SumReal(slice[..k])
    {
      assert slice[..k + 1][..k] == slice[..k];
      total := total + slice[k];
    }
    assert slice[..|slice|] == slice;
    avg := total / (|slice| as real);
  }

  /** `smoothAltitudes`: fills the smoothed series one index at a time. */
  method SmoothAltitudes(altitudes: seq<real>, windowSize: int) returns (smoothed: seq<real>)
    ensures windowSize <= 1 ==> smoothed == altitudes
    ensures |smoothed| == |altitudes|
    ensures windowSize > 1 ==> forall i :: 0 <= i < |altitudes| ==>
      0 <= WindowStart(i, windowSize) < WindowEnd(i, windowSize, |altitudes|) <= |altitudes| &&
      smoothed[i] == Mean(altitudes[WindowStart(i, windowSize)..WindowEnd(i, windowSize, |altitudes|)])
    ensures smoothed == Smoothed(altitudes, windowSize)
  {
    if windowSize <= 1 {
      return altitudes;
    }
    var n := |altitudes|;
    smoothed := [];
    for i := 0 to n
      invariant |smoothed| == i
      invariant forall j :: 0 <= j < i ==> smoothed[j] == Smoothed(altitudes, windowSize)[j]
    {
      var avg := SmoothedPoint(altitudes, windowSize, i);
      smoothed := smoothed + [avg];
    }
    forall i | 0 <= i < n
      ensures 0 <= WindowStart(i, windowSize) < WindowEnd(i, windowSize, n) <= n
      ensures smoothed[i] == Mean(altitudes[WindowStart(i, windowSize)..WindowEnd(i, windowSize, n)])
    {
      SmoothedAt(altitudes, windowSize, i);
    }
  }

  /** One iteration of `smoothAltitudes`: the clipped window around i and its mean. */
  method SmoothedPoint(altitudes: seq<real>, windowSize: int, i: int) returns (avg: real)
    requires windowSize > 1 && 0 <= i < |altitudes|
    ensures avg == Smoothed(altitudes, windowSize)[i]
  {
    var start := Max(0, i - windowSize / 2);
    var end := Min(|altitudes|, i + (windowSize + 1) / 2);
    SmoothedAt(altitudes, windowSize, i);
    avg := SliceMean(altitudes[start..end]);
  }

  /** A sum of values in [lo, hi] lies between |s|*lo and |s|*hi. */
  lemma {:induction false} SumBounds(s: seq<real>, lo: real, hi: real)
    requires forall k :: 0 <= k < |s| ==> lo <= s[k] <= hi
    ensures (|s| as real) * lo <= SumReal(s) <= (|s| as real) * hi
  {
    if s != [] {
      SumBounds(s[..|s| - 1], lo, hi);
    }
  }

  lemma MeanBounds(s: seq<real>, lo: real, hi: real)
    requires |s| > 0
    requires forall k :: 0 <= k < |s| ==> lo <= s[k] <= hi
    ensures lo <= Mean(s) <= hi
  {
    SumBounds(s, lo, hi);
    var n := |s| as real;
    assert lo == (n * lo) / n && hi == (n * hi) / n;
  }

  /** Smoothing never leaves the range of the raw values. */
  lemma SmoothedWithin(altitudes: seq<real>, windowSize: int, lo: real, hi: real)
    requires forall k :: 0 <= k < |altitudes| ==> lo <= altitudes[k] <= hi
    ensures forall i :: 0 <= i < |altitudes| ==> lo <= Smoothed(altitudes, windowSize)[i] <= hi
  {
    if windowSize > 1 {
      forall i | 0 <= i < |altitudes|
        ensures lo <= Smoothed(altitudes, windowSize)[i] <= hi
      {
        WindowBounds(i, windowSize, |altitudes|);
        MeanBounds(altitudes[WindowStart(i, windowSize)..WindowEnd(i, windowSize, |altitudes|)], lo, hi);
      }
    }
  }

  /** A flat series stays flat. */
  lemma SmoothedConstant(altitudes: seq<real>, windowSize: int, c: real)
    requires forall k :: 0 <= k < |altitudes| ==> altitudes[k] == c
    ensures forall i :: 0 <= i < |altitudes| ==> Smoothed(altitudes, windowSize)[i] == c
  {
    SmoothedWithin(altitudes, windowSize, c, c);
  }

  lemma {:induction false} SumCons(x: real, s: seq<real>)
    ensures SumReal([x] + s) == x + SumReal(s)
  {
    if s != [] {
      assert ([x] + s)[..|s|] == [x] + s[..|s| - 1];
      SumCons(x, s[..|s| - 1]);
    }
  }

  /** Summation does not depend on the direction of travel. */
  lemma {:induction false} SumReverse(s: seq<real>)
    ensures SumReal(Reverse(s)) == SumReal(s)
  {
    if s != [] {
      var init := s[..|s| - 1];
      assert Reverse(s) == [s[|s| - 1]] + Reverse(init);
      SumCons(s[|s| - 1], Reverse(init));
      SumReverse(init);
    }
  }

  lemma ReverseSlice<T>(a: seq<T>, s: int, e: int)
    requires 0 <= s <= e <= |a|
    ensures Reverse(a)[s..e] == Reverse(a[|a| - e..|a| - s])
  {
    var lhs, rhs := Reverse(a)[s..e], Reverse(a[|a| - e..|a| - s]);
    assert |lhs| == |rhs| == e - s;
    forall k | 0 <= k < e - s
      ensures lhs[k] == rhs[k]
    {
      assert lhs[k] == a[|a| - 1 - (s + k)];
      assert rhs[k] == a[|a| - e..|a| - s][e - s - 1 - k];
    }
  }

  /** The window of i, seen from the other end, is the window of n - 1 - i. */
  lemma MirroredWindow(n: int, windowSize: int, i: int)
    requires windowSize % 2 == 1 && windowSize > 1 && 0 <= i < n
    ensures n - WindowEnd(i, windowSize, n) == WindowStart(n - 1 - i, windowSize)
    ensures n - WindowStart(i, windowSize) == WindowEnd(n - 1 - i, windowSize, n)
  {
    assert (windowSize + 1) / 2 == windowSize / 2 + 1;
  }

  /** Element i of the smoothed series is the mean of its window. */
  lemma SmoothedAt(altitudes: seq<real>, windowSize: int, i: int)
    requires windowSize > 1 && 0 <= i < |altitudes|
    ensures 0 <= WindowStart(i, windowSize) < WindowEnd(i, windowSize, |altitudes|) <= |altitudes|
    ensures Smoothed(altitudes, windowSize)[i] ==
            Mean(altitudes[WindowStart(i, windowSize)..WindowEnd(i, windowSize, |altitudes|)])
  {
    WindowBounds(i, windowSize, |altitudes|);
  }

  /** The mean does not depend on the order of the slice. */
  lemma MeanReverse(s: seq<real>)
    requires |s| > 0
    ensures |Reverse(s)| == |s|
    ensures Mean(Reverse(s)) == Mean(s)
  {
    SumReverse(s);
  }

  /** The reversed series' window around i holds the same values as the
      window around n - 1 - i, so the two means agree. */
  lemma ReversedWindowMean(altitudes: seq<real>, windowSize: int, i: int)
    requires windowSize % 2 == 1 && windowSize > 1 && 0 <= i < |altitudes|
    ensures var n := |altitudes|;
      && 0 <= WindowStart(i, windowSize) < WindowEnd(i, windowSize, n) <= n
      && 0 <= WindowStart(n - 1 - i, windowSize) < WindowEnd(n - 1 - i, windowSize, n) <= n
      && Mean(Reverse(altitudes)[WindowStart(i, windowSize)..WindowEnd(i, windowSize, n)]) ==
         Mean(altitudes[WindowStart(n - 1 - i, windowSize)..WindowEnd(n - 1 - i, windowSize, n)])
  {
    var n := |altitudes|;
    WindowBounds(i, windowSize, n);
    WindowBounds(n - 1 - i, windowSize, n);
    MirroredWindow(n, windowSize, i);
    var s, e := WindowStart(i, windowSize), WindowEnd(i, windowSize, n);
    ReverseSlice(altitudes, s, e);
    MeanReverse(altitudes[n - e..n - s]);
  }

  lemma SmoothedReverseAt(altitudes: seq<real>, windowSize: int, i: int)
    requires windowSize % 2 == 1 && windowSize > 1 && 0 <= i < |altitudes|
    ensures Smoothed(Reverse(altitudes), windowSize)[i] == Smoothed(altitudes, windowSize)[|altitudes| - 1 - i]
  {
    assert |Reverse(altitudes)| == |altitudes|;
    SmoothedAt(Reverse(altitudes), windowSize, i);
    SmoothedAt(altitudes, windowSize, |altitudes| - 1 - i);
    ReversedWindowMean(altitudes, windowSize, i);
  }

  /** With an odd window the window is symmetric, so smoothing the reversed
      series gives the reversed smoothed series. */
  lemma SmoothedReverse(altitudes: seq<real>, windowSize: int)
    requires windowSize % 2 == 1
    ensures Smoothed(Reverse(altitudes), windowSize) == Reverse(Smoothed(altitudes, windowSize))
  {
    if windowSize > 1 {
      var lhs := Smoothed(Reverse(altitudes), windowSize);
      var rhs := Reverse(Smoothed(altitudes, windowSize));
      assert |lhs| == |rhs|;
      forall i | 0 <= i < |altitudes|
        ensures lhs[i] == rhs[i]
      {
        SmoothedReverseAt(altitudes, windowSize, i);
      }
      assert lhs == rhs;
    }
  }
}
