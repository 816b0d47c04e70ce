/** The pure metric analyzers: bias, slope and hysteresis. */
module Metrics {
  import opened Stats

  // ------------------------------------------------------------------ bias

  /** Size of the reference windows: max(1, len/10). */
  function RefWindow(n: nat): (w: nat)
    ensures 1 <= w
    ensures n >= 10 ==> 10 * w <= n < 10 * (w + 1)
  {
    if n / 10 < 1 then 1 else n / 10
  }

  /** Mean of the last window minus mean of the first, both of RefWindow size. */
  function CalcBias(data: seq<real>): (r: real)
    ensures |data| < 10 ==> r == 0.0
  {
    if |data| < 10 then 0.0
    else
      var w := RefWindow(|data|);
      Mean(data[|data| - w..]) - Mean(data[..w])
  }

  /** When the first window sits at level a and the last at level b, the bias
      is b - a, whatever lies between. */
  lemma BiasOfLevels(data: seq<real>, a: real, b: real)
    requires |data| >= 10
    requires forall i :: 0 <= i < RefWindow(|data|) ==> data[i] == a
    requires forall i :: |data| - RefWindow(|data|) <= i < |data| ==> data[i] == b
    ensures CalcBias(data) == b - a
  {
    var n, w := |data|, RefWindow(|data|);
    MeanConst(data[..w], a);
    MeanConst(data[n - w..], b);
  }

  lemma BiasConstant(data: seq<real>, c: real)
    requires forall i :: 0 <= i < |data| ==> data[i] == c
    ensures CalcBias(data) == 0.0
  {
    if |data| >= 10 {
      BiasOfLevels(data, c, c);
    }
  }

  /** Adding the same offset to every reading leaves the bias unchanged. */
  lemma BiasShiftInvariant(data: seq<real>, shifted: seq<real>, c: real)
    requires |shifted| == |data|
    requires forall i :: 0 <= i < |data| ==> shifted[i] == data[i] + c
    ensures CalcBias(shifted) == CalcBias(data)
  {
    var n := |data|;
    if n >= 10 {
      var w := RefWindow(n);
      MeanShift(shifted[..w], data[..w], c);
      MeanShift(shifted[n - w..], data[n - w..], c);
    }
  }

  /** [0, 5 x 8, 10]: one-point windows at 0 and at 10 give a bias of 10. */
  lemma BiasStepExample()
    ensures CalcBias([0.0, 5.0, 5.0, 5.0, 5.0, 5.0, 5.0, 5.0, 5.0, 10.0]) == 10.0
  {
    BiasOfLevels([0.0, 5.0, 5.0, 5.0, 5.0, 5.0, 5.0, 5.0, 5.0, 10.0], 0.0, 10.0);
  }

  // ----------------------------------------------------------------- slope

  function CalcSlope(data: seq<real>): (r: real)
    ensures |data| < 2 ==> r == 0.0
  {
    if |data| < 2 then 0.0 else OlsSlope(data)
  }

  /** The slope of a straight line a + b*i is b. */
  lemma SlopeOfLine(data: seq<real>, a: real, b: real)
    requires forall i :: 0 <= i < |data| ==> data[i] == a + b * i as real
    requires |data| >= 2
    ensures CalcSlope(data) == b
  {
    OlsOfLine(data, a, b);
  }

  lemma SlopeConstant(data: seq<real>, c: real)
    requires forall i :: 0 <= i < |data| ==> data[i] == c
    ensures CalcSlope(data) == 0.0
  {
    if |data| >= 2 {
      SlopeOfLine(data, c, 0.0);
    }
  }

  /** The slope of 0, 1, ..., n-1 is exactly 1. */
  lemma SlopeOfIndex(n: nat)
    requires n >= 2
    ensures CalcSlope(Index(n)) == 1.0
  {
    SlopeOfLine(Index(n), 0.0, 1.0);
  }

  // ------------------------------------------------------------ hysteresis

  datatype Hysteresis = Hysteresis(score: real, x: seq<real>, y: seq<real>)

  const NeutralHysteresis := Hysteresis(0.0, [], [])

  /** pandas' centred rolling mean of width 5; the two undefined values at each
      end are back- and forward-filled from indices 2 and n-3. */
  function Smooth(data: seq<real>): (r: seq<real>)
    requires |data| >= 5
    ensures |r| == |data|
    ensures forall i :: 0 <= i < |data| ==>
      var c := if i < 2 then 2 else if i > |data| - 3 then |data| - 3 else i;
      r[i] == Mean(data[c - 2..c + 3])
  {
    var n := |data|;
    seq(n, i requires 0 <= i < n =>
      var c := if i < 2 then 2 else if i > n - 3 then n - 3 else i;
      Mean(data[c - 2..c + 3]))
  }

  /** numpy's diff. */
  function Diffs(s: seq<real>): (r: seq<real>)
    requires |s| >= 1
    ensures |r| == |s| - 1
    ensures forall i :: 0 <= i < |r| ==> r[i] == s[i + 1] - s[i]
  {
    seq(|s| - 1, i requires 0 <= i < |s| - 1 => s[i + 1] - s[i])
  }

  /** The differences telescope: they add up to the last value less the first. */
  lemma {:induction false} DiffsTelescope(s: seq<real>)
    requires |s| >= 1
    ensures Sum(Diffs(s)) == s[|s| - 1] - s[0]
  {
    if |s| > 1 {
      var n := |s| - 1;
      var t := s[..n];
      DiffsTelescope(t);
      assert Diffs(s)[..n - 1] == Diffs(t);
    }
  }

  /** d > 0.5*std (up) or d < -0.5*std (down), with var = std^2: the threshold
      is non-negative, so comparing squares is exact. */
  predicate IsEdge(d: real, var_: real, up: bool)
  {
    (if up then d > 0.0 else d < 0.0) && 4.0 * (d * d) > var_
  }

  /** The square-free test agrees with the source's comparison against
      t = 0.5 * std, for any t >= 0 with t^2 = var/4. */
  lemma IsEdgeMatchesThreshold(d: real, var_: real, t: real)
    requires t >= 0.0 && 4.0 * (t * t) == var_
    ensures IsEdge(d, var_, true) <==> d > t
    ensures IsEdge(d, var_, false) <==> d < -t
  {
    if d > t {
      SquareStrictlyIncreasing(t, d);
    } else if d > 0.0 {
      SquareIncreasing(d, t);
    } else if d >= -t {
      SquareIncreasing(-d, t);
    } else {
      SquareStrictlyIncreasing(t, -d);
    }
  }

  /** The indices of the rising (up) or falling edges of d, in increasing order. */
  function EdgeIndices(d: seq<real>, var_: real, up: bool): (r: seq<nat>)
    ensures forall j :: 0 <= j < |r| ==> r[j] < |d| && IsEdge(d[r[j]], var_, up)
    ensures forall i :: 0 <= i < |d| && IsEdge(d[i], var_, up) ==> i in r
    ensures forall j, k :: 0 <= j < k < |r| ==> r[j] < r[k]
    ensures r == [] <==> forall i :: 0 <= i < |d| ==> !IsEdge(d[i], var_, up)
  {
    Where(d, x => IsEdge(x, var_, up))
  }

  /** Difference of the mean readings at rising and at falling edges, as a
      fraction of the range (1 stands in for a zero range). */
  function EdgeScore(data: seq<real>, rising: seq<nat>, falling: seq<nat>): real
    requires |rising| > 0 && |falling| > 0 && |data| > 0
    requires forall j :: 0 <= j < |rising| ==> rising[j] < |data|
    requires forall j :: 0 <= j < |falling| ==> falling[j] < |data|
  {
    var range := if Ptp(data) > 0.0 then Ptp(data) else 1.0;
    Abs(Mean(Select(data, rising)) - Mean(Select(data, falling))) / range
  }

  /** |mean at rising edges - mean at falling edges| / range, or the neutral
      result for fewer than five points or when either kind of edge is absent. */
  function CalcHysteresis(data: seq<real>): (r: Hysteresis)
    ensures |data| < 5 ==> r == NeutralHysteresis
    ensures |data| >= 5 ==> var d := Diffs(Smooth(data));
      (r == NeutralHysteresis <==>
        (EdgeIndices(d, Variance(d), true) == [] || EdgeIndices(d, Variance(d), false) == []))
    ensures r != NeutralHysteresis ==> r.x == data && r.y == Smooth(data)
  {
    if |data| < 5 then NeutralHysteresis
    else
      var sm := Smooth(data);
      var d := Diffs(sm);
      var v := Variance(d);
      var rising := EdgeIndices(d, v, true);
      var falling := EdgeIndices(d, v, false);
      if |rising| == 0 || |falling| == 0 then NeutralHysteresis
      else
        Hysteresis(EdgeScore(data, rising, falling), data, sm)
  }

  lemma SmoothOfConstant(data: seq<real>, c: real)
    requires |data| >= 5
    requires forall i :: 0 <= i < |data| ==> data[i] == c
    ensures forall i :: 0 <= i < |data| ==> Smooth(data)[i] == c
  {
    var n, sm := |data|, Smooth(data);
    forall i | 0 <= i < n
      ensures sm[i] == c
    {
      var m := if i < 2 then 2 else if i > n - 3 then n - 3 else i;
      MeanConst(data[m - 2..m + 3], c);
    }
  }

  /** Differences of a flat sequence are zero, their variance is zero and none
      of them is a rising edge. */
  lemma FlatHasNoRisingEdge(s: seq<real>, c: real)
    requires |s| >= 2
    requires forall i :: 0 <= i < |s| ==> s[i] == c
    ensures EdgeIndices(Diffs(s), Variance(Diffs(s)), true) == []
  {
    var d := Diffs(s);
    forall i | 0 <= i < |d|
      ensures d[i] == 0.0
    {
      assert d[i] == s[i + 1] - s[i];
    }
    VarianceConst(d, 0.0);
    var v := Variance(d);
    assert forall j :: 0 <= j < |d| ==> !IsEdge(d[j], v, true);
  }

  /** A signal with no spread has no edges: the zero-range fallback divisor is
      never reached. */
  lemma HysteresisFlatIsNeutral(data: seq<real>)
    requires |data| >= 5
    requires Ptp(data) == 0.0
    ensures CalcHysteresis(data) == NeutralHysteresis
  {
    PtpZeroConstant(data);
    SmoothOfConstant(data, data[0]);
    FlatHasNoRisingEdge(Smooth(data), data[0]);
  }

  /** Means taken over readings of `data` differ by at most its range. */
  lemma MeansWithinRange(data: seq<real>, a: seq<nat>, b: seq<nat>)
    requires |a| > 0 && |b| > 0 && |data| > 0
    requires forall j :: 0 <= j < |a| ==> a[j] < |data|
    requires forall j :: 0 <= j < |b| ==> b[j] < |data|
    ensures Abs(Mean(Select(data, a)) - Mean(Select(data, b))) <= Ptp(data)
  {
    MaxMinBounds(data);
    MeanBounds(Select(data, a), Min(data), Max(data));
    MeanBounds(Select(data, b), Min(data), Max(data));
  }

  lemma RatioBounded(x: real, p: real)
    requires 0.0 <= x <= p && p > 0.0
    ensures 0.0 <= x / p <= 1.0
  {
  }

  /** The score of a non-neutral result lies in [0, 1]. */
  lemma EdgeScoreBounded(data: seq<real>, rising: seq<nat>, falling: seq<nat>)
    requires |rising| > 0 && |falling| > 0 && |data| > 0
    requires forall j :: 0 <= j < |rising| ==> rising[j] < |data|
    requires forall j :: 0 <= j < |falling| ==> falling[j] < |data|
    requires Ptp(data) != 0.0
    ensures 0.0 <= EdgeScore(data, rising, falling) <= 1.0
  {
    MaxMinBounds(data);
    MeansWithinRange(data, rising, falling);
    RatioBounded(Abs(Mean(Select(data, rising)) - Mean(Select(data, falling))), Ptp(data));
  }

  /** The hysteresis score always lies in [0, 1]. */
  lemma HysteresisScoreBounded(data: seq<real>)
    ensures 0.0 <= CalcHysteresis(data).score <= 1.0
  {
    if |data| >= 5 {
      var d := Diffs(Smooth(data));
      var v := Variance(d);
      var rising := EdgeIndices(d, v, true);
      var falling := EdgeIndices(d, v, false);
      if |rising| > 0 && |falling| > 0 {
        if Ptp(data) == 0.0 {
          HysteresisFlatIsNeutral(data);
        } else {
          EdgeScoreBounded(data, rising, falling);
        }
      }
    }
  }
}
