/** Detrended fluctuation analysis of the residuals (order-1 detrending). The
    log-spaced scale candidates and the log-log regression are library
    routines; the profile, scale filtering, segment partition and per-segment
    least-squares fits are modelled exactly. Fluctuations are kept squared:
    F^2 = total / (segments * scale), and F > 1e-10 is tested as F^2 > 1e-20. */
module Dfa {
  import opened Stats
  import opened External

  /** Order of the per-segment detrending polynomial. */
  const Order: int := 1
  const MinScale: int := 4
  /** (1e-10)^2: the square of the smallest fluctuation the regression uses. */
  const MinSignificantF2: real := 0.00000000000000000001
  /** Fewer points than this give the neutral result. */
  const MinPoints: nat := 20

  datatype DfaResult = DfaResult(hurst: real, r2: real, scales: seq<int>, fluctuations: seq<real>)

  const Neutral := DfaResult(0.5, 0.0, [], [])

  /** cumsum(data - mean(data)). */
  function Profile(data: seq<real>): (y: seq<real>)
    requires |data| > 0
    ensures |y| == |data|
  {
    var centred := Centred(data);
    seq(|data|, k requires 0 <= k < |data| => Sum(centred[..k + 1]))
  }

  /** data - mean(data). */
  function Centred(data: seq<real>): (c: seq<real>)
    requires |data| > 0
    ensures |c| == |data|
  {
    var m := Mean(data);
    seq(|data|, j requires 0 <= j < |data| => data[j] - m)
  }

  /** The scales that exceed order + 2, in their original order. */
  function AboveOrder(c: seq<int>): (r: seq<int>)
    ensures forall j :: 0 <= j < |r| ==> r[j] > Order + 2 && r[j] in c
    ensures forall i :: 0 <= i < |c| && c[i] > Order + 2 ==> c[i] in r
  {
    if |c| == 0 then []
    else
      var n := |c| - 1;
      AboveOrder(c[..n]) + (if c[n] > Order + 2 then [c[n]] else [])
  }

  /** The filter keeps the candidates' order: increasing in, increasing out. */
  lemma {:induction false} AboveOrderIncreasing(c: seq<int>)
    requires forall i, k :: 0 <= i < k < |c| ==> c[i] < c[k]
    ensures forall j, k :: 0 <= j < k < |AboveOrder(c)| ==> AboveOrder(c)[j] < AboveOrder(c)[k]
  {
    if |c| > 0 {
      var n := |c| - 1;
      var init, r := AboveOrder(c[..n]), AboveOrder(c);
      AboveOrderIncreasing(c[..n]);
      assert r == init + (if c[n] > Order + 2 then [c[n]] else []);
      forall j, k | 0 <= j < k < |r|
        ensures r[j] < r[k]
      {
        if k < |init| {
          assert r[j] == init[j] && r[k] == init[k];
        } else {
          assert r[k] == c[n] && r[j] == init[j];
          assert init[j] in c[..n];
          var i :| 0 <= i < n && c[..n][i] == init[j];
          assert c[i] < c[n];
        }
      }
    }
  }

  /** np.arange(lo, hi, step): lo, lo + step, ... while below hi. */
  function Arange(lo: int, hi: int, step: int): (r: seq<int>)
    requires step >= 1
    decreases hi - lo
    ensures forall j :: 0 <= j < |r| ==> lo <= r[j] < hi
    ensures forall j, k :: 0 <= j < k < |r| ==> r[j] < r[k]
    ensures |r| > 0 <==> lo < hi
  {
    if lo >= hi then [] else [lo] + Arange(lo + step, hi, step)
  }

  /** The j-th value of np.arange is lo + j * step, and one more step would
      reach hi. */
  lemma {:induction false} ArangeValues(lo: int, hi: int, step: int)
    requires step >= 1
    decreases hi - lo
    ensures forall j :: 0 <= j < |Arange(lo, hi, step)| ==> Arange(lo, hi, step)[j] == lo + j * step
    ensures lo < hi ==> hi <= lo + |Arange(lo, hi, step)| * step
  {
    if lo < hi {
      var r, rest := Arange(lo, hi, step), Arange(lo + step, hi, step);
      ArangeValues(lo + step, hi, step);
      assert r == [lo] + rest;
      forall j | 0 < j < |r|
        ensures r[j] == lo + j * step
      {
        StepsAdd(j - 1, step);
        assert r[j] == rest[j - 1];
      }
      StepsAdd(|rest|, step);
    }
  }

  lemma StepsAdd(j: int, step: int)
    ensures step + j * step == (j + 1) * step
  {
  }

  /** The linear fallback: np.arange(4, hi, max(1, (hi - 4) // 5)). */
  function LinearScales(hi: int): (r: seq<int>)
    requires hi >= MinScale
    ensures forall j :: 0 <= j < |r| ==> MinScale <= r[j] < hi
    ensures forall j :: 0 <= j < |r| ==> r[j] == MinScale + j * LinearStep(hi)
    ensures forall j, k :: 0 <= j < k < |r| ==> r[j] < r[k]
  {
    ArangeValues(MinScale, hi, LinearStep(hi));
    Arange(MinScale, hi, LinearStep(hi))
  }

  /** max(1, (hi - 4) // 5). */
  function LinearStep(hi: int): (step: int)
    requires hi >= MinScale
    ensures step >= 1
  {
    if (hi - MinScale) / 5 < 1 then 1 else (hi - MinScale) / 5
  }

  /** The log-spaced candidates, or the linear ones when fewer than three of
      the former survive the filter. */
  function Scales(n: nat, lib: Library): (r: seq<int>)
    requires lib.Valid()
    requires n / 4 >= MinScale
    ensures forall j :: 0 <= j < |r| ==> Order + 2 < r[j] <= n / 4
  {
    var c := AboveOrder(lib.logScales(MinScale, n / 4));
    if |c| < 3 then AboveOrder(LinearScales(n / 4)) else c
  }

  /** Residuals of a segment about its least-squares line (np.polyfit, order 1). */
  function LineResiduals(seg: seq<real>): (r: seq<real>)
    requires |seg| >= 2
    ensures |r| == |seg|
  {
    var a, b := OlsIntercept(seg), OlsSlope(seg);
    seq(|seg|, i requires 0 <= i < |seg| => seg[i] - (a + b * i as real))
  }

  /** Residual sum of squares of the order-1 fit of one segment. */
  function SegmentRss(seg: seq<real>): (r: real)
    requires |seg| >= 2
    ensures r >= 0.0
  {
    var e := LineResiduals(seg);
    var sq := SquaredDeviations(e, 0.0);
    forall i | 0 <= i < |e| ensures sq[i] >= 0.0 {
      ProductNonNegative(if e[i] >= 0.0 then e[i] else -e[i], if e[i] >= 0.0 then e[i] else -e[i]);
    }
    SumNonNegative(sq);
    Sum(sq)
  }

  /** The m-th segment of width s: y[m*s .. (m+1)*s]. */
  function Segment(y: seq<real>, s: nat, m: nat): (seg: seq<real>)
    requires (m + 1) * s <= |y|
    ensures |seg| == s
  {
    y[m * s..(m + 1) * s]
  }

  /** Sum of the segment residual sums over the first m segments of width s. */
  function TotalRss(y: seq<real>, s: nat, m: nat): (r: real)
    requires s >= 2 && m * s <= |y|
    ensures r >= 0.0
  {
    if m == 0 then 0.0
    else TotalRss(y, s, m - 1) + SegmentRss(Segment(y, s, m - 1))
  }

  /** N // s whole segments fit in the profile; the tail is dropped. */
  lemma SegmentsFit(n: nat, s: nat, j: nat)
    requires s > 0 && j <= n / s
    ensures j * s <= n
    ensures n - (n / s) * s < s
  {
    assert j * s <= (n / s) * s;
  }

  /** At least one whole segment fits when the scale does not exceed N. */
  lemma SegmentsCover(n: nat, s: nat)
    requires 1 <= s <= n
    ensures 1 <= n / s
    ensures s <= (n / s) * s <= n
  {
    SegmentsFit(n, s, n / s);
  }

  /** F^2 at scale s: total residual square sum over the whole segments,
      divided by the number of points they cover. */
  function SquaredFluctuation(y: seq<real>, s: nat): (r: real)
    requires 2 <= s <= |y|
    ensures r >= 0.0
  {
    var m := |y| / s;
    SegmentsCover(|y|, s);
    TotalRss(y, s, m) / (m * s) as real
  }

  function Fluctuations(y: seq<real>, scales: seq<int>): (r: seq<real>)
    requires forall j :: 0 <= j < |scales| ==> 2 <= scales[j] <= |y|
    ensures |r| == |scales|
  {
    seq(|scales|, i requires 0 <= i < |scales| => SquaredFluctuation(y, scales[i]))
  }

  /** The indices of the fluctuations above 1e-10, in increasing order. */
  function Significant(f: seq<real>): (r: seq<nat>)
    ensures forall j :: 0 <= j < |r| ==> r[j] < |f| && f[r[j]] > MinSignificantF2
    ensures forall i :: 0 <= i < |f| && f[i] > MinSignificantF2 ==> i in r
    ensures forall j, k :: 0 <= j < k < |r| ==> r[j] < r[k]
  {
    Where(f, x => x > MinSignificantF2)
  }

  /** The result calc_dfa computes, stated over the whole input at once. */
  function DfaSpec(data: seq<real>, lib: Library): DfaResult
    requires lib.Valid()
  {
    if |data| < MinPoints then Neutral
    else
      var y := Profile(data);
      var scales := Scales(|y|, lib);
      if |scales| < 2 then Neutral
      else
        var f := Fluctuations(y, scales);
        var valid := Significant(f);
        if |valid| < 3 then Neutral
        else
          var vs, vf := Select(scales, valid), Select(f, valid);
          var fit := lib.logLogFit(vs, vf);
          DfaResult(fit.0, fit.1, vs, vf)
  }

  /** The inner loop of calc_dfa: fit every whole segment of width `scale`
      and accumulate the residual sums of squares. */
  method SegmentTotal(y: seq<real>, scale: nat) returns (total: real)
    requires 2 <= scale <= |y|
    ensures total == TotalRss(y, scale, |y| / scale)
  {
    var nSegments := |y| / scale;
    total := 0.0;
    var j := 0;
    while j < nSegments
      invariant 0 <= j <= nSegments
      invariant j * scale <= |y|
      invariant total == TotalRss(y, scale, j)
    {
      SegmentsFit(|y|, scale, j + 1);
      total := total + SegmentRss(Segment(y, scale, j));
      j := j + 1;
    }
  }

  /** The outer loop of calc_dfa: F^2 for every scale, in order. */
  method ScaleFluctuations(y: seq<real>, scales: seq<int>) returns (fluctuations: seq<real>)
    requires forall j :: 0 <= j < |scales| ==> 2 <= scales[j] <= |y|
    ensures fluctuations == Fluctuations(y, scales)
  {
    fluctuations := [];
    var i := 0;
    while i < |scales|
      invariant 0 <= i <= |scales|
      invariant |fluctuations| == i
      invariant forall k :: 0 <= k < i ==> fluctuations[k] == SquaredFluctuation(y, scales[k])
    {
      var scale := scales[i];
      var nSegments := |y| / scale;
      var total := SegmentTotal(y, scale);
      SegmentsCover(|y|, scale);
      fluctuations := fluctuations + [total / (nSegments * scale) as real];
      i := i + 1;
    }
  }

  method CalcDfa(data: seq<real>, lib: Library) returns (r: DfaResult)
    requires lib.Valid()
    ensures r == DfaSpec(data, lib)
  {
    if |data| == 0 {
      return Neutral;
    }
    var y := Profile(data);
    var n := |y|;
    if n < MinPoints {
      return Neutral;
    }
    var maxScale := n / 4;
    if maxScale < MinScale {
      return Neutral;
    }
    var scales := AboveOrder(lib.logScales(MinScale, maxScale));
    if |scales| < 3 {
      scales := AboveOrder(LinearScales(maxScale));
    }
    if |scales| < 2 {
      return Neutral;
    }
    assert scales == Scales(n, lib);
    var fluctuations := ScaleFluctuations(y, scales);
    var valid := Significant(fluctuations);
    if |valid| < 3 {
      return Neutral;
    }
    var vs, vf := Select(scales, valid), Select(fluctuations, valid);
    var fit := lib.logLogFit(vs, vf);
    return DfaResult(fit.0, fit.1, vs, vf);
  }

  // ---------------------------------------------------------------- lemmas

  /** The profile of the mean-removed data returns to zero at its end. */
  lemma ProfileEndsAtZero(data: seq<real>)
    requires |data| > 0
    ensures Profile(data)[|data| - 1] == 0.0
  {
    var m := Mean(data);
    var centred := Centred(data);
    assert centred[..|data|] == centred;
    SumAffine(centred, data, 1.0, -m);
  }

  /** The profile starts at the first centred reading and adds one centred
      reading per step, as cumsum does. */
  lemma ProfileSteps(data: seq<real>)
    requires |data| > 0
    ensures Profile(data)[0] == data[0] - Mean(data)
    ensures forall k :: 0 < k < |data| ==>
      Profile(data)[k] == Profile(data)[k - 1] + (data[k] - Mean(data))
  {
    var m := Mean(data);
    var centred := Centred(data);
    var y := Profile(data);
    assert y[0] == Sum(centred[..1]);
    assert centred[..1][..0] == [];
    assert centred[0] == data[0] - m;
    assert Sum(centred[..1]) == Sum(centred[..1][..0]) + centred[..1][0];
    forall k | 0 < k < |data|
      ensures y[k] == y[k - 1] + (data[k] - m)
    {
      assert y[k] == Sum(centred[..k + 1]) && y[k - 1] == Sum(centred[..k]);
      assert centred[..k + 1][..k] == centred[..k];
      assert centred[k] == data[k] - m;
    }
  }

  /** The N // 4 < 4 guard cannot fire once N >= 20. */
  lemma MaxScaleGuardUnreachable(n: nat)
    requires n >= MinPoints
    ensures n / 4 >= MinScale
  {
  }

  /** A segment lying on a straight line has no residual. */
  lemma SegmentRssOfLine(seg: seq<real>, a: real, b: real)
    requires |seg| >= 2
    requires forall i :: 0 <= i < |seg| ==> seg[i] == a + b * i as real
    ensures SegmentRss(seg) == 0.0
  {
    OlsOfLine(seg, a, b);
    var sq := SquaredDeviations(LineResiduals(seg), 0.0);
    SumConst(sq, 0.0);
  }

  /** Neutral whenever the data has fewer than 20 points, fewer than two scales
      remain, or fewer than three fluctuations exceed 1e-10. */
  lemma DfaNeutralCases(data: seq<real>, lib: Library)
    requires lib.Valid()
    ensures |data| < MinPoints ==> DfaSpec(data, lib) == Neutral
    ensures |data| >= MinPoints && |Scales(|data|, lib)| < 2 ==> DfaSpec(data, lib) == Neutral
    ensures |data| >= MinPoints && |Scales(|data|, lib)| >= 2 ==>
      (|Significant(Fluctuations(Profile(data), Scales(|data|, lib)))| < 3 ==> DfaSpec(data, lib) == Neutral)
  {
  }

  /** A non-neutral result pairs at least three scales, each within
      (order + 2, N // 4], with their fluctuations, all above 1e-10. */
  lemma DfaResultShape(data: seq<real>, lib: Library)
    requires lib.Valid()
    requires DfaSpec(data, lib) != Neutral
    ensures var r := DfaSpec(data, lib);
      && |data| >= MinPoints
      && |r.scales| == |r.fluctuations| >= 3
      && (forall j :: 0 <= j < |r.scales| ==> Order + 2 < r.scales[j] <= |data| / 4)
      && (forall j :: 0 <= j < |r.fluctuations| ==> r.fluctuations[j] > MinSignificantF2)
  {
  }

  /** For a fluctuation F = sqrt(F^2) >= 0, the source's test F > 1e-10 is the
      model's test F^2 > 1e-20. */
  lemma SignificanceMatchesSource(f: real, f2: real)
    requires f >= 0.0 && f * f == f2
    ensures f > 0.0000000001 <==> f2 > MinSignificantF2
  {
    var e := 0.0000000001;
    assert e * e == MinSignificantF2;
    if f > e {
      SquareStrictlyIncreasing(e, f);
    } else {
      SquareIncreasing(f, e);
    }
  }
}
