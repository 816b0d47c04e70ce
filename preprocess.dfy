/** Gap filling and spike removal of raw readings. A missing reading (NaN in the
    source) is `None`. Gap filling follows pandas'
    `interpolate(method='linear', limit=5).bfill().ffill()`; spike removal is
    scipy's zero-padded `medfilt`. */
module Preprocess {
  import opened Wrappers

  /** pandas' `limit`: at most this many consecutive missing values are interpolated. */
  const InterpolationLimit: nat := 5

  predicate AnyPresent(s: seq<Option<real>>)
  {
    exists k :: 0 <= k < |s| && s[k].Some?
  }

  predicate AllPresent(s: seq<Option<real>>)
  {
    forall k :: 0 <= k < |s| ==> s[k].Some?
  }

  /** The first index at or after `k` that holds a reading. */
  function FirstPresentFrom(s: seq<Option<real>>, k: nat): (r: Option<nat>)
    decreases |s| - k
    ensures r.Some? ==> k <= r.value < |s| && s[r.value].Some?
    ensures r.Some? ==> forall j :: k <= j < r.value ==> s[j].None?
    ensures r.None? ==> forall j :: k <= j < |s| ==> s[j].None?
  {
    if k >= |s| then None
    else if s[k].Some? then Some(k)
    else FirstPresentFrom(s, k + 1)
  }

  /** The last index strictly before `k` that holds a reading. */
  function LastPresentBefore(s: seq<Option<real>>, k: nat): (r: Option<nat>)
    requires k <= |s|
    ensures r.Some? ==> r.value < k && s[r.value].Some?
    ensures r.Some? ==> forall j :: r.value < j < k ==> s[j].None?
    ensures r.None? ==> forall j :: 0 <= j < k ==> s[j].None?
  {
    if k == 0 then None
    else if s[k - 1].Some? then Some(k - 1)
    else LastPresentBefore(s, k - 1)
  }

  /** numpy's `interp` between the readings at indices p < q, evaluated at k. */
  function Lerp(a: real, b: real, p: nat, q: nat, k: nat): (r: real)
    requires p < q
    ensures k == p ==> r == a
    ensures k == q ==> r == b
  {
    var w := (q - p) as real;
    assert (b - a) * w / w == b - a;
    a + (b - a) * (k - p) as real / w
  }

  /** The value linear interpolation gives at k (None where it leaves a gap). */
  function InterpolatedAt(s: seq<Option<real>>, k: nat): Option<real>
    requires k < |s|
  {
    if s[k].Some? then s[k]
    else match LastPresentBefore(s, k)
      case None => None                               // leading run: no left anchor
      case Some(p) =>
        if k - p > InterpolationLimit then None       // beyond the limit of the run
        else match FirstPresentFrom(s, k)
          case Some(q) => Some(Lerp(s[p].value, s[q].value, p, q, k))
          case None => s[p]                           // trailing run: interp clamps
  }

  /** pandas' interpolate(limit=5): present readings are kept. */
  function Interpolate(s: seq<Option<real>>): (r: seq<Option<real>>)
    ensures |r| == |s|
    ensures forall k :: 0 <= k < |s| && s[k].Some? ==> r[k] == s[k]
  {
    seq(|s|, k requires 0 <= k < |s| => InterpolatedAt(s, k))
  }

  /** pandas' bfill: a gap takes the next present value. */
  function BFill(t: seq<Option<real>>): (r: seq<Option<real>>)
    ensures |r| == |t|
    ensures forall k :: 0 <= k < |t| ==> (r[k].None? <==> forall j :: k <= j < |t| ==> t[j].None?)
  {
    seq(|t|, k requires 0 <= k < |t| =>
      match FirstPresentFrom(t, k)
      case None => None
      case Some(q) => t[q])
  }

  /** pandas' ffill: a gap takes the previous present value. */
  function FFill(t: seq<Option<real>>): (r: seq<Option<real>>)
    ensures |r| == |t|
    ensures forall k :: 0 <= k < |t| ==> (r[k].None? <==> forall j :: 0 <= j <= k ==> t[j].None?)
  {
    seq(|t|, k requires 0 <= k < |t| =>
      match LastPresentBefore(t, k + 1)
      case None => None
      case Some(p) => t[p])
  }

  function GapFill(s: seq<Option<real>>): (r: seq<Option<real>>)
    ensures |r| == |s|
  {
    FFill(BFill(Interpolate(s)))
  }

  function Values(s: seq<Option<real>>): (r: seq<real>)
    requires AllPresent(s)
    ensures |r| == |s|
    ensures forall k :: 0 <= k < |s| ==> s[k] == Some(r[k])
  {
    seq(|s|, k requires 0 <= k < |s| => s[k].value)
  }

  // ------------------------------------------------------------- gap fill lemmas

  /** Each stage of the gap fill keeps every reading that is present. */
  lemma FillStagesKeepPresent(t: seq<Option<real>>, k: nat)
    requires k < |t| && t[k].Some?
    ensures Interpolate(t)[k] == t[k]
    ensures BFill(t)[k] == t[k]
    ensures FFill(t)[k] == t[k]
  {
    assert FirstPresentFrom(t, k) == Some(k);
    assert LastPresentBefore(t, k + 1) == Some(k);
  }

  lemma GapFillKeepsPresent(s: seq<Option<real>>, k: nat)
    requires k < |s| && s[k].Some?
    ensures GapFill(s)[k] == s[k]
  {
    FillStagesKeepPresent(s, k);
    FillStagesKeepPresent(Interpolate(s), k);
    FillStagesKeepPresent(BFill(Interpolate(s)), k);
  }

  /** Once one reading is present, no gap is left. */
  lemma GapFillComplete(s: seq<Option<real>>)
    requires AnyPresent(s)
    ensures AllPresent(GapFill(s))
  {
    var j :| 0 <= j < |s| && s[j].Some?;
    var i := Interpolate(s);
    var b := BFill(i);
    FillStagesKeepPresent(s, j);
    assert i[j].Some?;
    assert FirstPresentFrom(i, 0).Some?;
    assert b[0].Some?;
    forall k | 0 <= k < |s|
      ensures GapFill(s)[k].Some?
    {
      assert LastPresentBefore(b, k + 1).Some?;
    }
  }

  /** In a run of gaps between readings at p and q, the first five gaps are
      interpolated linearly. */
  lemma GapFillShortRun(s: seq<Option<real>>, p: nat, k: nat, q: nat)
    requires p < k < q < |s|
    requires s[p].Some? && s[q].Some?
    requires forall j :: p < j < q ==> s[j].None?
    requires k - p <= InterpolationLimit
    ensures GapFill(s)[k] == Some(Lerp(s[p].value, s[q].value, p, q, k))
  {
    assert LastPresentBefore(s, k) == Some(p);
    assert FirstPresentFrom(s, k) == Some(q);
    var i := Interpolate(s);
    assert i[k].Some?;
    FillStagesKeepPresent(i, k);
    FillStagesKeepPresent(BFill(i), k);
  }

  /** Gaps beyond the fifth of such a run take the reading at q (bfill). */
  lemma GapFillLongRun(s: seq<Option<real>>, p: nat, k: nat, q: nat)
    requires p < k < q < |s|
    requires s[p].Some? && s[q].Some?
    requires forall j :: p < j < q ==> s[j].None?
    requires k - p > InterpolationLimit
    ensures GapFill(s)[k] == s[q]
  {
    var i := Interpolate(s);
    forall j | k <= j < q
      ensures i[j].None?
    {
      assert LastPresentBefore(s, j) == Some(p);
    }
    FillStagesKeepPresent(s, q);
    assert FirstPresentFrom(i, k) == Some(q);
    var b := BFill(i);
    assert b[k] == s[q];
    FillStagesKeepPresent(b, k);
  }

  /** Gaps before the first reading take that reading (bfill). */
  lemma GapFillLeadingRun(s: seq<Option<real>>, k: nat, q: nat)
    requires k < q < |s|
    requires s[q].Some?
    requires forall j :: 0 <= j < q ==> s[j].None?
    ensures GapFill(s)[k] == s[q]
  {
    var i := Interpolate(s);
    forall j | k <= j < q
      ensures i[j].None?
    {
      assert LastPresentBefore(s, j).None?;
    }
    FillStagesKeepPresent(s, q);
    assert FirstPresentFrom(i, k) == Some(q);
    var b := BFill(i);
    FillStagesKeepPresent(b, k);
  }

  /** After the last reading at p, interpolation fills the first five gaps with
      that reading (interp clamps) and leaves the rest. */
  lemma InterpolateAfterLast(s: seq<Option<real>>, p: nat, j: nat)
    requires p < j < |s|
    requires s[p].Some?
    requires forall i :: p < i < |s| ==> s[i].None?
    ensures Interpolate(s)[j] == if j - p <= InterpolationLimit then s[p] else None
  {
    assert LastPresentBefore(s, j) == Some(p);
    assert FirstPresentFrom(s, j).None?;
  }

  /** After the last reading at `last`, bfill leaves the gaps and ffill carries
      that reading forward. */
  lemma FillsAfterLast(t: seq<Option<real>>, last: nat, k: nat)
    requires last < k < |t|
    requires t[last].Some?
    requires forall j :: last < j < |t| ==> t[j].None?
    ensures FFill(BFill(t))[k] == t[last]
  {
    var b := BFill(t);
    forall j | last < j < |t|
      ensures b[j].None?
    {
      assert FirstPresentFrom(t, j).None?;
    }
    FillStagesKeepPresent(t, last);
    assert LastPresentBefore(b, k + 1) == Some(last);
  }

  /** Gaps after the last reading take that reading (interp clamps, then ffill). */
  lemma GapFillTrailingRun(s: seq<Option<real>>, p: nat, k: nat)
    requires p < k < |s|
    requires s[p].Some?
    requires forall j :: p < j < |s| ==> s[j].None?
    ensures GapFill(s)[k] == s[p]
  {
    var i := Interpolate(s);
    if k - p <= InterpolationLimit {
      InterpolateAfterLast(s, p, k);
      FillStagesKeepPresent(i, k);
      FillStagesKeepPresent(BFill(i), k);
    } else {
      var last := p + InterpolationLimit;
      InterpolateAfterLast(s, p, last);
      forall j | last < j < |s|
        ensures i[j].None?
      {
        InterpolateAfterLast(s, p, j);
      }
      FillsAfterLast(i, last, k);
    }
  }

  /** Every reading that is present equals c. */
  predicate PresentAre(s: seq<Option<real>>, c: real)
  {
    forall k :: 0 <= k < |s| && s[k].Some? ==> s[k].value == c
  }

  lemma FillStagesKeepLevel(t: seq<Option<real>>, c: real)
    requires PresentAre(t, c)
    ensures PresentAre(Interpolate(t), c)
    ensures PresentAre(BFill(t), c)
    ensures PresentAre(FFill(t), c)
  {
    forall k | 0 <= k < |t| && Interpolate(t)[k].Some?
      ensures Interpolate(t)[k].value == c
    {
      if t[k].None? && LastPresentBefore(t, k).Some? && FirstPresentFrom(t, k).Some? {
        var p, q := LastPresentBefore(t, k).value, FirstPresentFrom(t, k).value;
        assert q > k > p;
        assert Lerp(t[p].value, t[q].value, p, q, k) == c + (c - c) * (k - p) as real / (q - p) as real;
      }
    }
  }

  /** A signal whose present readings all equal c is filled with c throughout. */
  lemma GapFillConstant(s: seq<Option<real>>, c: real)
    requires AnyPresent(s)
    requires PresentAre(s, c)
    ensures forall k :: 0 <= k < |s| ==> GapFill(s)[k] == Some(c)
  {
    FillStagesKeepLevel(s, c);
    FillStagesKeepLevel(Interpolate(s), c);
    FillStagesKeepLevel(BFill(Interpolate(s)), c);
    GapFillComplete(s);
  }

  // ------------------------------------------------------------ median filter

  predicate Sorted(s: seq<real>)
  {
    forall i, j :: 0 <= i < j < |s| ==> s[i] <= s[j]
  }

  /** Inserts x into a sorted sequence: the result is sorted, holds one more x,
      and starts with the smaller of x and the old first element. */
  function Insert(x: real, s: seq<real>): (r: seq<real>)
    requires Sorted(s)
    ensures Sorted(r)
    ensures multiset(r) == multiset(s) + multiset{x}
    ensures |r| == |s| + 1 && r[0] == (if |s| == 0 || x <= s[0] then x else s[0])
  {
    if |s| == 0 then [x]
    else if x <= s[0] then [x] + s
    else
      assert s == [s[0]] + s[1..];
      var t := Insert(x, s[1..]);
      SortedCons(s[0], t);
      [s[0]] + t
  }

  lemma SortedCons(a: real, t: seq<real>)
    requires Sorted(t) && |t| > 0 && a <= t[0]
    ensures Sorted([a] + t)
  {
    var r := [a] + t;
    forall i, j | 0 <= i < j < |r|
      ensures r[i] <= r[j]
    {
      if i == 0 {
        assert r[j] == t[j - 1] >= t[0];
      } else {
        assert r[i] == t[i - 1] && r[j] == t[j - 1];
      }
    }
  }

  function Sort(s: seq<real>): (r: seq<real>)
    ensures Sorted(r)
    ensures multiset(r) == multiset(s)
  {
    if |s| == 0 then []
    else
      assert s == s[..|s| - 1] + [s[|s| - 1]];
      Insert(s[|s| - 1], Sort(s[..|s| - 1]))
  }

  /** The element of rank |w| / 2 of the sorted window (scipy's order filter
      picks this rank); it is always one of the window's values. */
  function Median(w: seq<real>): (r: real)
    requires |w| > 0
    ensures r in w
  {
    var t := Sort(w);
    assert |t| == |w| by { assert |multiset(t)| == |multiset(w)|; }
    assert t[|w| / 2] in multiset(w);
    t[|w| / 2]
  }

  /** The window of width k centred at i, with zeros outside the sequence. */
  function Window(x: seq<real>, i: int, k: nat): (w: seq<real>)
    ensures |w| == k
  {
    seq(k, j requires 0 <= j < k =>
      var idx := i - k / 2 + j;
      if 0 <= idx < |x| then x[idx] else 0.0)
  }

  /** scipy's medfilt with an odd kernel size. */
  function MedFilt(x: seq<real>, k: nat): (r: seq<real>)
    requires k % 2 == 1
    ensures |r| == |x|
    ensures forall i :: 0 <= i < |x| ==> r[i] in Window(x, i, k)
  {
    seq(|x|, i requires 0 <= i < |x| => Median(Window(x, i, k)))
  }

  /** The middle of a sorted triple holding v twice is v. */
  lemma MiddleOfSortedTriple(t: seq<real>, v: real)
    requires |t| == 3 && Sorted(t) && multiset(t)[v] >= 2
    ensures t[1] == v
  {
    assert t == [t[0]] + [t[1]] + [t[2]];
    assert multiset(t) == multiset{t[0]} + multiset{t[1]} + multiset{t[2]};
    assert multiset(t)[v] ==
      (if t[0] == v then 1 else 0) + (if t[1] == v then 1 else 0) + (if t[2] == v then 1 else 0);
    assert t[0] <= t[1] <= t[2];
  }

  /** A median of three values, two of which equal v, is v. */
  lemma MedianOfThreeMajority(a: real, b: real, c: real, v: real)
    requires (a == v && b == v) || (b == v && c == v) || (a == v && c == v)
    ensures Median([a, b, c]) == v
  {
    var w := [a, b, c];
    assert multiset(w) == multiset{a, b, c};
    var t := Sort(w);
    assert |t| == 3 by { assert |multiset(t)| == |multiset(w)|; }
    MiddleOfSortedTriple(t, v);
  }

  /** The width-3 filter gives v wherever two of the three window values are v. */
  lemma MedFiltAt(x: seq<real>, i: nat, v: real)
    requires i < |x|
    requires var w := Window(x, i, 3);
      (w[0] == v && w[1] == v) || (w[1] == v && w[2] == v) || (w[0] == v && w[2] == v)
    ensures MedFilt(x, 3)[i] == v
  {
    var w := Window(x, i, 3);
    assert w == [w[0], w[1], w[2]];
    MedianOfThreeMajority(w[0], w[1], w[2], v);
  }

  /** A constant signal passes the zero-padded width-3 median filter unchanged
      (a single sample is the exception: its window holds two zeros). */
  lemma MedFiltConstant(x: seq<real>, c: real)
    requires |x| != 1
    requires forall i :: 0 <= i < |x| ==> x[i] == c
    ensures MedFilt(x, 3) == x
  {
    forall i | 0 <= i < |x|
      ensures MedFilt(x, 3)[i] == x[i]
    {
      var w := Window(x, i, 3);
      assert w[1] == c;
      if i == 0 {
        assert w[2] == c;
      } else {
        assert w[0] == c;
      }
      MedFiltAt(x, i, c);
    }
  }

  /** A single spike inside an otherwise constant signal, at least two samples
      away from either end, is removed by the width-3 median filter. */
  lemma MedFiltRemovesSpike(x: seq<real>, c: real, k: nat)
    requires 2 <= k && k + 3 <= |x|
    requires forall i :: 0 <= i < |x| && i != k ==> x[i] == c
    ensures forall i :: 0 <= i < |x| ==> MedFilt(x, 3)[i] == c
  {
    forall i | 0 <= i < |x|
      ensures MedFilt(x, 3)[i] == c
    {
      var w := Window(x, i, 3);
      if i == k {
        assert w[0] == c && w[2] == c;
      } else if i == 0 {
        assert w[1] == c && w[2] == c;
      } else if i == |x| - 1 {
        assert w[0] == c && w[1] == c;
      } else {
        assert w[1] == c;
        assert w[0] == c || w[2] == c;
      }
      MedFiltAt(x, i, c);
    }
  }
}
