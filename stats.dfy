/** Exact statistics over finite sequences of readings: sums, means, population
    variance, range and the ordinary least-squares line through (index, value). */
module Stats {

  function Sum(s: seq<real>): real
  {
    if |s| == 0 then 0.0 else Sum(s[..|s| - 1]) + s[|s| - 1]
  }

  function Mean(s: seq<real>): real
    requires |s| > 0
  {
    Sum(s) / |s| as real
  }

  /** Squared deviations of every element from `m`. */
  function SquaredDeviations(s: seq<real>, m: real): (r: seq<real>)
    ensures |r| == |s|
    ensures forall i :: 0 <= i < |s| ==> r[i] == (s[i] - m) * (s[i] - m)
  {
    seq(|s|, i requires 0 <= i < |s| => (s[i] - m) * (s[i] - m))
  }

  /** The square of numpy's std (ddof = 0). */
  function Variance(s: seq<real>): real
    requires |s| > 0
  {
    Mean(SquaredDeviations(s, Mean(s)))
  }

  function Abs(x: real): (r: real)
    ensures r >= 0.0 && (r == x || r == -x)
  {
    if x < 0.0 then -x else x
  }

  function Max(s: seq<real>): real
    requires |s| > 0
  {
    if |s| == 1 then s[0]
    else var m := Max(s[..|s| - 1]); if s[|s| - 1] > m then s[|s| - 1] else m
  }

  function Min(s: seq<real>): real
    requires |s| > 0
  {
    if |s| == 1 then s[0]
    else var m := Min(s[..|s| - 1]); if s[|s| - 1] < m then s[|s| - 1] else m
  }

  /** numpy's ptp: largest minus smallest element. */
  function Ptp(s: seq<real>): real
    requires |s| > 0
  {
    Max(s) - Min(s)
  }

  /** Element-wise difference of two sequences of equal length. */
  function Minus(a: seq<real>, b: seq<real>): (r: seq<real>)
    requires |a| == |b|
    ensures |r| == |a|
    ensures forall i :: 0 <= i < |a| ==> r[i] == a[i] - b[i]
  {
    seq(|a|, i requires 0 <= i < |a| => a[i] - b[i])
  }

  /** The sample indices 0, 1, ..., n-1 as reals (numpy's arange). */
  function Index(n: nat): (r: seq<real>)
    ensures |r| == n
    ensures forall i :: 0 <= i < n ==> r[i] == i as real
  {
    seq(n, i requires 0 <= i < n => i as real)
  }

  /** Mean of the indices 0..n-1. */
  function IndexMean(n: nat): real
  {
    (n as real - 1.0) / 2.0
  }

  function CentredSquares(n: nat): (r: seq<real>)
    ensures |r| == n
  {
    SquaredDeviations(Index(n), IndexMean(n))
  }

  /** Sum of centred cross products of index and value. */
  function CentredProducts(y: seq<real>): (r: seq<real>)
    requires |y| > 0
    ensures |r| == |y|
    ensures forall i :: 0 <= i < |y| ==> r[i] == (i as real - IndexMean(|y|)) * (y[i] - Mean(y))
  {
    var xm, ym := IndexMean(|y|), Mean(y);
    seq(|y|, i requires 0 <= i < |y| => (i as real - xm) * (y[i] - ym))
  }

  /** Ordinary least-squares slope of value against index (scipy's linregress). */
  function OlsSlope(y: seq<real>): real
    requires |y| >= 2
  {
    CentredSquaresPositive(|y|);
    Sum(CentredProducts(y)) / Sum(CentredSquares(|y|))
  }

  /** Ordinary least-squares intercept at index 0. */
  function OlsIntercept(y: seq<real>): real
    requires |y| >= 2
  {
    Mean(y) - OlsSlope(y) * IndexMean(|y|)
  }

  // ---------------------------------------------------------------- lemmas

  /** Sum is linear: if a[i] == k * b[i] + d pointwise, then so are the sums. */
  lemma {:induction false} SumAffine(a: seq<real>, b: seq<real>, k: real, d: real)
    requires |a| == |b|
    requires forall i :: 0 <= i < |a| ==> a[i] == k * b[i] + d
    ensures Sum(a) == k * Sum(b) + |a| as real * d
  {
    if |a| > 0 {
      var n := |a| - 1;
      SumAffine(a[..n], b[..n], k, d);
      calc {
        Sum(a);
        Sum(a[..n]) + a[n];
        (k * Sum(b[..n]) + n as real * d) + (k * b[n] + d);
        k * (Sum(b[..n]) + b[n]) + (n as real + 1.0) * d;
      }
    }
  }

  lemma SumConst(s: seq<real>, c: real)
    requires forall i :: 0 <= i < |s| ==> s[i] == c
    ensures Sum(s) == |s| as real * c
  {
    SumAffine(s, s, 0.0, c);
  }

  lemma {:induction false} SumIndex(n: nat)
    ensures Sum(Index(n)) == n as real * (n as real - 1.0) / 2.0
  {
    if n > 0 {
      assert Index(n)[..n - 1] == Index(n - 1);
      SumIndex(n - 1);
    }
  }

  /** A sum lies between |s| times a lower and an upper bound of its elements. */
  lemma {:induction false} SumBounds(s: seq<real>, lo: real, hi: real)
    requires forall i :: 0 <= i < |s| ==> lo <= s[i] <= hi
    ensures |s| as real * lo <= Sum(s) <= |s| as real * hi
  {
    if |s| > 0 {
      SumBounds(s[..|s| - 1], lo, hi);
    }
  }

  lemma {:induction false} SumNonNegative(s: seq<real>)
    requires forall i :: 0 <= i < |s| ==> s[i] >= 0.0
    ensures Sum(s) >= 0.0
  {
    if |s| > 0 {
      SumNonNegative(s[..|s| - 1]);
    }
  }

  /** A sum of non-negative terms is at least each of them. */
  lemma {:induction false} SumAtLeastTerm(s: seq<real>, j: nat)
    requires forall i :: 0 <= i < |s| ==> s[i] >= 0.0
    requires j < |s|
    ensures Sum(s) >= s[j]
  {
    var n := |s| - 1;
    if j < n {
      SumAtLeastTerm(s[..n], j);
    } else {
      SumNonNegative(s[..n]);
    }
  }

  lemma SquareNonNegative(x: real)
    ensures x * x >= 0.0
  {
    if x < 0.0 {
      ProductPositive(-x, -x);
      assert (-x) * (-x) == x * x;
    } else {
      ProductNonNegative(x, x);
    }
  }

  /** numpy's variance is never negative. */
  lemma VarianceNonNegative(s: seq<real>)
    requires |s| > 0
    ensures Variance(s) >= 0.0
  {
    var m := Mean(s);
    var d := SquaredDeviations(s, m);
    forall i | 0 <= i < |d|
      ensures d[i] >= 0.0
    {
      SquareNonNegative(s[i] - m);
    }
    SumNonNegative(d);
    assert Variance(s) == Sum(d) / |d| as real;
  }

  /** Adding c to every element adds c to the mean. */
  lemma MeanShift(a: seq<real>, b: seq<real>, c: real)
    requires |a| == |b| > 0
    requires forall i :: 0 <= i < |a| ==> a[i] == b[i] + c
    ensures Mean(a) == Mean(b) + c
  {
    SumAffine(a, b, 1.0, c);
    var n := |a| as real;
    assert Sum(a) == Sum(b) + n * c;
    assert (n * c) / n == c;
    assert (Sum(b) + n * c) / n == Sum(b) / n + (n * c) / n;
  }

  lemma MeanBounds(s: seq<real>, lo: real, hi: real)
    requires |s| > 0
    requires forall i :: 0 <= i < |s| ==> lo <= s[i] <= hi
    ensures lo <= Mean(s) <= hi
  {
    SumBounds(s, lo, hi);
  }

  lemma MeanConst(s: seq<real>, c: real)
    requires |s| > 0
    requires forall i :: 0 <= i < |s| ==> s[i] == c
    ensures Mean(s) == c
  {
    SumConst(s, c);
  }

  lemma VarianceConst(s: seq<real>, c: real)
    requires |s| > 0
    requires forall i :: 0 <= i < |s| ==> s[i] == c
    ensures Variance(s) == 0.0
  {
    MeanConst(s, c);
    var d := SquaredDeviations(s, Mean(s));
    forall i | 0 <= i < |d|
      ensures d[i] == 0.0
    {
      assert s[i] - Mean(s) == 0.0;
    }
    MeanConst(d, 0.0);
  }

  lemma {:induction false} MaxMinBounds(s: seq<real>)
    requires |s| > 0
    ensures forall i :: 0 <= i < |s| ==> Min(s) <= s[i] <= Max(s)
  {
    if |s| > 1 {
      MaxMinBounds(s[..|s| - 1]);
      assert forall i :: 0 <= i < |s| - 1 ==> s[..|s| - 1][i] == s[i];
    }
  }

  /** A sequence with no spread is constant. */
  lemma PtpZeroConstant(s: seq<real>)
    requires |s| > 0
    requires Ptp(s) == 0.0
    ensures forall i :: 0 <= i < |s| ==> s[i] == s[0]
  {
    MaxMinBounds(s);
  }

  /** For two or more points the index spread is strictly positive, so the
      least-squares slope never divides by zero. */
  lemma CentredSquaresPositive(n: nat)
    requires n >= 2
    ensures Sum(CentredSquares(n)) > 0.0
  {
    var c := CentredSquares(n);
    var m := IndexMean(n);
    forall i | 0 <= i < n
      ensures c[i] >= 0.0
    {
      var u := i as real - m;
      assert c[i] == u * u;
    }
    SumAtLeastTerm(c, 0);
    assert c[0] == m * m;
  }

  /** The mean of a straight line a + b*i over i = 0..n-1. */
  lemma MeanOfLine(y: seq<real>, a: real, b: real)
    requires |y| > 0
    requires forall i :: 0 <= i < |y| ==> y[i] == a + b * i as real
    ensures Mean(y) == a + b * IndexMean(|y|)
  {
    var n := |y| as real;
    SumAffine(y, Index(|y|), b, a);
    SumIndex(|y|);
    var h := IndexMean(|y|);
    assert Sum(Index(|y|)) == n * h;
    assert Sum(y) == b * (n * h) + n * a;
    assert Sum(y) == n * (a + b * h);
  }

  /** On a line of slope b each centred product is b times the centred square. */
  lemma CentredProductOfLine(y: seq<real>, a: real, b: real, i: nat)
    requires i < |y|
    requires y[i] == a + b * i as real
    requires Mean(y) == a + b * IndexMean(|y|)
    ensures CentredProducts(y)[i] == b * CentredSquares(|y|)[i] + 0.0
  {
    var x, xm := Index(|y|)[i], IndexMean(|y|);
    assert CentredSquares(|y|)[i] == (x - xm) * (x - xm);
    LineTerm(y[i], Mean(y), a, b, x, xm);
  }

  lemma LineTerm(yi: real, mean: real, a: real, b: real, x: real, xm: real)
    requires yi == a + b * x && mean == a + b * xm
    ensures (x - xm) * (yi - mean) == b * ((x - xm) * (x - xm)) + 0.0
  {
    var u := x - xm;
    Distribute(b, x, xm);
    assert yi - mean == b * u;
    Rearrange(u, b);
  }

  /** On a line of slope b the centred products sum to b times the centred squares. */
  lemma CentredSumOfLine(y: seq<real>, a: real, b: real)
    requires |y| >= 2
    requires forall i :: 0 <= i < |y| ==> y[i] == a + b * i as real
    ensures Sum(CentredProducts(y)) == b * Sum(CentredSquares(|y|))
  {
    var p, q := CentredProducts(y), CentredSquares(|y|);
    MeanOfLine(y, a, b);
    forall i | 0 <= i < |y|
      ensures p[i] == b * q[i] + 0.0
    {
      CentredProductOfLine(y, a, b, i);
    }
    SumAffine(p, q, b, 0.0);
  }

  lemma DivideOut(b: real, d: real)
    requires d != 0.0
    ensures (b * d) / d == b
  {
  }

  /** Least squares recovers a straight line exactly: slope b and intercept a. */
  lemma OlsOfLine(y: seq<real>, a: real, b: real)
    requires |y| >= 2
    requires forall i :: 0 <= i < |y| ==> y[i] == a + b * i as real
    ensures OlsSlope(y) == b
    ensures OlsIntercept(y) == a
  {
    CentredSumOfLine(y, a, b);
    CentredSquaresPositive(|y|);
    DivideOut(b, Sum(CentredSquares(|y|)));
    MeanOfLine(y, a, b);
  }

  lemma Distribute(b: real, x: real, m: real)
    ensures b * x - b * m == b * (x - m)
  {
  }

  lemma Rearrange(u: real, b: real)
    ensures u * (b * u) == b * (u * u) + 0.0
  {
  }

  // ------------------------------------------------- selection by a predicate

  /** np.where(p(s))[0]: the indices, in increasing order, where p holds. */
  function Where(s: seq<real>, p: real -> bool): (r: seq<nat>)
    ensures forall j :: 0 <= j < |r| ==> r[j] < |s| && p(s[r[j]])
    ensures forall i :: 0 <= i < |s| && p(s[i]) ==> i in r
    ensures forall j, k :: 0 <= j < k < |r| ==> r[j] < r[k]
    ensures r == [] <==> forall i :: 0 <= i < |s| ==> !p(s[i])
  {
    if |s| == 0 then []
    else
      var n := |s| - 1;
      assert forall i :: 0 <= i < n ==> s[..n][i] == s[i];
      Where(s[..n], p) + (if p(s[n]) then [n] else [])
  }

  /** s[idx]: the elements at the given indices. */
  function Select<T>(s: seq<T>, idx: seq<nat>): (r: seq<T>)
    requires forall j :: 0 <= j < |idx| ==> idx[j] < |s|
    ensures |r| == |idx|
    ensures forall j :: 0 <= j < |idx| ==> r[j] == s[idx[j]]
  {
    seq(|idx|, j requires 0 <= j < |idx| => s[idx[j]])
  }

  // ------------------------------------------------------ squares of reals

  lemma ProductPositive(x: real, y: real)
    requires x > 0.0 && y > 0.0
    ensures x * y > 0.0
  {
  }

  lemma ProductNonNegative(x: real, y: real)
    requires x >= 0.0 && y >= 0.0
    ensures x * y >= 0.0
  {
  }

  lemma SquareStrictlyIncreasing(x: real, y: real)
    requires 0.0 <= x < y
    ensures x * x < y * y
  {
    ProductPositive(y - x, y + x);
    assert y * y - x * x == (y - x) * (y + x);
  }

  lemma SquareIncreasing(x: real, y: real)
    requires 0.0 <= x <= y
    ensures x * x <= y * y
  {
    ProductNonNegative(y - x, y + x);
    assert y * y - x * x == (y - x) * (y + x);
  }
}
