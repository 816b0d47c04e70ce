/** Window arithmetic of the trend/residual decomposition. */
module Decompose {
  import opened Wrappers
  import opened External
  import opened Preprocess

  /** Savitzky-Golay window: min(len, 51), made odd by stepping down, at least 3. */
  function WindowLength(n: nat): (w: int)
    ensures w % 2 == 1
    ensures 3 <= w <= 51
    ensures n >= 3 ==> w <= n
    ensures 51 <= n ==> w == 51
  {
    var w0 := if n < 51 then n else 51;
    var w1 := if w0 % 2 == 0 then w0 - 1 else w0;
    if w1 < 3 then 3 else w1
  }

  /** Polynomial order 3, reduced to w - 1 when the window is too short for it. */
  function PolyOrder(w: int): (p: int)
    requires w >= 3
    ensures 0 <= p < w
    ensures p == 3 <==> w != 3
    ensures w == 3 ==> p == 2
  {
    if w <= 3 then w - 1 else 3
  }

  /** Kernel of the median-filter fallback: min(len, 11), stepped down to odd. */
  function MedianKernel(n: nat): (k: int)
    ensures n >= 1 ==> 1 <= k <= 11 && k <= n && k % 2 == 1
    ensures n >= 11 ==> k == 11
    ensures n == 0 ==> k == -1
  {
    var m := if n < 11 then n else 11;
    if m % 2 == 1 then m else m - 1
  }

  /** The window is the largest odd size within both the sequence and 51. */
  lemma WindowLengthIsLargestOdd(n: nat, v: int)
    requires n >= 3
    requires v % 2 == 1 && 3 <= v <= 51 && v <= n
    ensures v <= WindowLength(n)
  {
  }

  function Zeros(n: nat): (r: seq<real>)
    ensures |r| == n
    ensures forall i :: 0 <= i < n ==> r[i] == 0.0
  {
    seq(n, i => 0.0)
  }

  /** The trend of a long enough sequence: the Savitzky-Golay fit when the
      filter succeeds, otherwise the median filter with the fallback kernel. */
  function Trend(data: seq<real>, lib: Library): (t: seq<real>)
    requires lib.Valid()
    ensures |t| == |data|
    ensures lib.savgol(data, WindowLength(|data|), PolyOrder(WindowLength(|data|))).Some? ==>
      t == lib.savgol(data, WindowLength(|data|), PolyOrder(WindowLength(|data|))).value
    ensures lib.savgol(data, WindowLength(|data|), PolyOrder(WindowLength(|data|))).None? ==>
      forall i :: 0 <= i < |data| ==> t[i] in Window(data, i, MedianKernel(|data|))
  {
    var w := WindowLength(|data|);
    match lib.savgol(data, w, PolyOrder(w))
    case Some(fit) => fit
    case None => if |data| == 0 then [] else MedFilt(data, MedianKernel(|data|))
  }
}
