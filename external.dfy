/** The numerical library routines the analyzer calls but whose internals are
    not modelled: they are taken as total functions supplied by the caller. */
module External {
  import opened Wrappers

  datatype Library = Library(
    /** scipy's savgol_filter(data, window, polyorder); None when it raises. */
    savgol: (seq<real>, int, int) -> Option<seq<real>>,
    /** The square root behind numpy's std. */
    sqrt: real -> real,
    /** The SNR in dB of a cleaned sequence (calc_snr_db). */
    snrDb: seq<real> -> real,
    /** np.unique(np.logspace(log10(lo), log10(hi), 20).astype(int)). */
    logScales: (int, int) -> seq<int>,
    /** Slope and R^2 of the least-squares line of log F against log scale,
        given the scales and their squared fluctuations. */
    logLogFit: (seq<int>, seq<real>) -> (real, real))
  {
    /** What the real routines guarantee and the analyzer relies on: the filter
        keeps the length of its input, the square root of a non-negative number
        is its non-negative root, and the log-spaced candidates do not exceed
        the upper end of their range. */
    ghost predicate Valid()
    {
      && (forall x :: x >= 0.0 ==> sqrt(x) >= 0.0 && sqrt(x) * sqrt(x) == x)
      && (forall d, w, p :: savgol(d, w, p).Some? ==> |savgol(d, w, p).value| == |d|)
      && (forall lo, hi, j :: 0 <= j < |logScales(lo, hi)| ==> logScales(lo, hi)[j] <= hi)
    }
  }
}
