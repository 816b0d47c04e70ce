/** Remaining-useful-life estimates: the time-bucketing of a step count
    (one step is one second) and the texts the analyzer reports. */
module Rul {
  import Stats

  /** |slope| below this counts as no drift. */
  const StableSlope: real := 0.000001
  const SecondsPerMinute: real := 60.0
  const SecondsPerHour: real := 3600.0
  const SecondsPerDay: real := 86400.0
  const SecondsPerYear: real := 31536000.0

  datatype Estimate =
    | StableOverYear
    | ThresholdExceeded
    | Days(days: nat)
    | Hours(hours: nat)
    | Mins(mins: nat)

  /** Whole units of `unit` in `x` (Python's int() on a non-negative value). */
  function Whole(x: real, unit: real): (r: nat)
    requires x >= 0.0 && unit > 0.0
    ensures (r as real) * unit <= x
    ensures x < (r as real) * unit + unit
  {
    var q := x / unit;
    var f := q.Floor;
    var fr := f as real;
    assert fr <= q < fr + 1.0;
    assert x == q * unit;
    var below, above := q - fr, fr + 1.0 - q;
    Stats.ProductNonNegative(below, unit);
    Stats.ProductPositive(above, unit);
    assert below * unit == x - fr * unit;
    assert above * unit == fr * unit + unit - x;
    assert x < fr * unit + unit;
    assert f >= 0;
    f
  }

  /** Strict descending thresholds of a year, a day and an hour. */
  function Bucket(steps: real): (e: Estimate)
    requires steps > 0.0
    ensures e.StableOverYear? <==> steps > SecondsPerYear
    ensures e.Days? <==> SecondsPerDay < steps <= SecondsPerYear
    ensures e.Hours? <==> SecondsPerHour < steps <= SecondsPerDay
    ensures e.Mins? <==> steps <= SecondsPerHour
    ensures e.Days? ==> 1 <= e.days <= 365
    ensures e.Hours? ==> 1 <= e.hours <= 24
    ensures e.Mins? ==> 0 <= e.mins <= 60
    ensures !e.ThresholdExceeded?
  {
    if steps > SecondsPerYear then StableOverYear
    else if steps > SecondsPerDay then Days(Whole(steps, SecondsPerDay))
    else if steps > SecondsPerHour then Hours(Whole(steps, SecondsPerHour))
    else Mins(Whole(steps, SecondsPerMinute))
  }

  /** The decimal digits of n, as Python's str() writes them. */
  function NatToString(n: nat): (s: string)
    ensures |s| >= 1
    ensures forall i :: 0 <= i < |s| ==> '0' <= s[i] <= '9'
    ensures n < 10 <==> |s| == 1
  {
    var d := Digit(n % 10);
    if n < 10 then [d] else NatToString(n / 10) + [d]
  }

  /** The character of a decimal digit. */
  function Digit(k: nat): (c: char)
    requires k < 10
    ensures '0' <= c <= '9' && (c as int) - ('0' as int) == k
  {
    ('0' as int + k) as char
  }

  /** The number a string of decimal digits denotes, most significant first. */
  function DigitsValue(s: string): nat
  {
    if |s| == 0 then 0
    else
      var c := s[|s| - 1];
      DigitsValue(s[..|s| - 1]) * 10 + (if '0' <= c <= '9' then (c as int) - ('0' as int) else 0)
  }

  /** The digits NatToString writes spell n. */
  lemma {:induction false} NatToStringValue(n: nat)
    ensures DigitsValue(NatToString(n)) == n
  {
    var s := NatToString(n);
    if n >= 10 {
      NatToStringValue(n / 10);
      assert s[..|s| - 1] == NatToString(n / 10);
    }
    assert s[|s| - 1] == Digit(n % 10);
  }

  function Text(e: Estimate): string
  {
    match e
    case StableOverYear => "Stable (> 1 year)"
    case ThresholdExceeded => "Critical Threshold Exceeded"
    case Days(d) => NatToString(d) + " days"
    case Hours(h) => NatToString(h) + " hours"
    case Mins(m) => NatToString(m) + " mins"
  }

  /** How far the end of the fitted line may still move in the direction of
      the slope before it leaves data[0] +/- limit. */
  function Headroom(data: seq<real>, slope: real, limit: real): real
    requires |data| >= 2
  {
    var current := slope * (|data| - 1) as real + Stats.OlsIntercept(data);
    if slope > 0.0 then (data[0] + limit) - current else current - (data[0] - limit)
  }

  /** On an exact line the headroom is the limit less the drift accumulated
      since the first reading. */
  lemma HeadroomOfLine(data: seq<real>, a: real, b: real, limit: real)
    requires |data| >= 2
    requires forall i :: 0 <= i < |data| ==> data[i] == a + b * i as real
    ensures Headroom(data, b, limit) == limit - Stats.Abs(b) * (|data| - 1) as real
  {
    Stats.OlsOfLine(data, a, b);
    assert data[0] == a + b * 0 as real;
  }
}
