/** The health rule engine: per-rule flags, their penalties, the clamped score,
    the status bands, the diagnosis text and the recommendation. */
module Health {
  import opened Config
  import opened Stats

  datatype Flag =
    | ProcessChange | DriftCritical | ProcessVar | DriftWarning
    | BiasCritical | BiasWarning
    | NoiseCritical | LowSnrCritical | LowSnrWarning
    | HysteresisFlag
    | DfaUnreliable | DfaPersistence | DfaAntipersistence

  /** The flag codes as the analyzer reports them. */
  function FlagName(f: Flag): string
  {
    match f
    case ProcessChange => "PROCESS_CHANGE"
    case DriftCritical => "DRIFT_CRITICAL"
    case ProcessVar => "PROCESS_VAR"
    case DriftWarning => "DRIFT_WARNING"
    case BiasCritical => "BIAS_CRITICAL"
    case BiasWarning => "BIAS_WARNING"
    case NoiseCritical => "NOISE_CRITICAL"
    case LowSnrCritical => "LOW_SNR_CRITICAL"
    case LowSnrWarning => "LOW_SNR_WARNING"
    case HysteresisFlag => "HYSTERESIS"
    case DfaUnreliable => "DFA_UNRELIABLE"
    case DfaPersistence => "DFA_PERSISTENCE"
    case DfaAntipersistence => "DFA_ANTIPERSISTENCE"
  }

  /** The diagnosis text a rule appends together with its flag. */
  function Message(f: Flag): string
  {
    match f
    case ProcessChange => "Process Parameter Change Detected"
    case DriftCritical => "Critical Drift (Unstable)"
    case ProcessVar => "Minor Process Variation"
    case DriftWarning => "Moderate Trend Drift"
    case BiasCritical => "Significant Bias Shift"
    case BiasWarning => "Minor Bias Shift"
    case NoiseCritical => "High Sensor Noise"
    case LowSnrCritical => "Critical Signal Quality (SNR)"
    case LowSnrWarning => "Noisy Signal"
    case HysteresisFlag => "Hysteresis Detected"
    case DfaUnreliable => "DFA Unreliable (Low R2)"
    case DfaPersistence => "Strong Persistence (Drift/Memory)"
    case DfaAntipersistence => "Strong Anti-persistence"
  }

  /** Points a rule subtracts when it raises the flag. */
  function Penalty(f: Flag): real
  {
    match f
    case ProcessChange => 10.0
    case DriftCritical => 25.0
    case ProcessVar => 0.0
    case DriftWarning => 15.0
    case BiasCritical => 20.0
    case BiasWarning => 10.0
    case NoiseCritical => 20.0
    case LowSnrCritical => 15.0
    case LowSnrWarning => 5.0
    case HysteresisFlag => 10.0
    case DfaUnreliable => 0.0
    case DfaPersistence => 30.0
    case DfaAntipersistence => 10.0
  }

  datatype Status = Green | Yellow | Red

  function StatusName(s: Status): string
  {
    match s
    case Green => "Green"
    case Yellow => "Yellow"
    case Red => "Red"
  }

  datatype Verdict = Verdict(
    score: real,
    status: Status,
    diagnosis: string,
    flags: seq<Flag>,
    recommendation: string)

  // Heuristic constants written into the rules rather than the configuration.
  const NoiseClean: real := 0.5
  const NoiseHigh: real := 2.0
  const SnrCritical: real := 10.0
  const SnrWarning: real := 20.0
  const R2Reliable: real := 0.9
  const HurstAntipersistent: real := 0.2

  const DefaultRecommendation: string := "System operating normally."
  const NormalDiagnosis: string := "System Normal"

  /** dict.get(key, default). */
  function Get(m: map<string, real>, key: string, default: real): real
  {
    if key in m then m[key] else default
  }

  /** The scalar metrics dictionary the analyzer hands to the scorer: each
      reading under its key, so none of the rules falls back to a default. */
  function MetricsMap(bias: real, slope: real, noiseStd: real, snrDb: real, hysteresis: real,
                      hurst: real, hurstR2: real): (m: map<string, real>)
    ensures Get(m, "bias", 0.0) == bias && Get(m, "slope", 0.0) == slope
    ensures Get(m, "noise_std", 0.0) == noiseStd && Get(m, "snr_db", 100.0) == snrDb
    ensures Get(m, "hysteresis", 0.0) == hysteresis
    ensures Get(m, "hurst", 0.5) == hurst && Get(m, "hurst_r2", 0.0) == hurstR2
  {
    map[
      "bias" := bias, "slope" := slope, "noise_std" := noiseStd, "snr_db" := snrDb,
      "hysteresis" := hysteresis, "hurst" := hurst, "hurst_r2" := hurstR2]
  }

  // ----------------------------------------------------------------- rules

  /** Drift against the slope thresholds, split by noise into process change
      and fault. */
  function SlopeRule(m: map<string, real>, cfg: SensorConfig): seq<Flag>
  {
    var slope, noise := Abs(Get(m, "slope", 0.0)), Get(m, "noise_std", 0.0);
    if slope > cfg.slopeCritical then (if noise < NoiseClean then [ProcessChange] else [DriftCritical])
    else if slope > cfg.slopeWarning then (if noise < NoiseClean then [ProcessVar] else [DriftWarning])
    else []
  }

  function BiasRule(m: map<string, real>, cfg: SensorConfig): seq<Flag>
  {
    var bias := Abs(Get(m, "bias", 0.0));
    if bias > cfg.biasCritical then [BiasCritical]
    else if bias > cfg.biasWarning then [BiasWarning]
    else []
  }

  function NoiseRule(m: map<string, real>): seq<Flag>
  {
    var noise, snr := Get(m, "noise_std", 0.0), Get(m, "snr_db", 100.0);
    if noise > NoiseHigh then [NoiseCritical]
    else if snr < SnrCritical then [LowSnrCritical]
    else if snr < SnrWarning then [LowSnrWarning]
    else []
  }

  function HysteresisRule(m: map<string, real>, cfg: SensorConfig): seq<Flag>
  {
    if Get(m, "hysteresis", 0.0) > cfg.hysteresisCritical then [HysteresisFlag] else []
  }

  function DfaRule(m: map<string, real>, cfg: SensorConfig): seq<Flag>
  {
    var hurst, r2 := Get(m, "hurst", 0.5), Get(m, "hurst_r2", 0.0);
    if r2 < R2Reliable then [DfaUnreliable]
    else if hurst > cfg.dfaCritical then [DfaPersistence]
    else if hurst < HurstAntipersistent then [DfaAntipersistence]
    else []
  }

  /** The flags raised by the five rules, in rule order. */
  function RuleFlags(m: map<string, real>, cfg: SensorConfig): seq<Flag>
  {
    SlopeRule(m, cfg) + BiasRule(m, cfg) + NoiseRule(m) + HysteresisRule(m, cfg) + DfaRule(m, cfg)
  }

  /** The points the raised flags cost; no flag earns points back. */
  function TotalPenalty(flags: seq<Flag>): (r: real)
    ensures r >= 0.0
    ensures forall i :: 0 <= i < |flags| ==> r >= Penalty(flags[i])
  {
    if |flags| == 0 then 0.0 else TotalPenalty(flags[..|flags| - 1]) + Penalty(flags[|flags| - 1])
  }

  function Clamp(x: real): (r: real)
    ensures 0.0 <= r <= 100.0
    ensures 0.0 <= x <= 100.0 ==> r == x
  {
    if x < 0.0 then 0.0 else if x > 100.0 then 100.0 else x
  }

  function StatusOf(score: real): Status
  {
    if score < 60.0 then Red else if score < 85.0 then Yellow else Green
  }

  function Messages(flags: seq<Flag>): (r: seq<string>)
    ensures |r| == |flags|
    ensures forall i :: 0 <= i < |flags| ==> r[i] == Message(flags[i])
  {
    seq(|flags|, i requires 0 <= i < |flags| => Message(flags[i]))
  }

  /** The diagnosis entries: one per flag, or "System Normal" when none. */
  function Diagnoses(flags: seq<Flag>): seq<string>
  {
    if |flags| == 0 then [NormalDiagnosis] else Messages(flags)
  }

  /** "; ".join(xs). */
  function Join(xs: seq<string>, sep: string): string
  {
    if |xs| == 0 then ""
    else if |xs| == 1 then xs[0]
    else Join(xs[..|xs| - 1], sep) + sep + xs[|xs| - 1]
  }

  /** The slope rule is the only one that sets the recommendation. */
  function RecommendationOf(slopeFlags: seq<Flag>): string
  {
    if ProcessChange in slopeFlags then "Verify process settings."
    else if DriftCritical in slopeFlags then "Immediate calibration required."
    else if DriftWarning in slopeFlags then "Schedule maintenance check."
    else DefaultRecommendation
  }

  /** The verdict for a list of raised flags and the slope rule's recommendation. */
  function VerdictOf(flags: seq<Flag>, recommendation: string): Verdict
  {
    var score := Clamp(100.0 - TotalPenalty(flags));
    Verdict(score, StatusOf(score), Join(Diagnoses(flags), "; "), flags, recommendation)
  }

  /** The verdict the scorer returns, stated rule by rule. */
  function Score(m: map<string, real>, cfg: SensorConfig): Verdict
  {
    VerdictOf(RuleFlags(m, cfg), RecommendationOf(SlopeRule(m, cfg)))
  }

  // ---------------------------------------------------------------- lemmas

  lemma {:induction false} TotalPenaltyAppend(a: seq<Flag>, b: seq<Flag>)
    ensures TotalPenalty(a + b) == TotalPenalty(a) + TotalPenalty(b)
  {
    if |b| == 0 {
      assert a + b == a;
    } else {
      var n := |b| - 1;
      assert (a + b)[..|a + b| - 1] == a + b[..n];
      assert (a + b)[|a + b| - 1] == b[n];
      TotalPenaltyAppend(a, b[..n]);
    }
  }

  lemma PenaltyOfAtMostOne(fs: seq<Flag>)
    requires |fs| <= 1
    ensures TotalPenalty(fs) == if |fs| == 0 then 0.0 else Penalty(fs[0])
  {
    if |fs| == 1 {
      assert fs[..0] == [];
    }
  }

  /** Which of the five rules (0 slope, 1 bias, 2 noise, 3 hysteresis, 4 DFA)
      can raise a flag. */
  function RuleOf(f: Flag): nat
  {
    match f
    case ProcessChange | DriftCritical | ProcessVar | DriftWarning => 0
    case BiasCritical | BiasWarning => 1
    case NoiseCritical | LowSnrCritical | LowSnrWarning => 2
    case HysteresisFlag => 3
    case DfaUnreliable | DfaPersistence | DfaAntipersistence => 4
  }

  /** The flags of rule k: at most one, all of that rule. */
  function RuleFlagsOf(k: nat, m: map<string, real>, cfg: SensorConfig): (r: seq<Flag>)
    requires k < 5
    ensures |r| <= 1
    ensures forall i :: 0 <= i < |r| ==> RuleOf(r[i]) == k
  {
    [SlopeRule(m, cfg), BiasRule(m, cfg), NoiseRule(m), HysteresisRule(m, cfg), DfaRule(m, cfg)][k]
  }

  /** The flags of rules 0..k-1, concatenated. */
  function FirstRules(k: nat, m: map<string, real>, cfg: SensorConfig): seq<Flag>
    requires k <= 5
  {
    if k == 0 then [] else FirstRules(k - 1, m, cfg) + RuleFlagsOf(k - 1, m, cfg)
  }

  lemma RuleFlagsAreFirstRules(m: map<string, real>, cfg: SensorConfig)
    ensures RuleFlags(m, cfg) == FirstRules(5, m, cfg)
  {
    var s, b, n, h, d := SlopeRule(m, cfg), BiasRule(m, cfg), NoiseRule(m), HysteresisRule(m, cfg), DfaRule(m, cfg);
    assert FirstRules(1, m, cfg) == s by { assert FirstRules(0, m, cfg) == []; assert [] + s == s; }
    assert FirstRules(2, m, cfg) == s + b;
    assert FirstRules(3, m, cfg) == s + b + n;
    assert FirstRules(4, m, cfg) == s + b + n + h;
  }

  /** The largest penalty rule k can cost. */
  function RuleMaxPenalty(k: nat): real
    requires k < 5
  {
    [25.0, 20.0, 20.0, 10.0, 30.0][k]
  }

  lemma PenaltyWithinRule(f: Flag)
    ensures 0.0 <= Penalty(f) <= RuleMaxPenalty(RuleOf(f))
  {
  }

  /** The largest penalties of rules 0..k-1, summed. */
  function MaxPenaltyOfFirst(k: nat): real
    requires k <= 5
  {
    if k == 0 then 0.0 else MaxPenaltyOfFirst(k - 1) + RuleMaxPenalty(k - 1)
  }

  predicate InRuleOrder(fs: seq<Flag>)
  {
    forall i, j :: 0 <= i < j < |fs| ==> RuleOf(fs[i]) < RuleOf(fs[j])
  }

  lemma InRuleOrderAppend(a: seq<Flag>, b: seq<Flag>, k: nat)
    requires InRuleOrder(a) && forall i :: 0 <= i < |a| ==> RuleOf(a[i]) < k
    requires |b| <= 1 && forall i :: 0 <= i < |b| ==> RuleOf(b[i]) == k
    ensures InRuleOrder(a + b)
    ensures forall i :: 0 <= i < |a + b| ==> RuleOf((a + b)[i]) < k + 1
  {
  }

  /** The flags of rules 0..k-1 appear in rule order, at most one per rule. */
  lemma {:induction false} FirstRulesOrdered(k: nat, m: map<string, real>, cfg: SensorConfig)
    requires k <= 5
    ensures |FirstRules(k, m, cfg)| <= k
    ensures forall i :: 0 <= i < |FirstRules(k, m, cfg)| ==> RuleOf(FirstRules(k, m, cfg)[i]) < k
    ensures InRuleOrder(FirstRules(k, m, cfg))
  {
    if k > 0 {
      FirstRulesOrdered(k - 1, m, cfg);
      var prev, last := FirstRules(k - 1, m, cfg), RuleFlagsOf(k - 1, m, cfg);
      assert FirstRules(k, m, cfg) == prev + last;
      InRuleOrderAppend(prev, last, k - 1);
    }
  }

  /** Appending at most one flag of rule k - 1 to flags costing at most the
      largest penalties of rules 0..k-2 keeps within those of rules 0..k-1. */
  lemma PenaltyAppendWithin(prev: seq<Flag>, last: seq<Flag>, k: nat)
    requires 0 < k <= 5
    requires 0.0 <= TotalPenalty(prev) <= MaxPenaltyOfFirst(k - 1)
    requires |last| <= 1 && forall i :: 0 <= i < |last| ==> RuleOf(last[i]) == k - 1
    ensures 0.0 <= TotalPenalty(prev + last) <= MaxPenaltyOfFirst(k)
  {
    TotalPenaltyAppend(prev, last);
    PenaltyOfAtMostOne(last);
    if |last| == 1 {
      PenaltyWithinRule(last[0]);
    }
  }

  /** The flags of rules 0..k-1 cost at most the sum of those rules' largest
      penalties. */
  lemma {:induction false} FirstRulesPenalty(k: nat, m: map<string, real>, cfg: SensorConfig)
    requires k <= 5
    ensures 0.0 <= TotalPenalty(FirstRules(k, m, cfg)) <= MaxPenaltyOfFirst(k)
  {
    if k > 0 {
      FirstRulesPenalty(k - 1, m, cfg);
      PenaltyAppendWithin(FirstRules(k - 1, m, cfg), RuleFlagsOf(k - 1, m, cfg), k);
    }
  }

  /** The penalties add up to at most 25 + 20 + 20 + 10 + 30 = 105 points. */
  lemma PenaltyBounded(m: map<string, real>, cfg: SensorConfig)
    ensures 0.0 <= TotalPenalty(RuleFlags(m, cfg)) <= 105.0
  {
    RuleFlagsAreFirstRules(m, cfg);
    FirstRulesPenalty(5, m, cfg);
  }

  /** At most five flags, in rule order, so none appears twice. */
  lemma FlagsInRuleOrder(m: map<string, real>, cfg: SensorConfig)
    ensures |RuleFlags(m, cfg)| <= 5
    ensures InRuleOrder(RuleFlags(m, cfg))
    ensures forall i, j :: 0 <= i < j < |RuleFlags(m, cfg)| ==> RuleFlags(m, cfg)[i] != RuleFlags(m, cfg)[j]
  {
    RuleFlagsAreFirstRules(m, cfg);
    FirstRulesOrdered(5, m, cfg);
  }

  /** Penalties and messages of five concatenated flag lists, list by list. */
  lemma ConcatFive(s: seq<Flag>, b: seq<Flag>, n: seq<Flag>, h: seq<Flag>, d: seq<Flag>)
    ensures TotalPenalty(s + b + n + h + d) ==
      TotalPenalty(s) + TotalPenalty(b) + TotalPenalty(n) + TotalPenalty(h) + TotalPenalty(d)
    ensures Messages(s + b + n + h + d) == [] + Messages(s) + Messages(b) + Messages(n) + Messages(h) + Messages(d)
  {
    TotalPenaltyAppend(s, b);
    TotalPenaltyAppend(s + b, n);
    TotalPenaltyAppend(s + b + n, h);
    TotalPenaltyAppend(s + b + n + h, d);
    MessagesAppend(s, b);
    MessagesAppend(s + b, n);
    MessagesAppend(s + b + n, h);
    MessagesAppend(s + b + n + h, d);
    assert [] + Messages(s) == Messages(s);
  }

  /** The total penalty is the sum of the five rules' penalties. */
  lemma PenaltyByRule(m: map<string, real>, cfg: SensorConfig)
    ensures TotalPenalty(RuleFlags(m, cfg)) ==
      TotalPenalty(SlopeRule(m, cfg)) + TotalPenalty(BiasRule(m, cfg)) + TotalPenalty(NoiseRule(m)) +
      TotalPenalty(HysteresisRule(m, cfg)) + TotalPenalty(DfaRule(m, cfg))
  {
    ConcatFive(SlopeRule(m, cfg), BiasRule(m, cfg), NoiseRule(m), HysteresisRule(m, cfg), DfaRule(m, cfg));
  }

  lemma MessagesAppend(a: seq<Flag>, b: seq<Flag>)
    ensures Messages(a + b) == Messages(a) + Messages(b)
  {
    var l, r := Messages(a + b), Messages(a) + Messages(b);
    forall i | 0 <= i < |a + b|
      ensures l[i] == r[i]
    {
      if i < |a| {
        assert (a + b)[i] == a[i] && r[i] == Messages(a)[i];
      } else {
        assert (a + b)[i] == b[i - |a|] && r[i] == Messages(b)[i - |a|];
      }
    }
  }

  /** The diagnosis entries are the five rules' messages, in rule order. */
  lemma MessagesByRule(m: map<string, real>, cfg: SensorConfig)
    ensures Messages(RuleFlags(m, cfg)) ==
      [] + Messages(SlopeRule(m, cfg)) + Messages(BiasRule(m, cfg)) + Messages(NoiseRule(m)) +
      Messages(HysteresisRule(m, cfg)) + Messages(DfaRule(m, cfg))
  {
    ConcatFive(SlopeRule(m, cfg), BiasRule(m, cfg), NoiseRule(m), HysteresisRule(m, cfg), DfaRule(m, cfg));
  }

  /** The score is 100 minus the penalties, floored at 0: it never leaves [0, 100]. */
  lemma ScoreIsPenalised(m: map<string, real>, cfg: SensorConfig)
    ensures var v := Score(m, cfg);
      && 0.0 <= v.score <= 100.0
      && v.score == (if TotalPenalty(v.flags) > 100.0 then 0.0 else 100.0 - TotalPenalty(v.flags))
  {
    PenaltyBounded(m, cfg);
  }

  /** Status bands: Red below 60, Yellow from 60 below 85, Green otherwise. */
  lemma StatusBands(m: map<string, real>, cfg: SensorConfig)
    ensures var v := Score(m, cfg);
      && (v.status == Red <==> v.score < 60.0)
      && (v.status == Yellow <==> 60.0 <= v.score < 85.0)
      && (v.status == Green <==> v.score >= 85.0)
  {
  }

  /** No rule's message starts like "System Normal". */
  lemma MessageIsNotNormal(f: Flag)
    ensures |Message(f)| >= 2 && (Message(f)[0] != 'S' || Message(f)[1] != 'y')
  {
  }

  lemma {:induction false} JoinStartsWithFirst(xs: seq<string>, sep: string)
    requires |xs| > 0
    ensures |Join(xs, sep)| >= |xs[0]| && Join(xs, sep)[..|xs[0]|] == xs[0]
  {
    if |xs| > 1 {
      var init := xs[..|xs| - 1];
      JoinStartsWithFirst(init, sep);
      assert init[0] == xs[0];
      var j := Join(xs, sep);
      assert j == Join(init, sep) + sep + xs[|xs| - 1];
      assert j[..|xs[0]|] == Join(init, sep)[..|xs[0]|];
    }
  }

  /** The joined diagnosis of a flag list is "System Normal" exactly when the
      list is empty, and otherwise the flags' messages joined. */
  lemma DiagnosisOfFlags(flags: seq<Flag>)
    ensures Join(Diagnoses(flags), "; ") == NormalDiagnosis <==> flags == []
    ensures flags != [] ==> Join(Diagnoses(flags), "; ") == Join(Messages(flags), "; ")
  {
    if flags != [] {
      var ms := Messages(flags);
      var j := Join(ms, "; ");
      JoinStartsWithFirst(ms, "; ");
      MessageIsNotNormal(flags[0]);
      assert j[0] == ms[0][0] && j[1] == ms[0][1];
      assert NormalDiagnosis[0] == 'S' && NormalDiagnosis[1] == 'y';
    }
  }

  /** "System Normal" is the diagnosis exactly when no rule raised a flag;
      otherwise the diagnosis is the rules' messages in rule order. */
  lemma DiagnosisMatchesFlags(m: map<string, real>, cfg: SensorConfig)
    ensures var v := Score(m, cfg);
      && (v.diagnosis == NormalDiagnosis <==> v.flags == [])
      && (v.flags != [] ==> v.diagnosis == Join(Messages(v.flags), "; "))
  {
    DiagnosisOfFlags(RuleFlags(m, cfg));
  }

  /** A flag of the slope rule is in the verdict exactly when the slope rule raised it. */
  lemma SlopeFlagsOfVerdict(m: map<string, real>, cfg: SensorConfig, f: Flag)
    requires RuleOf(f) == 0
    ensures f in RuleFlags(m, cfg) <==> f in SlopeRule(m, cfg)
  {
    var rest := BiasRule(m, cfg) + NoiseRule(m) + HysteresisRule(m, cfg) + DfaRule(m, cfg);
    assert RuleFlags(m, cfg) == SlopeRule(m, cfg) + rest;
    assert f !in rest;
  }

  /** The recommendation changes only with a critical slope or with a warning
      slope on a noisy signal; a minor process variation leaves it alone. */
  lemma RecommendationOnlyFromSlope(m: map<string, real>, cfg: SensorConfig)
    ensures var v := Score(m, cfg);
      v.recommendation != DefaultRecommendation <==>
        (ProcessChange in v.flags || DriftCritical in v.flags || DriftWarning in v.flags)
  {
    SlopeFlagsOfVerdict(m, cfg, ProcessChange);
    SlopeFlagsOfVerdict(m, cfg, DriftCritical);
    SlopeFlagsOfVerdict(m, cfg, DriftWarning);
  }

  /** A slope exactly at slope_critical falls into the warning branch
      (when it is above slope_warning). */
  lemma SlopeAtCriticalIsWarning(m: map<string, real>, cfg: SensorConfig)
    requires Abs(Get(m, "slope", 0.0)) == cfg.slopeCritical > cfg.slopeWarning
    ensures SlopeRule(m, cfg) == [ProcessVar] || SlopeRule(m, cfg) == [DriftWarning]
  {
  }

  /** A bias exactly at bias_critical falls into the warning branch (when it is
      above bias_warning): the comparison is strict. */
  lemma BiasAtCriticalIsWarning(m: map<string, real>, cfg: SensorConfig)
    requires Abs(Get(m, "bias", 0.0)) == cfg.biasCritical > cfg.biasWarning
    ensures BiasRule(m, cfg) == [BiasWarning]
  {
  }

  /** noise_std above 2.0 pre-empts both SNR rules, whatever the SNR. */
  lemma HighNoisePreemptsSnr(m: map<string, real>)
    requires Get(m, "noise_std", 0.0) > NoiseHigh
    ensures NoiseRule(m) == [NoiseCritical]
  {
  }

  /** Below R^2 = 0.9 the Hurst exponent is not scored: DFA_UNRELIABLE only; a
      missing R^2 counts as 0. */
  lemma UnreliableDfaNotScored(m: map<string, real>, cfg: SensorConfig)
    requires "hurst_r2" !in m || m["hurst_r2"] < R2Reliable
    ensures DfaRule(m, cfg) == [DfaUnreliable]
    ensures TotalPenalty(DfaRule(m, cfg)) == 0.0
  {
    PenaltyOfAtMostOne(DfaRule(m, cfg));
  }

  const NeutralMetrics: map<string, real> := MetricsMap(0.0, 0.0, 0.0, 50.0, 0.0, 0.5, 0.95)

  /** Neutral metrics: no flag, score 100, Green, "System Normal". */
  lemma NeutralIsHealthy()
    ensures var v := Score(NeutralMetrics, Default);
      v.score == 100.0 && v.status == Green && v.flags == [] && v.diagnosis == NormalDiagnosis
      && v.recommendation == DefaultRecommendation
  {
    assert RuleFlags(NeutralMetrics, Default) == [];
  }

  /** Bias 1.5 against bias_critical 1.0: a single 20-point penalty. */
  lemma StrictBiasCosts20()
    ensures var v := Score(MetricsMap(1.5, 0.0, 0.0, 50.0, 0.0, 0.5, 0.95), Default.(biasCritical := 1.0));
      v.score == 80.0 && v.flags == [BiasCritical] && v.status == Yellow
  {
    var m, cfg := MetricsMap(1.5, 0.0, 0.0, 50.0, 0.0, 0.5, 0.95), Default.(biasCritical := 1.0);
    assert BiasRule(m, cfg) == [BiasCritical];
    assert RuleFlags(m, cfg) == [BiasCritical];
    PenaltyOfAtMostOne([BiasCritical]);
  }

  const CriticalMetrics: map<string, real> := MetricsMap(5.0, 0.2, 2.0, 5.0, 1.0, 0.9, 0.95)

  lemma CriticalPenalty()
    ensures RuleFlags(CriticalMetrics, Default) ==
      [DriftCritical, BiasCritical, LowSnrCritical, HysteresisFlag, DfaPersistence]
    ensures TotalPenalty(RuleFlags(CriticalMetrics, Default)) == 100.0
  {
    var m := CriticalMetrics;
    assert SlopeRule(m, Default) == [DriftCritical];
    assert BiasRule(m, Default) == [BiasCritical];
    assert NoiseRule(m) == [LowSnrCritical];
    assert HysteresisRule(m, Default) == [HysteresisFlag];
    assert DfaRule(m, Default) == [DfaPersistence];
    PenaltyByRule(m, Default);
    PenaltyOfAtMostOne(SlopeRule(m, Default));
    PenaltyOfAtMostOne(BiasRule(m, Default));
    PenaltyOfAtMostOne(NoiseRule(m));
    PenaltyOfAtMostOne(HysteresisRule(m, Default));
    PenaltyOfAtMostOne(DfaRule(m, Default));
  }

  /** The critical metric set: 25 + 20 + 15 + 10 + 30 = 100 points, score 0, Red. */
  lemma CriticalIsRed()
    ensures var v := Score(CriticalMetrics, Default);
      v.score == 0.0 && v.status == Red &&
      v.flags == [DriftCritical, BiasCritical, LowSnrCritical, HysteresisFlag, DfaPersistence]
  {
    CriticalPenalty();
  }

  const WorstMetrics: map<string, real> := MetricsMap(5.0, 0.2, 3.0, 5.0, 1.0, 0.9, 0.95)

  lemma WorstPenalty()
    ensures RuleFlags(WorstMetrics, Default) ==
      [DriftCritical, BiasCritical, NoiseCritical, HysteresisFlag, DfaPersistence]
    ensures TotalPenalty(RuleFlags(WorstMetrics, Default)) == 105.0
  {
    var m := WorstMetrics;
    assert SlopeRule(m, Default) == [DriftCritical];
    assert BiasRule(m, Default) == [BiasCritical];
    assert NoiseRule(m) == [NoiseCritical];
    assert HysteresisRule(m, Default) == [HysteresisFlag];
    assert DfaRule(m, Default) == [DfaPersistence];
    PenaltyByRule(m, Default);
    PenaltyOfAtMostOne(SlopeRule(m, Default));
    PenaltyOfAtMostOne(BiasRule(m, Default));
    PenaltyOfAtMostOne(NoiseRule(m));
    PenaltyOfAtMostOne(HysteresisRule(m, Default));
    PenaltyOfAtMostOne(DfaRule(m, Default));
  }

  /** The worst case, 25 + 20 + 20 + 10 + 30 = 105 points, is floored at 0. */
  lemma WorstCaseFloored()
    ensures var v := Score(WorstMetrics, Default);
      TotalPenalty(v.flags) == 105.0 && v.score == 0.0 && v.status == Red
  {
    WorstPenalty();
  }
}
