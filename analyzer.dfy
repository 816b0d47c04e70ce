/** The SensorAnalyzer: a configuration and the pipeline that turns raw
    readings into metrics, a health verdict and a remaining-useful-life
    estimate. */
module Analyzer {
  import opened Wrappers
  import opened Stats
  import opened Config
  import opened External
  import opened Health
  import opened Rul
  import Preprocess
  import Decompose
  import Metrics
  import Dfa

  /** The metrics dictionary the pipeline builds. */
  datatype MetricSet = MetricSet(
    bias: real,
    slope: real,
    noiseStd: real,
    snrDb: real,
    hysteresis: real,
    hysteresisX: seq<real>,
    hysteresisY: seq<real>,
    hurst: real,
    hurstR2: real,
    dfaScales: seq<int>,
    dfaFluctuations: seq<real>,
    trend: seq<real>,
    residuals: seq<real>)

  /** The scalar entries of the metrics dictionary, under the keys the scorer reads. */
  function Scalars(ms: MetricSet): map<string, real>
  {
    MetricsMap(ms.bias, ms.slope, ms.noiseStd, ms.snrDb, ms.hysteresis, ms.hurst, ms.hurstR2)
  }

  datatype Analysis = Analysis(metrics: MetricSet, health: Verdict, prediction: Estimate)

  lemma SqrtSquares(lib: Library, v: real)
    requires lib.Valid() && v >= 0.0
    ensures lib.sqrt(v) >= 0.0 && lib.sqrt(v) * lib.sqrt(v) == v
  {
  }

  /** Comparing a standard deviation with the scorer's noise thresholds is
      comparing its variance with their squares. */
  lemma NoiseThresholdsOnVariance(lib: Library, v: real)
    requires lib.Valid()
    requires v >= 0.0
    ensures lib.sqrt(v) > NoiseHigh <==> v > NoiseHigh * NoiseHigh
    ensures lib.sqrt(v) < NoiseClean <==> v < NoiseClean * NoiseClean
  {
    var r := lib.sqrt(v);
    assert r >= 0.0 && r * r == v;
    if r > NoiseHigh {
      SquareStrictlyIncreasing(NoiseHigh, r);
    } else {
      SquareIncreasing(r, NoiseHigh);
    }
    if r < NoiseClean {
      SquareStrictlyIncreasing(r, NoiseClean);
    } else {
      SquareIncreasing(NoiseClean, r);
    }
  }

  class SensorAnalyzer {
    const config: SensorConfig

    constructor(config: SensorConfig)
      ensures this.config == config
    {
      this.config := config;
    }

    /** Length check, gap filling, then the width-3 median filter. */
    function Preprocessing(raw: seq<Option<real>>): (r: Result<seq<real>>)
      ensures r.Err? <==> |raw| < config.minDataPoints || !Preprocess.AnyPresent(raw)
      ensures |raw| < config.minDataPoints ==> r == Err(InsufficientData(|raw|, config.minDataPoints))
      ensures |raw| >= config.minDataPoints && !Preprocess.AnyPresent(raw) ==> r == Err(NoValidReadings)
      ensures r.Ok? ==> |r.value| == |raw| > 0
    {
      if |raw| < config.minDataPoints then Err(InsufficientData(|raw|, config.minDataPoints))
      else if !Preprocess.AnyPresent(raw) then Err(NoValidReadings)
      else
        Preprocess.GapFillComplete(raw);
        Ok(Preprocess.MedFilt(Preprocess.Values(Preprocess.GapFill(raw)), 3))
    }

    /** Readings that are all c where present come out as c everywhere, however
        the gaps fall. */
    lemma PreprocessingOfLevel(raw: seq<Option<real>>, c: real)
      requires |raw| >= config.minDataPoints && |raw| >= 2
      requires Preprocess.AnyPresent(raw) && Preprocess.PresentAre(raw, c)
      ensures Preprocessing(raw).Ok?
      ensures forall i :: 0 <= i < |raw| ==> Preprocessing(raw).value[i] == c
    {
      Preprocess.GapFillConstant(raw, c);
      Preprocess.GapFillComplete(raw);
      var x := Preprocess.Values(Preprocess.GapFill(raw));
      Preprocess.MedFiltConstant(x, c);
    }

    /** One spike in otherwise complete, level readings is removed. */
    lemma PreprocessingRemovesSpike(raw: seq<Option<real>>, c: real, k: nat)
      requires |raw| >= config.minDataPoints
      requires 2 <= k && k + 3 <= |raw|
      requires Preprocess.AllPresent(raw)
      requires forall i :: 0 <= i < |raw| && i != k ==> raw[i] == Some(c)
      ensures Preprocessing(raw).Ok?
      ensures forall i :: 0 <= i < |raw| ==> Preprocessing(raw).value[i] == c
    {
      assert raw[0].Some?;
      forall i | 0 <= i < |raw|
        ensures Preprocess.GapFill(raw)[i] == raw[i]
      {
        Preprocess.GapFillKeepsPresent(raw, i);
      }
      var x := Preprocess.Values(Preprocess.GapFill(raw));
      Preprocess.MedFiltRemovesSpike(x, c, k);
    }

    /** Trend and residuals: a short sequence is all trend; otherwise the trend
        is the smoothed signal and the residuals what is left of the data. */
    function DecomposeSignal(data: seq<real>, lib: Library): (r: (seq<real>, seq<real>))
      requires lib.Valid()
      ensures |r.0| == |data| && |r.1| == |data|
      ensures forall i :: 0 <= i < |data| ==> r.0[i] + r.1[i] == data[i]
      ensures |data| < config.minDataPoints ==>
        r.0 == data && forall i :: 0 <= i < |data| ==> r.1[i] == 0.0
      ensures |data| >= config.minDataPoints ==> r.0 == Decompose.Trend(data, lib)
    {
      if |data| < config.minDataPoints then (data, Decompose.Zeros(|data|))
      else
        var trend := Decompose.Trend(data, lib);
        (trend, Minus(data, trend))
    }

    /** Projection of the trend line onto data[0] +/- bias_critical. */
    function CalcRul(data: seq<real>, slope: real): (r: Result<Estimate>)
      ensures Abs(slope) < StableSlope ==> r == Ok(StableOverYear)
      ensures Abs(slope) >= StableSlope ==> (r.Err? <==> |data| < 2)
      ensures r.Err? ==> r.error == DegenerateRegression
      ensures Abs(slope) >= StableSlope && |data| >= 2 ==>
        (r.value == ThresholdExceeded <==> Headroom(data, slope, config.biasCritical) <= 0.0)
      ensures Abs(slope) >= StableSlope && |data| >= 2 && Headroom(data, slope, config.biasCritical) > 0.0 ==>
        r.value == Bucket(Headroom(data, slope, config.biasCritical) / Abs(slope))
    {
      if Abs(slope) < StableSlope then Ok(StableOverYear)
      else if |data| < 2 then Err(DegenerateRegression)
      else
        var dist := Headroom(data, slope, config.biasCritical);
        if dist <= 0.0 then Ok(ThresholdExceeded)
        else Ok(Bucket(dist / Abs(slope)))
    }

    /** On an exact line with a non-negligible slope b: the threshold is
        exceeded once the drift since the first reading reaches bias_critical,
        and otherwise the time left is what remains of bias_critical over |b|. */
    lemma RulOfLine(data: seq<real>, a: real, b: real)
      requires |data| >= 2 && Abs(b) >= StableSlope
      requires forall i :: 0 <= i < |data| ==> data[i] == a + b * i as real
      ensures var drift := Abs(b) * (|data| - 1) as real;
        && (CalcRul(data, b) == Ok(ThresholdExceeded) <==> drift >= config.biasCritical)
        && (drift < config.biasCritical ==>
              CalcRul(data, b) == Ok(Bucket((config.biasCritical - drift) / Abs(b))))
    {
      HeadroomOfLine(data, a, b, config.biasCritical);
    }

    /** The slope check: drift split by noise into process change and fault;
        the only check that sets the recommendation. */
    method SlopeCheck(metrics: map<string, real>, score: real, diagnosis: seq<string>, flags: seq<Flag>)
      returns (score': real, diagnosis': seq<string>, flags': seq<Flag>, recommendation: string)
      ensures flags' == flags + SlopeRule(metrics, config)
      ensures diagnosis' == diagnosis + Messages(SlopeRule(metrics, config))
      ensures score' == score - TotalPenalty(SlopeRule(metrics, config))
      ensures recommendation == RecommendationOf(SlopeRule(metrics, config))
    {
      score', diagnosis', flags' := score, diagnosis, flags;
      recommendation := DefaultRecommendation;
      var slope := Abs(Get(metrics, "slope", 0.0));
      var noiseStd := Get(metrics, "noise_std", 0.0);
      if slope > config.slopeCritical {
        if noiseStd < NoiseClean {
          score' := score' - 10.0;
          diagnosis' := diagnosis' + ["Process Parameter Change Detected"];
          flags' := flags' + [ProcessChange];
          recommendation := "Verify process settings.";
        } else {
          score' := score' - 25.0;
          diagnosis' := diagnosis' + ["Critical Drift (Unstable)"];
          flags' := flags' + [DriftCritical];
          recommendation := "Immediate calibration required.";
        }
      } else if slope > config.slopeWarning {
        if noiseStd < NoiseClean {
          diagnosis' := diagnosis' + ["Minor Process Variation"];
          flags' := flags' + [ProcessVar];
        } else {
          score' := score' - 15.0;
          diagnosis' := diagnosis' + ["Moderate Trend Drift"];
          flags' := flags' + [DriftWarning];
          recommendation := "Schedule maintenance check.";
        }
      }
      PenaltyOfAtMostOne(SlopeRule(metrics, config));
    }

    /** The bias check on |bias|. */
    method BiasCheck(metrics: map<string, real>, score: real, diagnosis: seq<string>, flags: seq<Flag>)
      returns (score': real, diagnosis': seq<string>, flags': seq<Flag>)
      ensures flags' == flags + BiasRule(metrics, config)
      ensures diagnosis' == diagnosis + Messages(BiasRule(metrics, config))
      ensures score' == score - TotalPenalty(BiasRule(metrics, config))
    {
      score', diagnosis', flags' := score, diagnosis, flags;
      var bias := Abs(Get(metrics, "bias", 0.0));
      if bias > config.biasCritical {
        score' := score' - 20.0;
        diagnosis' := diagnosis' + ["Significant Bias Shift"];
        flags' := flags' + [BiasCritical];
      } else if bias > config.biasWarning {
        score' := score' - 10.0;
        diagnosis' := diagnosis' + ["Minor Bias Shift"];
        flags' := flags' + [BiasWarning];
      }
      PenaltyOfAtMostOne(BiasRule(metrics, config));
    }

    /** The noise check: noise_std above 2.0 first, then the two SNR bands. */
    method NoiseCheck(metrics: map<string, real>, score: real, diagnosis: seq<string>, flags: seq<Flag>)
      returns (score': real, diagnosis': seq<string>, flags': seq<Flag>)
      ensures flags' == flags + NoiseRule(metrics)
      ensures diagnosis' == diagnosis + Messages(NoiseRule(metrics))
      ensures score' == score - TotalPenalty(NoiseRule(metrics))
    {
      score', diagnosis', flags' := score, diagnosis, flags;
      var noiseStd := Get(metrics, "noise_std", 0.0);
      var snrDb := Get(metrics, "snr_db", 100.0);
      if noiseStd > NoiseHigh {
        score' := score' - 20.0;
        diagnosis' := diagnosis' + ["High Sensor Noise"];
        flags' := flags' + [NoiseCritical];
      } else if snrDb < SnrCritical {
        score' := score' - 15.0;
        diagnosis' := diagnosis' + ["Critical Signal Quality (SNR)"];
        flags' := flags' + [LowSnrCritical];
      } else if snrDb < SnrWarning {
        score' := score' - 5.0;
        diagnosis' := diagnosis' + ["Noisy Signal"];
        flags' := flags' + [LowSnrWarning];
      }
      PenaltyOfAtMostOne(NoiseRule(metrics));
    }

    method HysteresisCheck(metrics: map<string, real>, score: real, diagnosis: seq<string>, flags: seq<Flag>)
      returns (score': real, diagnosis': seq<string>, flags': seq<Flag>)
      ensures flags' == flags + HysteresisRule(metrics, config)
      ensures diagnosis' == diagnosis + Messages(HysteresisRule(metrics, config))
      ensures score' == score - TotalPenalty(HysteresisRule(metrics, config))
    {
      score', diagnosis', flags' := score, diagnosis, flags;
      var hyst := Get(metrics, "hysteresis", 0.0);
      if hyst > config.hysteresisCritical {
        score' := score' - 10.0;
        diagnosis' := diagnosis' + ["Hysteresis Detected"];
        flags' := flags' + [HysteresisFlag];
      }
      PenaltyOfAtMostOne(HysteresisRule(metrics, config));
    }

    /** The DFA check: the Hurst exponent is scored only when R^2 reaches 0.9. */
    method DfaCheck(metrics: map<string, real>, score: real, diagnosis: seq<string>, flags: seq<Flag>)
      returns (score': real, diagnosis': seq<string>, flags': seq<Flag>)
      ensures flags' == flags + DfaRule(metrics, config)
      ensures diagnosis' == diagnosis + Messages(DfaRule(metrics, config))
      ensures score' == score - TotalPenalty(DfaRule(metrics, config))
    {
      score', diagnosis', flags' := score, diagnosis, flags;
      var hurst := Get(metrics, "hurst", 0.5);
      var hurstR2 := Get(metrics, "hurst_r2", 0.0);
      if hurstR2 < R2Reliable {
        diagnosis' := diagnosis' + ["DFA Unreliable (Low R2)"];
        flags' := flags' + [DfaUnreliable];
      } else {
        if hurst > config.dfaCritical {
          score' := score' - 30.0;
          diagnosis' := diagnosis' + ["Strong Persistence (Drift/Memory)"];
          flags' := flags' + [DfaPersistence];
        } else if hurst < HurstAntipersistent {
          score' := score' - 10.0;
          diagnosis' := diagnosis' + ["Strong Anti-persistence"];
          flags' := flags' + [DfaAntipersistence];
        }
      }
      PenaltyOfAtMostOne(DfaRule(metrics, config));
    }

    /** The five checks in order, from a score of 100 with no diagnosis and no flags. */
    method RunChecks(metrics: map<string, real>)
      returns (score: real, diagnosis: seq<string>, flags: seq<Flag>, recommendation: string)
      ensures flags == RuleFlags(metrics, config)
      ensures score == 100.0 - TotalPenalty(flags)
      ensures diagnosis == Messages(flags)
      ensures recommendation == RecommendationOf(SlopeRule(metrics, config))
    {
      score, diagnosis, flags := 100.0, [], [];
      score, diagnosis, flags, recommendation := SlopeCheck(metrics, score, diagnosis, flags);
      score, diagnosis, flags := BiasCheck(metrics, score, diagnosis, flags);
      score, diagnosis, flags := NoiseCheck(metrics, score, diagnosis, flags);
      score, diagnosis, flags := HysteresisCheck(metrics, score, diagnosis, flags);
      score, diagnosis, flags := DfaCheck(metrics, score, diagnosis, flags);
      var s, b, n, h, d := SlopeRule(metrics, config), BiasRule(metrics, config), NoiseRule(metrics),
        HysteresisRule(metrics, config), DfaRule(metrics, config);
      assert flags == s + b + n + h + d by { assert [] + s == s; }
      ConcatFive(s, b, n, h, d);
    }

    /** The end of the scorer: the clamp to [0, 100], the status bands and the
        joined diagnosis, "System Normal" when no check raised a flag. */
    method Report(score: real, diagnosis: seq<string>, flags: seq<Flag>, recommendation: string)
      returns (h: Verdict)
      requires score == 100.0 - TotalPenalty(flags)
      requires diagnosis == Messages(flags)
      ensures h == VerdictOf(flags, recommendation)
    {
      var capped := if score < 100.0 then score else 100.0;
      var clamped := if capped > 0.0 then capped else 0.0;

      var status := Green;
      if clamped < 60.0 {
        status := Red;
      } else if clamped < 85.0 {
        status := Yellow;
      }

      var entries := diagnosis;
      if |entries| == 0 {
        entries := entries + [NormalDiagnosis];
        assert entries == [NormalDiagnosis];
      }
      assert entries == Diagnoses(flags);
      h := Verdict(clamped, status, Join(entries, "; "), flags, recommendation);
    }

    /** The scorer: the five checks, then the report. */
    method GetHealthScore(metrics: map<string, real>) returns (h: Verdict)
      ensures h == Score(metrics, config)
    {
      var score, diagnosis, flags, recommendation := RunChecks(metrics);
      h := Report(score, diagnosis, flags, recommendation);
    }

    /** The metrics dictionary of cleaned readings. */
    function MetricsOf(clean: seq<real>, lib: Library): MetricSet
      requires lib.Valid() && |clean| > 0
    {
      var (trend, residuals) := DecomposeSignal(clean, lib);
      var dfa := Dfa.DfaSpec(residuals, lib);
      var hyst := Metrics.CalcHysteresis(clean);
      MetricSet(
        Metrics.CalcBias(clean), Metrics.CalcSlope(trend), lib.sqrt(Variance(residuals)), lib.snrDb(clean),
        hyst.score, hyst.x, hyst.y, dfa.hurst, dfa.r2, dfa.scales, dfa.fluctuations,
        trend, residuals)
    }

    /** The whole analysis as one value: the pipeline's result on every input. */
    function AnalysisOf(raw: seq<Option<real>>, lib: Library): Result<Analysis>
      requires lib.Valid()
    {
      match Preprocessing(raw)
      case Err(e) => Err(e)
      case Ok(clean) =>
        var ms := MetricsOf(clean, lib);
        Ok(Analysis(ms, Score(Scalars(ms), config), CalcRul(ms.trend, ms.slope).value))
    }

    /** The pipeline: preprocess, decompose, measure, score and project. */
    method Analyze(raw: seq<Option<real>>, lib: Library) returns (r: Result<Analysis>)
      requires lib.Valid()
      ensures r == AnalysisOf(raw, lib)
    {
      var pre := Preprocessing(raw);
      if pre.Err? {
        return Err(pre.error);
      }
      var clean := pre.value;
      var (trend, residuals) := DecomposeSignal(clean, lib);
      var slope := Metrics.CalcSlope(trend);
      var noiseStd := lib.sqrt(Variance(residuals));
      var dfa := Dfa.CalcDfa(residuals, lib);
      var bias := Metrics.CalcBias(clean);
      var snrDb := lib.snrDb(clean);
      var hyst := Metrics.CalcHysteresis(clean);
      var metrics := MetricSet(
        bias, slope, noiseStd, snrDb, hyst.score, hyst.x, hyst.y,
        dfa.hurst, dfa.r2, dfa.scales, dfa.fluctuations, trend, residuals);
      assert metrics == MetricsOf(clean, lib);
      var health := GetHealthScore(Scalars(metrics));
      var prediction := CalcRul(trend, slope);
      return Ok(Analysis(metrics, health, prediction.value));
    }

    /** The analysis fails exactly when preprocessing does, with its error. */
    lemma AnalysisFails(raw: seq<Option<real>>, lib: Library)
      requires lib.Valid()
      ensures AnalysisOf(raw, lib).Err? <==> |raw| < config.minDataPoints || !Preprocess.AnyPresent(raw)
      ensures AnalysisOf(raw, lib).Err? ==> AnalysisOf(raw, lib).error == Preprocessing(raw).error
    {
    }

    /** The metrics of long enough cleaned readings: trend plus residuals is the
        data and the slope is the trend's. */
    lemma MetricsDecompose(clean: seq<real>, lib: Library)
      requires lib.Valid() && |clean| > 0 && |clean| >= config.minDataPoints
      ensures var ms := MetricsOf(clean, lib);
        && |ms.trend| == |clean| && |ms.residuals| == |clean|
        && (forall i :: 0 <= i < |clean| ==> ms.trend[i] + ms.residuals[i] == clean[i])
        && ms.trend == Decompose.Trend(clean, lib)
        && ms.slope == Metrics.CalcSlope(ms.trend)
    {
    }

    /** The noise is the residuals' standard deviation: never negative, and
        the scorer's noise thresholds on it are thresholds on their variance. */
    lemma MetricsNoise(clean: seq<real>, lib: Library)
      requires lib.Valid() && |clean| > 0
      ensures var ms := MetricsOf(clean, lib);
        && ms.noiseStd >= 0.0
        && (ms.noiseStd > NoiseHigh <==> Variance(ms.residuals) > NoiseHigh * NoiseHigh)
        && (ms.noiseStd < NoiseClean <==> Variance(ms.residuals) < NoiseClean * NoiseClean)
    {
      var residuals := DecomposeSignal(clean, lib).1;
      var v := Variance(residuals);
      VarianceNonNegative(residuals);
      NoiseThresholdsOnVariance(lib, v);
      SqrtSquares(lib, v);
      var ms := MetricsOf(clean, lib);
      assert ms.residuals == residuals && ms.noiseStd == lib.sqrt(v);
    }

    /** The bias is the cleaned readings' and the hysteresis score lies in [0, 1]. */
    lemma MetricsLevels(clean: seq<real>, lib: Library)
      requires lib.Valid() && |clean| > 0
      ensures MetricsOf(clean, lib).bias == Metrics.CalcBias(clean)
      ensures 0.0 <= MetricsOf(clean, lib).hysteresis <= 1.0
    {
      var ms := MetricsOf(clean, lib);
      assert ms.hysteresis == Metrics.CalcHysteresis(clean).score;
      Metrics.HysteresisScoreBounded(clean);
    }

    /** A successful analysis carries the metrics of the cleaned readings and
        the scorer's verdict on them, with a score in [0, 100]. */
    lemma AnalysisConsistent(raw: seq<Option<real>>, lib: Library)
      requires lib.Valid()
      requires AnalysisOf(raw, lib).Ok?
      ensures var a := AnalysisOf(raw, lib).value;
        && Preprocessing(raw).Ok?
        && a.metrics == MetricsOf(Preprocessing(raw).value, lib)
        && a.health == Score(Scalars(a.metrics), config)
        && 0.0 <= a.health.score <= 100.0
    {
      var a := AnalysisOf(raw, lib).value;
      ScoreIsPenalised(Scalars(a.metrics), config);
    }
  }
}
