/** `CompositeStress.compute` and the fixed instrument and weight tables:
    one indicator per instrument, in table order; an indicator that raises
    contributes the neutral score; the scores are averaged with the
    configured weights (plainly, if the weights do not sum to a positive
    total) and the average is clamped to [0, 100].
 */
module Composite {
  import opened Numerics
  import opened Stats
  import opened Indicator
  import opened Volatility

  datatype Instrument = Instrument(symbol: string, name: string)

  /** The instrument table in its fixed order, and the weight of each
      symbol; a symbol the weight table lacks weighs 0. */
  datatype Config = Config(instruments: seq<Instrument>, weights: map<string, real>)

  const Tickers: seq<Instrument> := [
    Instrument("EURUSD=X", "EUR/USD"),
    Instrument("GC=F", "Gold"),
    Instrument("CL=F", "Crude Oil"),
    Instrument("DX-Y.NYB", "DXY"),
    Instrument("^BCOM", "Bloomberg Commodity Index"),
    Instrument("^SPGSCI", "S&P GSCI"),
    Instrument("^VIX", "VIX"),
    Instrument("^GVZ", "GVZ")
  ]

  const Weights: map<string, real> := map[
    "EURUSD=X" := 0.07,
    "GC=F" := 0.10,
    "CL=F" := 0.10,
    "DX-Y.NYB" := 0.05,
    "^BCOM" := 0.10,
    "^SPGSCI" := 0.10,
    "^VIX" := 0.23,
    "^GVZ" := 0.25
  ]

  const Configured: Config := Config(Tickers, Weights)

  /** What running one indicator produced: a score, or an exception. */
  datatype Outcome = Scored(score: real) | Raised

  /** The composite and the per-instrument scores, in table order. */
  datatype Reading = Reading(composite: real, scores: seq<real>)

  /** `WEIGHTS.get(ticker, 0.0)`. */
  function WeightOf(cfg: Config, symbol: string): (w: real)
    ensures symbol !in cfg.weights ==> w == 0.0
    ensures symbol in cfg.weights ==> w == cfg.weights[symbol]
  {
    if symbol in cfg.weights then cfg.weights[symbol] else 0.0
  }

  /** The score recorded for one indicator run. */
  function Recorded(o: Outcome): (v: real)
    ensures o.Raised? ==> v == Neutral
    ensures o.Scored? ==> v == o.score
  {
    match o
    case Scored(v) => v
    case Raised => Neutral
  }

  /** The loop over the indicators: one score per instrument, in table
      order, with the neutral score standing in for an indicator that
      raised. */
  function Scores(cfg: Config, indicator: string -> Outcome): (vs: seq<real>)
    ensures |vs| == |cfg.instruments|
    ensures forall i :: 0 <= i < |vs| ==>
              vs[i] == (if indicator(cfg.instruments[i].symbol).Raised? then Neutral
                        else indicator(cfg.instruments[i].symbol).score)
  {
    seq(|cfg.instruments|, i requires 0 <= i < |cfg.instruments| =>
      Recorded(indicator(cfg.instruments[i].symbol)))
  }

  /** The weight vector, aligned with the instrument table. */
  function WeightVector(cfg: Config): (ws: seq<real>)
    ensures |ws| == |cfg.instruments|
    ensures forall i :: 0 <= i < |ws| ==> ws[i] == WeightOf(cfg, cfg.instruments[i].symbol)
  {
    seq(|cfg.instruments|, i requires 0 <= i < |cfg.instruments| =>
      WeightOf(cfg, cfg.instruments[i].symbol))
  }

  /** The unclamped composite: the weighted mean when the weights sum to a
      positive total, the plain mean otherwise. */
  function Aggregate(ws: seq<real>, vs: seq<real>): (a: real)
    requires |ws| == |vs| && |vs| > 0
    ensures Sum(ws) > 0.0 ==> a * Sum(ws) == WeightedSum(ws, vs)
    ensures Sum(ws) <= 0.0 ==> a * (|vs| as real) == Sum(vs)
  {
    if Sum(ws) > 0.0 then WeightedMean(ws, vs) else Mean(vs)
  }

  /** With non-negative weights the unclamped composite lies between the
      smallest and the largest score, in either branch. */
  lemma AggregateBracketed(ws: seq<real>, vs: seq<real>)
    requires |ws| == |vs| && |vs| > 0 && NonNegative(ws)
    ensures Min(vs) <= Aggregate(ws, vs) <= Max(vs)
  {
    if Sum(ws) > 0.0 {
      WeightedMeanBounds(ws, vs, Min(vs), Max(vs));
    } else {
      MeanBounds(vs, Min(vs), Max(vs));
    }
  }

  function Compute(cfg: Config, indicator: string -> Outcome): (r: Reading)
    requires |cfg.instruments| > 0
    ensures r.scores == Scores(cfg, indicator)
    ensures 0.0 <= r.composite <= 100.0
    ensures NonNegative(WeightVector(cfg)) ==>
              Clamp(Min(r.scores)) <= r.composite <= Clamp(Max(r.scores))
    ensures Sum(WeightVector(cfg)) > 0.0 ==> r.composite == Clamp(WeightedMean(WeightVector(cfg), r.scores))
    ensures Sum(WeightVector(cfg)) <= 0.0 ==> r.composite == Clamp(Mean(r.scores))
  {
    var vs := Scores(cfg, indicator);
    ClampedBracket(WeightVector(cfg), vs);
    Reading(Clamp(Aggregate(WeightVector(cfg), vs)), vs)
  }

  /** With non-negative weights the clamped composite lies between the
      clamped smallest and largest score. */
  lemma ClampedBracket(ws: seq<real>, vs: seq<real>)
    requires |ws| == |vs| && |vs| > 0
    ensures NonNegative(ws) ==>
              Clamp(Min(vs)) <= Clamp(Aggregate(ws, vs)) <= Clamp(Max(vs))
  {
    if NonNegative(ws) {
      AggregateBracketed(ws, vs);
      ClampMonotone(Min(vs), Aggregate(ws, vs));
      ClampMonotone(Aggregate(ws, vs), Max(vs));
    }
  }

  /** Scores that are already in [0, 100] bracket the composite without the
      clamp: it lies between the smallest and the largest score. */
  lemma CompositeBetweenScores(cfg: Config, indicator: string -> Outcome)
    requires |cfg.instruments| > 0
    requires Bounded(Compute(cfg, indicator).scores, 0.0, 100.0)
    ensures var r := Compute(cfg, indicator);
            NonNegative(WeightVector(cfg)) ==> Min(r.scores) <= r.composite <= Max(r.scores)
  {
    var vs := Compute(cfg, indicator).scores;
    assert 0.0 <= Min(vs) && Max(vs) <= 100.0;
  }

  /** An unweighted configuration (no symbol in the weight table) averages
      the scores plainly. */
  lemma UnweightedIsPlainMean(cfg: Config, indicator: string -> Outcome)
    requires |cfg.instruments| > 0
    requires forall i :: 0 <= i < |cfg.instruments| ==> cfg.instruments[i].symbol !in cfg.weights
    ensures var r := Compute(cfg, indicator);
            r.composite == Clamp(Mean(r.scores))
  {
    var ws := WeightVector(cfg);
    ConstantSum(ws, 0.0);
  }

  /** Equal positive weights give the same composite as no weights at all:
      the weighted branch agrees with the plain-mean fallback. */
  lemma EqualWeightsArePlainMean(cfg: Config, indicator: string -> Outcome, w: real)
    requires |cfg.instruments| > 0 && w > 0.0
    requires forall i :: 0 <= i < |cfg.instruments| ==> WeightOf(cfg, cfg.instruments[i].symbol) == w
    ensures var r := Compute(cfg, indicator);
            r.composite == Clamp(Mean(r.scores))
  {
    UniformWeightedMean(WeightVector(cfg), Scores(cfg, indicator), w);
  }

  /** An indicator that raises puts the neutral score at its own positions
      and leaves every other score as it was. */
  lemma RaisingIsIsolated(cfg: Config, indicator: string -> Outcome, failing: string)
    requires |cfg.instruments| > 0
    ensures var before := Compute(cfg, indicator).scores;
            var after := Compute(cfg, t => if t == failing then Raised else indicator(t)).scores;
            && |after| == |before|
            && forall i :: 0 <= i < |after| ==>
                 after[i] == (if cfg.instruments[i].symbol == failing then Neutral else before[i])
  {
  }

  lemma AggregateUnanimous(ws: seq<real>, vs: seq<real>, c: real)
    requires |ws| == |vs| && |vs| > 0
    requires forall i :: 0 <= i < |vs| ==> vs[i] == c
    ensures Aggregate(ws, vs) == c
  {
    ConstantVariance(vs, c);
    if Sum(ws) > 0.0 {
      WeightedSumUniform(ws, vs, c);
      CancelDivision(WeightedSum(ws, vs), c, 0.0, 0.0, Sum(ws));
    }
  }

  lemma CancelDivision(sum: real, c: real, d: real, w: real, total: real)
    requires total > 0.0 && sum == c * total + d * w
    ensures sum / total == c + d * (w / total)
  {
  }

  /** The fraction of the total weight carried by position `k`. */
  function WeightShare(ws: seq<real>, k: nat): real
    requires k < |ws| && Sum(ws) > 0.0
  {
    ws[k] / Sum(ws)
  }

  /** When every instrument scores the same `c`, the composite is `c`
      (clamped), whatever the weights. */
  lemma UnanimousScores(cfg: Config, indicator: string -> Outcome, c: real)
    requires |cfg.instruments| > 0
    requires forall i :: 0 <= i < |cfg.instruments| ==> Scores(cfg, indicator)[i] == c
    ensures Compute(cfg, indicator).composite == Clamp(c)
  {
    AggregateUnanimous(WeightVector(cfg), Scores(cfg, indicator), c);
  }

  /** When every instrument scores `c` except the one at position `k`,
      which scores `c + d`, a positively weighted composite moves by `d`
      times that instrument's share of the total weight. */
  lemma SingleShock(cfg: Config, indicator: string -> Outcome, k: nat, c: real, d: real)
    requires k < |cfg.instruments| && Sum(WeightVector(cfg)) > 0.0
    requires forall i :: 0 <= i < |cfg.instruments| ==>
               Scores(cfg, indicator)[i] == (if i == k then c + d else c)
    ensures var ws := WeightVector(cfg);
            Compute(cfg, indicator).composite == Clamp(c + d * WeightShare(ws, k))
  {
    AggregateOneDeviation(WeightVector(cfg), Scores(cfg, indicator), k, c, d);
  }

  lemma AggregateOneDeviation(ws: seq<real>, vs: seq<real>, k: nat, c: real, d: real)
    requires |ws| == |vs| && k < |vs| && Sum(ws) > 0.0
    requires forall i :: 0 <= i < |vs| ==> vs[i] == (if i == k then c + d else c)
    ensures Aggregate(ws, vs) == c + d * WeightShare(ws, k)
  {
    WeightedSumOneDeviation(ws, vs, c, k, d);
    AggregateShifted(ws, vs, k, c, d);
  }

  lemma AggregateShifted(ws: seq<real>, vs: seq<real>, k: nat, c: real, d: real)
    requires |ws| == |vs| && k < |vs| && Sum(ws) > 0.0
    requires WeightedSum(ws, vs) == c * Sum(ws) + d * ws[k]
    ensures Aggregate(ws, vs) == c + d * WeightShare(ws, k)
  {
    AggregateWeighted(ws, vs);
    QuotientShifted(ws, vs, k, c, d);
  }

  lemma QuotientShifted(ws: seq<real>, vs: seq<real>, k: nat, c: real, d: real)
    requires |ws| == |vs| && k < |vs| && Sum(ws) > 0.0
    requires WeightedSum(ws, vs) == c * Sum(ws) + d * ws[k]
    ensures WeightedSum(ws, vs) / Sum(ws) == c + d * WeightShare(ws, k)
  {
    ShareOfQuotient(WeightedSum(ws, vs), c, d, ws[k], Sum(ws), WeightShare(ws, k));
  }

  /** `CancelDivision` with the share `w / total` named. */
  lemma ShareOfQuotient(sum: real, c: real, d: real, w: real, total: real, share: real)
    requires total > 0.0 && sum == c * total + d * w && share == w / total
    ensures sum / total == c + d * share
  {
    CancelDivision(sum, c, d, w, total);
  }

  lemma AggregateWeighted(ws: seq<real>, vs: seq<real>)
    requires |ws| == |vs| && |vs| > 0 && Sum(ws) > 0.0
    ensures Aggregate(ws, vs) == WeightedSum(ws, vs) / Sum(ws)
  {
  }

  // ---------------------------------------------------------------------
  // The configured tables

  /** Every configured symbol has a weight, the weights are non-negative and
      they sum to exactly 1. */
  lemma ConfiguredWeights()
    ensures forall i :: 0 <= i < |Tickers| ==> Tickers[i].symbol in Weights
    ensures WeightVector(Configured) == [0.07, 0.10, 0.10, 0.05, 0.10, 0.10, 0.23, 0.25]
    ensures NonNegative(WeightVector(Configured))
    ensures Sum(WeightVector(Configured)) == 1.0
  {
    var ws := WeightVector(Configured);
    assert ws == [0.07, 0.10, 0.10, 0.05, 0.10, 0.10, 0.23, 0.25];
    assert Sum(ws[7..]) == 0.25;
    assert Sum(ws[6..]) == 0.48;
    assert Sum(ws[5..]) == 0.58;
    assert Sum(ws[4..]) == 0.68;
    assert Sum(ws[3..]) == 0.73;
    assert Sum(ws[2..]) == 0.83;
    assert Sum(ws[1..]) == 0.93;
  }

  /** The closes the provider returned for `symbol`, or an empty series
      when the fetch failed. */
  function Fetched(history: map<string, seq<real>>, symbol: string): (prices: seq<real>)
    ensures symbol !in history ==> prices == []
    ensures symbol in history ==> prices == history[symbol]
  {
    if symbol in history then history[symbol] else []
  }

  /** Every configured instrument's fetched series has non-zero closes. */
  ghost predicate Usable(cfg: Config, history: map<string, seq<real>>)
  {
    forall i :: 0 <= i < |cfg.instruments| ==> NonZeroPrices(Fetched(history, cfg.instruments[i].symbol))
  }

  /** The indicator of a pass: each symbol's volatility score over its own
      fetched series. A series with a zero close lies outside the model and
      is reported as raising; `Usable` keeps every configured symbol off
      that branch. */
  function VolatilityIndicator(lib: MathLib, history: map<string, seq<real>>): (indicator: string -> Outcome)
    requires Valid(lib)
    ensures forall s :: NonZeroPrices(Fetched(history, s)) ==>
              indicator(s) == Scored(VolatilityScore(lib, Fetched(history, s)))
    ensures forall s :: !NonZeroPrices(Fetched(history, s)) ==> indicator(s) == Raised
  {
    s => if NonZeroPrices(Fetched(history, s)) then Scored(VolatilityScore(lib, Fetched(history, s)))
         else Raised
  }

  /** One full scoring pass: every instrument's volatility indicator over
      the fetched history, then the composite. */
  function MarketStress(cfg: Config, lib: MathLib, history: map<string, seq<real>>): (r: Reading)
    requires |cfg.instruments| > 0 && Valid(lib) && Usable(cfg, history)
    ensures |r.scores| == |cfg.instruments|
    ensures forall i :: 0 <= i < |r.scores| ==>
              r.scores[i] == VolatilityScore(lib, Fetched(history, cfg.instruments[i].symbol))
    ensures 0.0 <= r.composite <= 100.0
    ensures Bounded(r.scores, 0.0, 100.0)
    ensures forall i :: 0 <= i < |r.scores| && cfg.instruments[i].symbol !in history ==> r.scores[i] == Neutral
    ensures NonNegative(WeightVector(cfg)) ==> Min(r.scores) <= r.composite <= Max(r.scores)
    ensures Sum(WeightVector(cfg)) > 0.0 ==> r.composite == Clamp(WeightedMean(WeightVector(cfg), r.scores))
    ensures Sum(WeightVector(cfg)) <= 0.0 ==> r.composite == Clamp(Mean(r.scores))
  {
    var indicator := VolatilityIndicator(lib, history);
    IndicatorScores(cfg, lib, history);
    CompositeBetweenScores(cfg, indicator);
    Compute(cfg, indicator)
  }

  /** Under `Usable`, every configured instrument is scored by its own
      series, and every score lies in [0, 100]. */
  lemma IndicatorScores(cfg: Config, lib: MathLib, history: map<string, seq<real>>)
    requires Valid(lib) && Usable(cfg, history)
    ensures var vs := Scores(cfg, VolatilityIndicator(lib, history));
            && (forall i :: 0 <= i < |vs| ==>
                  vs[i] == VolatilityScore(lib, Fetched(history, cfg.instruments[i].symbol)))
            && Bounded(vs, 0.0, 100.0)
  {
    var vs := Scores(cfg, VolatilityIndicator(lib, history));
    forall i | 0 <= i < |vs|
      ensures vs[i] == VolatilityScore(lib, Fetched(history, cfg.instruments[i].symbol))
    {
      assert NonZeroPrices(Fetched(history, cfg.instruments[i].symbol));
    }
  }

  /** When every fetch fails, every score and the composite are exactly 50. */
  lemma AllFetchesFailed(lib: MathLib)
    requires Valid(lib)
    ensures var r := MarketStress(Configured, lib, map[]);
            && r.scores == [50.0, 50.0, 50.0, 50.0, 50.0, 50.0, 50.0, 50.0]
            && r.composite == 50.0
  {
    var indicator := VolatilityIndicator(lib, map[]);
    assert forall i :: 0 <= i < |Tickers| ==> Scores(Configured, indicator)[i] == 50.0;
    UnanimousScores(Configured, indicator, 50.0);
  }

  /** Seven neutral scores and a VIX score of 90 give 50 + 0.23 * 40. */
  lemma VixShock()
    ensures Compute(Configured, s => if s == "^VIX" then Scored(90.0) else Scored(50.0)).composite == 59.2
  {
    var indicator := s => if s == "^VIX" then Scored(90.0) else Scored(50.0);
    ConfiguredWeights();
    var vs := Scores(Configured, indicator);
    assert Tickers[6].symbol == "^VIX";
    assert Tickers[0].symbol != "^VIX" && Tickers[1].symbol != "^VIX";
    assert Tickers[2].symbol != "^VIX" && Tickers[3].symbol != "^VIX";
    assert Tickers[4].symbol != "^VIX" && Tickers[5].symbol != "^VIX";
    assert Tickers[7].symbol != "^VIX";
    assert vs == [50.0, 50.0, 50.0, 50.0, 50.0, 50.0, 90.0, 50.0];
    SingleShock(Configured, indicator, 6, 50.0, 40.0);
  }
}
