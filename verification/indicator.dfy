/** `Indicator.scale_with_history`: the normalisation every indicator uses
    to turn a reading into a 0-100 stress score. The reading is compared with
    a history sample by its z-score, and the z-score is mapped through the
    standard normal distribution function. Too short or too flat a history
    yields the neutral score.
 */
module Indicator {
  import opened Numerics
  import opened Stats

  /** The score returned whenever the data cannot support a judgement. */
  const Neutral: real := 50.0

  /** Histories shorter than this are not used. */
  const MinHistory: nat := 10

  /** A population standard deviation below this (1e-8) counts as a flat
      history. */
  const MinSpread: real := 0.00000001

  /** Whether `values` is long and spread out enough to score against. */
  ghost predicate Informative(lib: MathLib, values: seq<real>)
    requires Valid(lib)
  {
    |values| >= MinHistory && PopulationStd(lib, values) >= MinSpread
  }

  /** The z-score of `current` against the mean and population standard
      deviation of `values`. */
  function ZScore(lib: MathLib, values: seq<real>, current: real): (z: real)
    requires Valid(lib) && |values| > 0 && PopulationStd(lib, values) > 0.0
    ensures Mean(values) + z * PopulationStd(lib, values) == current
    ensures z > 0.0 <==> current > Mean(values)
    ensures z == 0.0 <==> current == Mean(values)
  {
    (current - Mean(values)) / PopulationStd(lib, values)
  }

  function ScaleWithHistory(lib: MathLib, values: seq<real>, current: real): (r: real)
    requires Valid(lib)
    ensures 0.0 <= r <= 100.0
    ensures |values| < MinHistory ==> r == Neutral
    ensures |values| >= MinHistory && PopulationStd(lib, values) < MinSpread ==> r == Neutral
  {
    if |values| < MinHistory then Neutral
    else
      var s := PopulationStd(lib, values);
      if s < MinSpread then Neutral
      else Clamp(Phi(lib, ZScore(lib, values, current)) * 100.0)
  }

  /** On an informative history the clamp never bites: the score is exactly
      the normal percentile of the z-score, times 100. */
  lemma ScoreIsPercentile(lib: MathLib, values: seq<real>, current: real)
    requires Valid(lib) && Informative(lib, values)
    ensures ScaleWithHistory(lib, values, current)
         == 100.0 * Phi(lib, (current - Mean(values)) / PopulationStd(lib, values))
  {
  }

  /** The neutral spread test is a test on the variance: a standard
      deviation below 1e-8 is a variance below 1e-16. */
  lemma FlatHistoryByVariance(lib: MathLib, values: seq<real>, current: real)
    requires Valid(lib) && |values| >= MinHistory
    ensures PopulationVariance(values) < 0.0000000000000001
            ==> ScaleWithHistory(lib, values, current) == Neutral
    ensures PopulationVariance(values) >= 0.0000000000000001
            ==> ScaleWithHistory(lib, values, current)
                == 100.0 * Phi(lib, (current - Mean(values)) / PopulationStd(lib, values))
  {
    StdBelowIffVarianceBelow(lib, values, MinSpread);
    assert MinSpread * MinSpread == 0.0000000000000001;
  }

  /** A history of one repeated value scores neutral whatever the reading. */
  lemma ConstantHistoryIsNeutral(lib: MathLib, values: seq<real>, c: real, current: real)
    requires Valid(lib) && |values| > 0
    requires forall i :: 0 <= i < |values| ==> values[i] == c
    ensures ScaleWithHistory(lib, values, current) == Neutral
  {
    ConstantVariance(values, c);
    var s := PopulationStd(lib, values);
    if s > 0.0 {
      SquareStrictMonotone(0.0, s);
    }
  }

  /** A reading equal to the historical mean scores exactly 50. */
  lemma MeanReadingIsNeutral(lib: MathLib, values: seq<real>)
    requires Valid(lib) && |values| > 0
    ensures ScaleWithHistory(lib, values, Mean(values)) == Neutral
  {
    if |values| >= MinHistory && PopulationStd(lib, values) >= MinSpread {
      assert ZScore(lib, values, Mean(values)) == 0.0;
      PhiAtZero(lib);
    }
  }

  /** With the history fixed, a higher reading never lowers the score. */
  lemma ScaleMonotone(lib: MathLib, values: seq<real>, a: real, b: real)
    requires Valid(lib) && a <= b
    ensures ScaleWithHistory(lib, values, a) <= ScaleWithHistory(lib, values, b)
  {
    if |values| >= MinHistory && PopulationStd(lib, values) >= MinSpread {
      var m := Mean(values);
      var s := PopulationStd(lib, values);
      DivideMonotone(a - m, b - m, s);
      PhiMonotone(lib, ZScore(lib, values, a), ZScore(lib, values, b));
      ClampMonotone(Phi(lib, ZScore(lib, values, a)) * 100.0, Phi(lib, ZScore(lib, values, b)) * 100.0);
    }
  }
}
