/** The numpy/pandas statistics the scorer relies on, over exact reals:
    sums, the arithmetic and weighted means (`np.mean`, `np.average`), the
    population variance behind `np.std` (ddof = 0) and the sample variance
    behind pandas' `Series.std` (ddof = 1).
 */
module Stats {
  import opened Numerics

  function Sum(xs: seq<real>): real
  {
    if |xs| == 0 then 0.0 else xs[0] + Sum(xs[1..])
  }

  /** `np.mean`. */
  function Mean(xs: seq<real>): (m: real)
    requires |xs| > 0
    ensures m * (|xs| as real) == Sum(xs)
  {
    Sum(xs) / |xs| as real
  }

  /** The sum of squared deviations of `xs` from the centre `c`. */
  function SquaredDeviations(xs: seq<real>, c: real): (d: real)
    ensures d >= 0.0
  {
    if |xs| == 0 then 0.0
    else
      var e := xs[0] - c;
      SquareNonNegative(e);
      e * e + SquaredDeviations(xs[1..], c)
  }

  lemma SquareNonNegative(e: real)
    ensures e * e >= 0.0
  {
    if e < 0.0 {
      assert e * e == (-e) * (-e);
    }
  }

  /** The variance `np.std` takes the root of (divisor n). */
  function PopulationVariance(xs: seq<real>): (v: real)
    requires |xs| > 0
    ensures v >= 0.0
  {
    SquaredDeviations(xs, Mean(xs)) / |xs| as real
  }

  /** The variance pandas' `std` takes the root of (divisor n - 1). */
  function SampleVariance(xs: seq<real>): (v: real)
    requires |xs| >= 2
    ensures v >= 0.0
  {
    SquaredDeviations(xs, Mean(xs)) / (|xs| - 1) as real
  }

  /** `np.std(xs)`: the non-negative root of the population variance. */
  function PopulationStd(lib: MathLib, xs: seq<real>): (s: real)
    requires Valid(lib) && |xs| > 0
    ensures s >= 0.0 && s * s == PopulationVariance(xs)
  {
    lib.sqrt(PopulationVariance(xs))
  }

  /** `Series.std()`: the non-negative root of the sample variance. */
  function SampleStd(lib: MathLib, xs: seq<real>): (s: real)
    requires Valid(lib) && |xs| >= 2
    ensures s >= 0.0 && s * s == SampleVariance(xs)
  {
    lib.sqrt(SampleVariance(xs))
  }

  /** The smallest element of a non-empty sequence. */
  function Min(xs: seq<real>): (m: real)
    requires |xs| > 0
    ensures exists i :: 0 <= i < |xs| && xs[i] == m
    ensures forall i :: 0 <= i < |xs| ==> m <= xs[i]
  {
    if |xs| == 1 then xs[0]
    else
      var rest := Min(xs[1..]);
      assert forall i :: 1 <= i < |xs| ==> xs[i] == xs[1..][i - 1];
      if xs[0] <= rest then xs[0] else rest
  }

  /** The largest element of a non-empty sequence. */
  function Max(xs: seq<real>): (m: real)
    requires |xs| > 0
    ensures exists i :: 0 <= i < |xs| && xs[i] == m
    ensures forall i :: 0 <= i < |xs| ==> xs[i] <= m
  {
    if |xs| == 1 then xs[0]
    else
      var rest := Max(xs[1..]);
      assert forall i :: 1 <= i < |xs| ==> xs[i] == xs[1..][i - 1];
      if rest <= xs[0] then xs[0] else rest
  }

  /** Σ ws[i] * vs[i]. */
  function WeightedSum(ws: seq<real>, vs: seq<real>): real
    requires |ws| == |vs|
  {
    if |ws| == 0 then 0.0 else ws[0] * vs[0] + WeightedSum(ws[1..], vs[1..])
  }

  /** `np.average(vs, weights=ws)`; numpy raises when the weights sum to
      zero, and its only caller rules that out. */
  function WeightedMean(ws: seq<real>, vs: seq<real>): (m: real)
    requires |ws| == |vs| && Sum(ws) != 0.0
    ensures m * Sum(ws) == WeightedSum(ws, vs)
  {
    WeightedSum(ws, vs) / Sum(ws)
  }

  predicate Bounded(xs: seq<real>, lo: real, hi: real)
  {
    forall i :: 0 <= i < |xs| ==> lo <= xs[i] <= hi
  }

  predicate NonNegative(ws: seq<real>)
  {
    forall i :: 0 <= i < |ws| ==> 0.0 <= ws[i]
  }

  lemma {:induction false} SumBounds(xs: seq<real>, lo: real, hi: real)
    requires Bounded(xs, lo, hi)
    ensures |xs| as real * lo <= Sum(xs) <= |xs| as real * hi
  {
    if |xs| > 0 {
      assert Bounded(xs[1..], lo, hi) by {
        forall i | 0 <= i < |xs[1..]| ensures lo <= xs[1..][i] <= hi {
          assert xs[1..][i] == xs[i + 1];
        }
      }
      SumBounds(xs[1..], lo, hi);
    }
  }

  lemma DivisionBounds(lo: real, hi: real, s: real, n: real)
    requires n > 0.0 && n * lo <= s <= n * hi
    ensures lo <= s / n <= hi
  {
    DivideMonotone(n * lo, s, n);
    DivideMonotone(s, n * hi, n);
    assert n * lo / n == lo;
    assert n * hi / n == hi;
  }

  /** The arithmetic mean lies between any bounds of its elements. */
  lemma MeanBounds(xs: seq<real>, lo: real, hi: real)
    requires |xs| > 0 && Bounded(xs, lo, hi)
    ensures lo <= Mean(xs) <= hi
  {
    SumBounds(xs, lo, hi);
    DivisionBounds(lo, hi, Sum(xs), |xs| as real);
  }

  lemma ScaleBounds(w: real, v: real, lo: real, hi: real)
    requires 0.0 <= w && lo <= v <= hi
    ensures w * lo <= w * v <= w * hi
  {
    assert w * v - w * lo == w * (v - lo);
    assert w * hi - w * v == w * (hi - v);
  }

  lemma Distribute(a: real, b: real, c: real)
    ensures (a + b) * c == a * c + b * c
  {
  }

  lemma {:induction false} WeightedSumBounds(ws: seq<real>, vs: seq<real>, lo: real, hi: real)
    requires |ws| == |vs| && NonNegative(ws) && Bounded(vs, lo, hi)
    ensures Sum(ws) * lo <= WeightedSum(ws, vs) <= Sum(ws) * hi
  {
    if |ws| > 0 {
      assert NonNegative(ws[1..]) by {
        forall i | 0 <= i < |ws[1..]| ensures 0.0 <= ws[1..][i] {
          assert ws[1..][i] == ws[i + 1];
        }
      }
      assert Bounded(vs[1..], lo, hi) by {
        forall i | 0 <= i < |vs[1..]| ensures lo <= vs[1..][i] <= hi {
          assert vs[1..][i] == vs[i + 1];
        }
      }
      WeightedSumBounds(ws[1..], vs[1..], lo, hi);
      ScaleBounds(ws[0], vs[0], lo, hi);
      var rest := Sum(ws[1..]);
      assert Sum(ws) == ws[0] + rest;
      Distribute(ws[0], rest, lo);
      Distribute(ws[0], rest, hi);
      assert ws[0] * lo == lo * ws[0] && ws[0] * hi == hi * ws[0];
    }
  }

  /** With non-negative weights of positive total, the weighted mean lies
      between any bounds of the values. */
  lemma WeightedMeanBounds(ws: seq<real>, vs: seq<real>, lo: real, hi: real)
    requires |ws| == |vs| && NonNegative(ws) && Sum(ws) > 0.0 && Bounded(vs, lo, hi)
    ensures lo <= WeightedMean(ws, vs) <= hi
  {
    WeightedSumBounds(ws, vs, lo, hi);
    DivisionBounds(lo, hi, WeightedSum(ws, vs), Sum(ws));
  }

  /** With equal weights the weighted sum is the weight times the plain sum. */
  lemma {:induction false} UniformWeightedSum(ws: seq<real>, vs: seq<real>, w: real)
    requires |ws| == |vs| && forall i :: 0 <= i < |ws| ==> ws[i] == w
    ensures WeightedSum(ws, vs) == w * Sum(vs)
    ensures Sum(ws) == |ws| as real * w
  {
    if |ws| > 0 {
      assert forall i :: 0 <= i < |ws[1..]| ==> ws[1..][i] == w by {
        forall i | 0 <= i < |ws[1..]| ensures ws[1..][i] == w {
          assert ws[1..][i] == ws[i + 1];
        }
      }
      UniformWeightedSum(ws[1..], vs[1..], w);
    }
  }

  /** A weighted mean with equal positive weights is the plain mean. */
  lemma UniformWeightedMean(ws: seq<real>, vs: seq<real>, w: real)
    requires |ws| == |vs| && |ws| > 0 && w > 0.0
    requires forall i :: 0 <= i < |ws| ==> ws[i] == w
    ensures Sum(ws) > 0.0 && WeightedMean(ws, vs) == Mean(vs)
  {
    UniformWeightedSum(ws, vs, w);
    var n := |ws| as real;
    assert Sum(ws) == n * w;
    assert WeightedMean(ws, vs) == (w * Sum(vs)) / (n * w);
    assert (w * Sum(vs)) / (n * w) == Sum(vs) / n;
  }

  /** Scores that all equal `c` except one, which is off by `d`, have a
      weighted sum of `c` times the total weight plus `d` times that one
      weight. */
  lemma {:induction false} WeightedSumOneDeviation(ws: seq<real>, vs: seq<real>, c: real, k: nat, d: real)
    requires |ws| == |vs| && k < |vs|
    requires forall i :: 0 <= i < |vs| ==> vs[i] == (if i == k then c + d else c)
    ensures WeightedSum(ws, vs) == c * Sum(ws) + d * ws[k]
  {
    if k == 0 {
      WeightedSumUniform(ws[1..], vs[1..], c);
    } else {
      assert forall i :: 0 <= i < |vs[1..]| ==> vs[1..][i] == (if i == k - 1 then c + d else c) by {
        forall i | 0 <= i < |vs[1..]| ensures vs[1..][i] == (if i == k - 1 then c + d else c) {
          assert vs[1..][i] == vs[i + 1];
        }
      }
      WeightedSumOneDeviation(ws[1..], vs[1..], c, k - 1, d);
      assert ws[1..][k - 1] == ws[k];
    }
  }

  /** Scores that all equal `c` have a weighted sum of `c` times the total
      weight. */
  lemma {:induction false} WeightedSumUniform(ws: seq<real>, vs: seq<real>, c: real)
    requires |ws| == |vs|
    requires forall i :: 0 <= i < |vs| ==> vs[i] == c
    ensures WeightedSum(ws, vs) == c * Sum(ws)
  {
    if |ws| > 0 {
      assert forall i :: 0 <= i < |vs[1..]| ==> vs[1..][i] == c by {
        forall i | 0 <= i < |vs[1..]| ensures vs[1..][i] == c {
          assert vs[1..][i] == vs[i + 1];
        }
      }
      WeightedSumUniform(ws[1..], vs[1..], c);
    }
  }

  /** A sequence whose every element is `c` sums to n·c and has no
      squared deviation from `c`. */
  lemma {:induction false} ConstantSum(xs: seq<real>, c: real)
    requires forall i :: 0 <= i < |xs| ==> xs[i] == c
    ensures Sum(xs) == |xs| as real * c
    ensures SquaredDeviations(xs, c) == 0.0
  {
    if |xs| > 0 {
      assert forall i :: 0 <= i < |xs[1..]| ==> xs[1..][i] == c by {
        forall i | 0 <= i < |xs[1..]| ensures xs[1..][i] == c {
          assert xs[1..][i] == xs[i + 1];
        }
      }
      ConstantSum(xs[1..], c);
    }
  }

  /** A constant sample has zero spread under either estimator. */
  lemma ConstantVariance(xs: seq<real>, c: real)
    requires |xs| > 0 && forall i :: 0 <= i < |xs| ==> xs[i] == c
    ensures Mean(xs) == c && PopulationVariance(xs) == 0.0
    ensures |xs| >= 2 ==> SampleVariance(xs) == 0.0
  {
    ConstantSum(xs, c);
    assert Mean(xs) == (|xs| as real * c) / |xs| as real;
  }

  /** A root is below a positive threshold exactly when its square is below
      the threshold's square: `np.std(xs) < 1e-8` is `var(xs) < 1e-16`. */
  lemma StdBelowIffVarianceBelow(lib: MathLib, xs: seq<real>, t: real)
    requires Valid(lib) && |xs| > 0 && t > 0.0
    ensures PopulationStd(lib, xs) < t <==> PopulationVariance(xs) < t * t
  {
    var s := PopulationStd(lib, xs);
    assert s * s == PopulationVariance(xs);
    if s < t {
      SquareStrictMonotone(s, t);
    } else {
      SquareMonotone(t, s);
    }
  }

  lemma SquareMonotone(a: real, b: real)
    requires 0.0 <= a <= b
    ensures a * a <= b * b
  {
    assert a * a <= a * b;
    assert a * b <= b * b;
  }

  lemma SquareStrictMonotone(a: real, b: real)
    requires 0.0 <= a < b
    ensures a * a < b * b
  {
    var d := b - a;
    assert b * b == a * a + a * d + b * d;
    assert a * d >= 0.0;
    assert b * d > 0.0;
  }
}
