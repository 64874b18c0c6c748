/** `VolatilityIndicator.calculate`: from a series of closing prices to a
    stress score. Simple returns are taken between consecutive closes, their
    standard deviation over a trailing window of ten observations (times
    100) is the volatility series, and the latest volatility is scored
    against every defined volatility value, itself included.

    pandas' missing values are modelled by `Cell`: a column of a frame is a
    sequence of cells, `NaN` where pandas has no value.
 */
module Volatility {
  import opened Numerics
  import opened Stats
  import opened Indicator

  datatype Cell = NaN | Num(value: real)

  /** The rolling window of the volatility series. */
  const Window: nat := 10

  /** The shortest series the indicator scores at all; a literal of its
      own in the indicator, equal to the window by coincidence. */
  const MinCloses: nat := 10

  /** A close of zero would make the next return infinite; see README. */
  predicate NonZeroPrices(prices: seq<real>)
  {
    forall i :: 0 <= i < |prices| ==> prices[i] != 0.0
  }

  predicate AllNum(cells: seq<Cell>)
  {
    forall i :: 0 <= i < |cells| ==> cells[i].Num?
  }

  /** The values of a stretch of cells that are all defined. */
  function Values(cells: seq<Cell>): (vs: seq<real>)
    requires AllNum(cells)
    ensures |vs| == |cells|
    ensures forall i :: 0 <= i < |cells| ==> cells[i] == Num(vs[i])
  {
    seq(|cells|, i requires 0 <= i < |cells| => cells[i].value)
  }

  /** `Series.pct_change()`: the first entry has no previous close; every
      other entry is the return that carries the previous close to this one. */
  function PctChange(prices: seq<real>): (r: seq<Cell>)
    requires NonZeroPrices(prices)
    ensures |r| == |prices|
    ensures |r| > 0 ==> r[0] == NaN
    ensures forall i :: 1 <= i < |r| ==> r[i].Num? && prices[i - 1] * (1.0 + r[i].value) == prices[i]
  {
    seq(|prices|, i requires 0 <= i < |prices| =>
      if i == 0 then NaN else Num(prices[i] / prices[i - 1] - 1.0))
  }

  /** Whether the window of width `w` ending at position `j` is complete: it
      lies inside the column and holds no missing value (pandas'
      `min_periods` defaults to the window width). */
  predicate FullWindow(cells: seq<Cell>, w: nat, j: int)
  {
    w <= j + 1 <= |cells| && AllNum(cells[j + 1 - w..j + 1])
  }

  /** The rolling standard deviation at position `j`. */
  function WindowStd(lib: MathLib, cells: seq<Cell>, w: nat, j: int): (c: Cell)
    requires Valid(lib) && w >= 2
    ensures c.Num? <==> FullWindow(cells, w, j)
    ensures c.Num? ==> 0.0 <= c.value && c.value * c.value == SampleVariance(Values(cells[j + 1 - w..j + 1]))
  {
    if FullWindow(cells, w, j) then Num(SampleStd(lib, Values(cells[j + 1 - w..j + 1]))) else NaN
  }

  /** `Series.rolling(window=w).std()`: at each position, the sample standard
      deviation of the trailing `w` values, or NaN when that window is not
      complete. */
  function RollingStd(lib: MathLib, cells: seq<Cell>, w: nat): (r: seq<Cell>)
    requires Valid(lib) && w >= 2
    ensures |r| == |cells|
    ensures forall j :: 0 <= j < |r| ==> r[j] == WindowStd(lib, cells, w, j)
    ensures forall j :: 0 <= j < |r| ==> (r[j].Num? <==> FullWindow(cells, w, j))
  {
    seq(|cells|, j requires 0 <= j < |cells| => WindowStd(lib, cells, w, j))
  }

  /** A column multiplied by a constant; missing values stay missing. */
  function Times(cells: seq<Cell>, k: real): (r: seq<Cell>)
    ensures |r| == |cells|
    ensures forall j :: 0 <= j < |r| ==> (r[j].Num? <==> cells[j].Num?)
    ensures forall j :: 0 <= j < |r| && r[j].Num? ==> r[j].value == k * cells[j].value
  {
    seq(|cells|, j requires 0 <= j < |cells| =>
      match cells[j]
      case NaN => NaN
      case Num(v) => Num(k * v))
  }

  /** `dropna().values`: the defined values, in column order. */
  function DropNaN(cells: seq<Cell>): (vs: seq<real>)
    ensures |vs| <= |cells|
    ensures forall x :: x in vs ==> Num(x) in cells
    ensures forall i :: 0 <= i < |cells| && cells[i].Num? ==> cells[i].value in vs
    ensures AllNum(cells) ==> vs == Values(cells)
  {
    if |cells| == 0 then []
    else
      match cells[0]
      case NaN => DropNaN(cells[1..])
      case Num(v) => [v] + DropNaN(cells[1..])
  }

  /** `dropna` keeps column order: dropping the missing values of two
      stretches one after the other gives the values of the first followed
      by the values of the second. */
  lemma {:induction false} DropNaNConcat(a: seq<Cell>, b: seq<Cell>)
    ensures DropNaN(a + b) == DropNaN(a) + DropNaN(b)
  {
    if |a| > 0 {
      assert (a + b)[1..] == a[1..] + b;
      DropNaNConcat(a[1..], b);
    } else {
      assert a + b == b;
    }
  }

  /** The volatility column: rolling standard deviation of the returns, in
      percent. */
  function VolatilitySeries(lib: MathLib, prices: seq<real>): (vol: seq<Cell>)
    requires Valid(lib) && NonZeroPrices(prices)
    ensures |vol| == |prices|
    ensures forall j :: 0 <= j < |vol| ==> (vol[j].Num? <==> FullWindow(PctChange(prices), Window, j))
    ensures forall j :: 0 <= j < |vol| && vol[j].Num? ==> 0.0 <= vol[j].value
    ensures forall j :: 0 <= j < |vol| && FullWindow(PctChange(prices), Window, j) ==>
              vol[j].value == 100.0 * SampleStd(lib, Values(PctChange(prices)[j + 1 - Window..j + 1]))
  {
    Times(RollingStd(lib, PctChange(prices), Window), 100.0)
  }

  function VolatilityScore(lib: MathLib, prices: seq<real>): (r: real)
    requires Valid(lib) && NonZeroPrices(prices)
    ensures 0.0 <= r <= 100.0
    ensures |prices| < MinCloses ==> r == Neutral
  {
    if |prices| == 0 || |prices| < MinCloses then Neutral
    else
      var vol := VolatilitySeries(lib, prices);
      var history := DropNaN(vol);
      match vol[|vol| - 1]
      // Only with exactly `Window` closes: the history is then empty and
      // scale_with_history answers neutral whatever the reading.
      case NaN => Neutral
      case Num(current) => ScaleWithHistory(lib, history, current)
  }

  /** The volatility column is defined exactly from position `Window` on:
      position 0 has no return and positions 1 to `Window - 1` have too few
      returns before them. */
  lemma VolatilityDefinedFrom(lib: MathLib, prices: seq<real>)
    requires Valid(lib) && NonZeroPrices(prices)
    ensures forall j :: 0 <= j < |prices| ==> (VolatilitySeries(lib, prices)[j].Num? <==> j >= Window)
  {
    var rets := PctChange(prices);
    var rolling := RollingStd(lib, rets, Window);
    forall j | 0 <= j < |prices|
      ensures rolling[j].Num? <==> j >= Window
    {
      if j >= Window {
        var win := rets[j + 1 - Window..j + 1];
        assert AllNum(win) by {
          forall k | 0 <= k < |win| ensures win[k].Num? {
            assert win[k] == rets[j + 1 - Window + k];
          }
        }
      } else if j + 1 >= Window {
        assert j + 1 - Window == 0;
        assert rets[j + 1 - Window..j + 1][0] == rets[0] == NaN;
      }
    }
  }

  /** The tail of a column missing exactly before `k` is missing exactly
      before `k - 1` (before 0 when `k` is 0). */
  lemma NaNPrefixTail(cells: seq<Cell>, k: nat)
    requires 0 < |cells| && k <= |cells|
    requires forall j :: 0 <= j < |cells| ==> (cells[j].NaN? <==> j < k)
    ensures var k' := if k > 0 then k - 1 else 0;
            forall j :: 0 <= j < |cells[1..]| ==> (cells[1..][j].NaN? <==> j < k')
  {
    forall j | 0 <= j < |cells[1..]|
      ensures cells[1..][j].NaN? <==> j < (if k > 0 then k - 1 else 0)
    {
      assert cells[1..][j] == cells[j + 1];
    }
  }

  /** Dropping the missing values of a column that is missing exactly before
      position `k` leaves the values from `k` on, in order. */
  lemma {:induction false} DropLeadingNaN(cells: seq<Cell>, k: nat)
    requires k <= |cells|
    requires forall j :: 0 <= j < |cells| ==> (cells[j].NaN? <==> j < k)
    ensures |DropNaN(cells)| == |cells| - k
    ensures forall i :: 0 <= i < |cells| - k ==> cells[k + i] == Num(DropNaN(cells)[i])
  {
    if |cells| > 0 {
      var tail := cells[1..];
      NaNPrefixTail(cells, k);
      if k > 0 {
        DropLeadingNaN(tail, k - 1);
        assert DropNaN(cells) == DropNaN(tail);
        forall i | 0 <= i < |cells| - k ensures cells[k + i] == Num(DropNaN(cells)[i]) {
          assert cells[k + i] == tail[k - 1 + i];
        }
      } else {
        DropLeadingNaN(tail, 0);
        assert DropNaN(cells) == [cells[0].value] + DropNaN(tail);
        forall i | 0 <= i < |cells| ensures cells[i] == Num(DropNaN(cells)[i]) {
          if i > 0 {
            assert cells[i] == tail[i - 1];
          }
        }
      }
    }
  }

  /** With n >= 11 closes there are n - 10 defined volatility values, and
      the current reading is the last of them. */
  lemma HistoryShape(lib: MathLib, prices: seq<real>)
    requires Valid(lib) && NonZeroPrices(prices) && |prices| > Window
    ensures var vol := VolatilitySeries(lib, prices);
            var history := DropNaN(vol);
            && |history| == |prices| - Window
            && vol[|vol| - 1] == Num(history[|history| - 1])
  {
    var vol := VolatilitySeries(lib, prices);
    VolatilityDefinedFrom(lib, prices);
    DropLeadingNaN(vol, Window);
    assert vol[Window + (|prices| - Window - 1)] == vol[|vol| - 1];
  }

  /** With exactly ten closes the last volatility is missing and the history
      is empty, so the neutral branch is what scale_with_history would
      return for any reading. */
  lemma NaNReadingHasNoHistory(lib: MathLib, prices: seq<real>)
    requires Valid(lib) && NonZeroPrices(prices) && |prices| >= Window
    ensures var vol := VolatilitySeries(lib, prices);
            vol[|vol| - 1].NaN? <==> |prices| == Window
    ensures |prices| == Window ==>
              forall c :: ScaleWithHistory(lib, DropNaN(VolatilitySeries(lib, prices)), c) == Neutral
  {
    var vol := VolatilitySeries(lib, prices);
    VolatilityDefinedFrom(lib, prices);
    DropLeadingNaN(vol, if |prices| == Window then |prices| else Window);
  }

  /** Fewer than `Window + MinHistory` (twenty) closes leave fewer than
      `MinHistory` defined volatility values, and the score is neutral. */
  lemma ShortSeriesIsNeutral(lib: MathLib, prices: seq<real>)
    requires Valid(lib) && NonZeroPrices(prices) && |prices| < Window + MinHistory
    ensures VolatilityScore(lib, prices) == Neutral
  {
    if |prices| > Window {
      HistoryShape(lib, prices);
    } else if |prices| == Window {
      NaNReadingHasNoHistory(lib, prices);
    }
  }

  /** From eleven closes on, the score is the current volatility scored
      against a history that contains it as its last element. */
  lemma ReadingIsScoredAgainstItself(lib: MathLib, prices: seq<real>)
    requires Valid(lib) && NonZeroPrices(prices) && |prices| > Window
    ensures var history := DropNaN(VolatilitySeries(lib, prices));
            && |history| > 0
            && VolatilityScore(lib, prices) == ScaleWithHistory(lib, history, history[|history| - 1])
  {
    HistoryShape(lib, prices);
  }
}
