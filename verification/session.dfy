/** The two scoring passes of a run: one over the requested window, one
    over the window of the previous session, whose composites the gauge
    shows as a value and a day-over-day delta.
 */
module Session {
  import opened Numerics
  import opened Composite
  import opened Calendar

  /** The composite of the requested window and of the previous session's. */
  datatype ComparativePair = ComparativePair(current: real, previous: real)

  /** The provider answers both windows of a run with non-zero closes. */
  ghost predicate ReadsUsable(cfg: Config, fetch: DateRange -> map<string, seq<real>>, range: DateRange)
  {
    Usable(cfg, fetch(range)) && Usable(cfg, fetch(ComparisonRange(range.end)))
  }

  /** A run's two composites: `current` scores the requested window and
      `previous` scores the window that ends on the previous session. */
  function CompareToPreviousSession(cfg: Config, lib: MathLib,
                                    fetch: DateRange -> map<string, seq<real>>,
                                    range: DateRange): (p: ComparativePair)
    requires |cfg.instruments| > 0 && Valid(lib) && ReadsUsable(cfg, fetch, range)
    ensures 0.0 <= p.current <= 100.0 && 0.0 <= p.previous <= 100.0
    ensures p.current == MarketStress(cfg, lib, fetch(range)).composite
    ensures p.previous == MarketStress(cfg, lib, fetch(ComparisonRange(range.end))).composite
    ensures fetch(range) == fetch(ComparisonRange(range.end)) ==> p.current == p.previous
  {
    var previous := ComparisonRange(range.end);
    ComparativePair(MarketStress(cfg, lib, fetch(range)).composite,
                    MarketStress(cfg, lib, fetch(previous)).composite)
  }

  /** The pair depends on the provider only through the two windows it is
      asked about: the requested one and the previous session's, which ends
      on a business day before the requested end and spans the same three
      years. */
  lemma PairReadsTwoWindows(cfg: Config, lib: MathLib,
                            f: DateRange -> map<string, seq<real>>,
                            g: DateRange -> map<string, seq<real>>,
                            range: DateRange)
    requires |cfg.instruments| > 0 && Valid(lib) && ReadsUsable(cfg, f, range) && ReadsUsable(cfg, g, range)
    requires f(range) == g(range)
    requires f(ComparisonRange(range.end)) == g(ComparisonRange(range.end))
    ensures CompareToPreviousSession(cfg, lib, f, range) == CompareToPreviousSession(cfg, lib, g, range)
  {
  }

  /** `previous` is the composite of whatever window the comparison range
      turns out to be. */
  lemma PreviousReadsWindow(cfg: Config, lib: MathLib,
                            fetch: DateRange -> map<string, seq<real>>,
                            range: DateRange, window: DateRange)
    requires |cfg.instruments| > 0 && Valid(lib) && ReadsUsable(cfg, fetch, range)
    requires ComparisonRange(range.end) == window
    ensures Usable(cfg, fetch(window))
    ensures CompareToPreviousSession(cfg, lib, fetch, range).previous
         == MarketStress(cfg, lib, fetch(window)).composite
  {
  }

  /** A run ending on a Monday compares with the three years ending the
      Friday before. */
  lemma MondayComparesWithFriday(cfg: Config, lib: MathLib,
                                 fetch: DateRange -> map<string, seq<real>>,
                                 range: DateRange)
    requires |cfg.instruments| > 0 && Valid(lib) && ReadsUsable(cfg, fetch, range)
    requires Weekday(range.end) == 0
    ensures (ComparisonRangeOnMonday(range.end);
             CompareToPreviousSession(cfg, lib, fetch, range).previous
             == MarketStress(cfg, lib, fetch(DateRange(range.end - 3 - 1095, range.end - 3))).composite)
  {
    PreviousReadsWindow(cfg, lib, fetch, range, DateRange(range.end - 3 - 1095, range.end - 3));
  }

  /** A run ending Tuesday to Friday compares with the three years ending
      the day before. */
  lemma MidweekComparesWithDayBefore(cfg: Config, lib: MathLib,
                                     fetch: DateRange -> map<string, seq<real>>,
                                     range: DateRange)
    requires |cfg.instruments| > 0 && Valid(lib) && ReadsUsable(cfg, fetch, range)
    requires 1 <= Weekday(range.end) <= 4
    ensures (ComparisonRangeMidweek(range.end);
             CompareToPreviousSession(cfg, lib, fetch, range).previous
             == MarketStress(cfg, lib, fetch(DateRange(range.end - 1 - 1095, range.end - 1))).composite)
  {
    PreviousReadsWindow(cfg, lib, fetch, range, DateRange(range.end - 1 - 1095, range.end - 1));
  }
}
