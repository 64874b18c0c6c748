/** The date arithmetic of the command-line run: the default window ends
    yesterday and reaches back three years, and the comparison window ends
    on the business day that `pd.bdate_range(end=E, periods=2)[-2]` picks.

    Dates are day numbers in the proleptic Gregorian calendar, as Python's
    `date.toordinal()` numbers them: day 1 is Monday 1 January of year 1.
    Business days are Monday to Friday; holidays play no part.
 */
module Calendar {

  /** `date.weekday()`: 0 is Monday, 6 is Sunday. */
  function Weekday(d: int): (w: int)
    ensures 0 <= w < 7
  {
    (d + 6) % 7
  }

  predicate IsBusinessDay(d: int)
  {
    Weekday(d) < 5
  }

  /** No business day lies in the half-open span (a, b]. */
  ghost predicate NoBusinessDayIn(a: int, b: int)
  {
    forall d :: a < d <= b ==> !IsBusinessDay(d)
  }

  lemma NextDay(d: int)
    ensures Weekday(d + 1) == (Weekday(d) + 1) % 7
  {
  }

  /** The business-day offset's roll-back: a business day stays, a Saturday
      or Sunday moves back to the Friday before. */
  function RollBack(d: int): (r: int)
    ensures IsBusinessDay(r) && r <= d
    ensures NoBusinessDayIn(r, d)
    ensures IsBusinessDay(d) <==> r == d
  {
    NextDay(d - 1);
    NextDay(d - 2);
    if Weekday(d) == 5 then d - 1
    else if Weekday(d) == 6 then d - 2
    else d
  }

  /** `pd.bdate_range(end=end, periods=periods)`: the `periods` business
      days that end at `end` rolled back, in increasing order, with no
      business day skipped between neighbours. */
  function BusinessDayRange(end: int, periods: nat): (ds: seq<int>)
    ensures |ds| == periods
    ensures forall i :: 0 <= i < |ds| ==> IsBusinessDay(ds[i])
    ensures periods > 0 ==> ds[periods - 1] == RollBack(end)
    ensures forall i :: 0 <= i < |ds| - 1 ==> ds[i] < ds[i + 1] && NoBusinessDayIn(ds[i], ds[i + 1] - 1)
    decreases periods
  {
    if periods == 0 then []
    else
      var last := RollBack(end);
      BusinessDayRange(last - 1, periods - 1) + [last]
  }

  /** The end of the comparison window: the second-to-last business day of
      a two-day business range ending at `end`. */
  function ComparisonEnd(end: int): (c: int)
    ensures IsBusinessDay(c) && c < RollBack(end) <= end
    ensures NoBusinessDayIn(c, RollBack(end) - 1)
  {
    BusinessDayRange(end, 2)[0]
  }

  /** The comparison end is a business day strictly before `end`, and
      exactly one business day lies after it up to `end`: the roll-back of
      `end`. */
  lemma ComparisonEndIsPreviousSession(end: int)
    ensures var c := ComparisonEnd(end);
            && IsBusinessDay(c) && c < end
            && c < RollBack(end) <= end && IsBusinessDay(RollBack(end))
            && forall d :: c < d <= end && IsBusinessDay(d) ==> d == RollBack(end)
  {
    var ds := BusinessDayRange(end, 2);
    assert ds[0] < ds[1] && NoBusinessDayIn(ds[0], ds[1] - 1);
  }

  /** The comparison end by the weekday of `end`: Monday gives the Friday
      before, Tuesday to Friday give the day before, and Saturday or Sunday
      give the Thursday before. */
  lemma ComparisonEndByWeekday(end: int)
    ensures Weekday(end) == 0 ==> ComparisonEnd(end) == end - 3 && Weekday(end - 3) == 4
    ensures 1 <= Weekday(end) <= 4 ==> ComparisonEnd(end) == end - 1
    ensures Weekday(end) == 5 ==> ComparisonEnd(end) == end - 2 && Weekday(end - 2) == 3
    ensures Weekday(end) == 6 ==> ComparisonEnd(end) == end - 3 && Weekday(end - 3) == 3
  {
    var last := RollBack(end);
    assert ComparisonEnd(end) == RollBack(last - 1);
    NextDay(end - 1);
    NextDay(end - 2);
    NextDay(end - 3);
    NextDay(end - 4);
  }

  /** A window of days `start` to `end`, as the data provider receives it. */
  datatype DateRange = DateRange(start: int, end: int)

  /** `timedelta(days=365 * 3)`. */
  const LookbackDays: int := 365 * 3

  /** The window used when no dates are given: it ends the day before
      `today` and starts three years of days earlier. */
  function DefaultRange(today: int): (r: DateRange)
    ensures today - r.end == 1
    ensures r.end - r.start == 1095
  {
    var end := today - 1;
    DateRange(end - LookbackDays, end)
  }

  /** The window of the previous session: it ends on the comparison end and
      spans the same three years as the default window. */
  function ComparisonRange(end: int): (r: DateRange)
    ensures IsBusinessDay(r.end) && r.end < end
    ensures r.end < RollBack(end)
    ensures forall d :: r.end < d <= end && IsBusinessDay(d) ==> d == RollBack(end)
    ensures r.end - r.start == 1095
  {
    ComparisonEndIsPreviousSession(end);
    var c := ComparisonEnd(end);
    DateRange(c - LookbackDays, c)
  }

  /** The comparison window by the weekday of `end`: a Monday end compares
      with the window ending the Friday before, a Tuesday to Friday end with
      the window ending the day before, a weekend end with the window ending
      the Thursday before. */
  lemma ComparisonRangeByWeekday(end: int)
    ensures Weekday(end) == 0 ==> ComparisonRange(end) == DateRange(end - 3 - 1095, end - 3)
    ensures 1 <= Weekday(end) <= 4 ==> ComparisonRange(end) == DateRange(end - 1 - 1095, end - 1)
    ensures Weekday(end) == 5 ==> ComparisonRange(end) == DateRange(end - 2 - 1095, end - 2)
    ensures Weekday(end) == 6 ==> ComparisonRange(end) == DateRange(end - 3 - 1095, end - 3)
  {
    ComparisonEndByWeekday(end);
  }

  /** A Monday end compares with the window ending the Friday before. */
  lemma ComparisonRangeOnMonday(end: int)
    requires Weekday(end) == 0
    ensures ComparisonRange(end) == DateRange(end - 3 - 1095, end - 3)
  {
    ComparisonEndByWeekday(end);
  }

  /** A Tuesday to Friday end compares with the window ending the day
      before. */
  lemma ComparisonRangeMidweek(end: int)
    requires 1 <= Weekday(end) <= 4
    ensures ComparisonRange(end) == DateRange(end - 1 - 1095, end - 1)
  {
    ComparisonEndByWeekday(end);
  }
}
