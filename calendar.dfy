/**
 * Dates and the business-day calendar. A date is a day ordinal: the number of
 * days since 1970-01-01, which was a Thursday. pandas' 'B' frequency keeps
 * Monday to Friday and knows no holidays.
 */
module Calendar {

  type Date = int

  /** Day ordinal of a proleptic Gregorian date (Howard Hinnant's days_from_civil). */
  function DaysFromCivil(y: int, m: int, d: int): Date
    requires 1 <= m <= 12 && 1 <= d <= 31
  {
    var y' := if m <= 2 then y - 1 else y;
    var era := y' / 400;
    var yoe := y' - era * 400;
    var mp := if m > 2 then m - 3 else m + 9;
    var doy := (153 * mp + 2) / 5 + d - 1;
    var doe := yoe * 365 + yoe / 4 - yoe / 100 + doy;
    era * 146097 + doe - 719468
  }

  /** Monday = 0, ..., Sunday = 6. */
  function Weekday(d: Date): (w: int)
    ensures 0 <= w < 7
  {
    (d + 3) % 7
  }

  predicate IsBusinessDay(d: Date)
  {
    Weekday(d) < 5
  }

  /** Config.START_DATE and Config.END_DATE. */
  const StartDate: Date := DaysFromCivil(2015, 1, 1)
  const EndDate: Date := DaysFromCivil(2024, 12, 31)
  /** Config.EXPECTED_TRADING_DAYS. */
  const ExpectedTradingDays: nat := 2518

  /** The two stress windows of the price overlay, both ends included. */
  const CovidStart: Date := DaysFromCivil(2020, 3, 1)
  const CovidEnd: Date := DaysFromCivil(2020, 4, 30)
  const InflationStart: Date := DaysFromCivil(2022, 1, 1)
  const InflationEnd: Date := DaysFromCivil(2022, 12, 31)

  /** The two event windows of the macro generator, both ends included. */
  const MacroCovidStart: Date := DaysFromCivil(2020, 3, 1)
  const MacroCovidEnd: Date := DaysFromCivil(2020, 12, 31)
  const RateHikeStart: Date := DaysFromCivil(2022, 1, 1)
  const RateHikeEnd: Date := DaysFromCivil(2023, 12, 31)

  predicate InCovidWindow(d: Date)
  {
    CovidStart <= d <= CovidEnd
  }

  predicate InInflationWindow(d: Date)
  {
    InflationStart <= d <= InflationEnd
  }

  lemma WindowsDisjoint(d: Date)
    ensures !(InCovidWindow(d) && InInflationWindow(d))
  {
    assert CovidEnd == 18382 && InflationStart == 18993;
  }

  lemma AnchorDates()
    ensures DaysFromCivil(1970, 1, 1) == 0
    ensures StartDate == 16436 && EndDate == 20088
    ensures CovidStart == 18322 && CovidEnd == 18382
    ensures InflationStart == 18993 && InflationEnd == 19357
  {
    StudyAnchors();
    EventAnchors();
  }

  lemma StudyAnchors()
    ensures DaysFromCivil(1970, 1, 1) == 0
    ensures StartDate == 16436 && EndDate == 20088
  {
  }

  /** 1970-01-01 was a Thursday, 2015-01-01 too, and 2024-12-31 a Tuesday: Monday counts as 0. */
  lemma WeekdayAnchors()
    ensures Weekday(DaysFromCivil(1970, 1, 1)) == 3
    ensures Weekday(StartDate) == 3 && Weekday(EndDate) == 1
    ensures Weekday(DaysFromCivil(2024, 12, 30)) == 0 && Weekday(DaysFromCivil(2024, 12, 29)) == 6
  {
    StudyAnchors();
  }

  lemma EventAnchors()
    ensures CovidStart == 18322 && CovidEnd == 18382
    ensures InflationStart == 18993 && InflationEnd == 19357
  {
  }

  predicate InMacroCovidWindow(d: Date)
  {
    MacroCovidStart <= d <= MacroCovidEnd
  }

  predicate InRateHikeWindow(d: Date)
  {
    RateHikeStart <= d <= RateHikeEnd
  }

  lemma MacroWindowsDisjoint(d: Date)
    ensures !(InMacroCovidWindow(d) && InRateHikeWindow(d))
  {
    assert MacroCovidEnd == 18627 && RateHikeStart == 18993;
  }

  predicate StrictlyIncreasing(s: seq<Date>)
  {
    forall i, j :: 0 <= i < j < |s| ==> s[i] < s[j]
  }

  /** pd.bdate_range(start, end, freq='B'): every weekday in [start, end], in order. */
  function BusinessDays(start: Date, end: Date): (r: seq<Date>)
    ensures forall i :: 0 <= i < |r| ==> start <= r[i] <= end && IsBusinessDay(r[i])
    ensures StrictlyIncreasing(r)
    decreases end - start
  {
    if start > end then []
    else if IsBusinessDay(start) then [start] + BusinessDays(start + 1, end)
    else BusinessDays(start + 1, end)
  }

  /** No weekday in the range is skipped. */
  lemma {:induction false} BusinessDaysComplete(start: Date, end: Date, d: Date)
    requires start <= d <= end && IsBusinessDay(d)
    ensures d in BusinessDays(start, end)
    decreases end - start
  {
    if d != start {
      BusinessDaysComplete(start + 1, end, d);
    }
  }

  /**
   * The trading calendar of main.py: the business days, cut to the first
   * `target` days when there are more. Fewer days are never padded.
   */
  function TradingCalendar(start: Date, end: Date, target: nat): (r: seq<Date>)
    ensures var b := BusinessDays(start, end);
      |r| == (if |b| < target then |b| else target) && r == b[..|r|]
    ensures StrictlyIncreasing(r)
  {
    var b := BusinessDays(start, end);
    if |b| > target then b[..target] else b
  }

  /** The calendar of the stock and news generators. */
  function StudyCalendar(): seq<Date>
  {
    TradingCalendar(StartDate, EndDate, ExpectedTradingDays)
  }
}
