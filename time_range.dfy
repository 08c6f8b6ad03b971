/**
 * The request-window rules of src/quotes/get_tech_analysis.rs: the calendar
 * window `(from, to)` of the current hour, day, week or month for each
 * indicator interval, the `hours_back` table of the "last N values" request,
 * and the EMA projection of a response. Timestamps are whole UTC seconds
 * since the epoch; `now` is a parameter.
 */
module TimeRange {
  import opened Models
  import opened Calendar

  /** `IndicatorInterval` of the quotes module, in its declaration order. */
  datatype Interval =
    | Unspecified | OneMinute | FiveMinutes | FifteenMinutes | OneHour | OneDay
    | TwoMin | ThreeMin | TenMin | ThirtyMin | TwoHour | FourHour | Week | Month

  predicate IsMinuteInterval(i: Interval)
  {
    i.OneMinute? || i.TwoMin? || i.ThreeMin? || i.FiveMinutes? || i.TenMin?
    || i.FifteenMinutes? || i.ThirtyMin?
  }

  /**
   * `get_time_range_for_interval`: the current hour for the minute intervals,
   * the current UTC day for the hour intervals, a day and Unspecified, the
   * current Monday-based week, and the current calendar month.
   */
  function TimeRangeForInterval(now: int, i: Interval): (r: (int, int))
    ensures r.0 <= now <= r.1
    ensures IsMinuteInterval(i) ==>
      r.0 % SecondsPerHour == 0 && r.0 <= now < r.0 + SecondsPerHour && r.1 == r.0 + SecondsPerHour - 1
    ensures i.OneHour? || i.TwoHour? || i.FourHour? || i.OneDay? || i.Unspecified? ==>
      r.0 == StartOfDay(now) && r.1 == r.0 + SecondsPerDay - 1
    ensures i.Week? ==>
      IsMidnight(r.0) && DaysFromMonday(DayNumber(r.0)) == 0
      && r.0 <= now < r.0 + 7 * SecondsPerDay && r.1 == r.0 + 7 * SecondsPerDay - 1
    ensures i.Month? ==>
      IsMidnight(r.0) && CivilFromDays(DayNumber(r.0)).day == 1
      && CivilFromDays(DayNumber(r.0)).month == CivilFromDays(DayNumber(now)).month
      && CivilFromDays(DayNumber(r.0)).year == CivilFromDays(DayNumber(now)).year
      && r.1 + 1 == r.0 + DaysInMonth(CivilFromDays(DayNumber(now)).year,
                                      CivilFromDays(DayNumber(now)).month) * SecondsPerDay
  {
    var startOfDay := StartOfDay(now);
    match i
    case OneMinute => HourWindow(now)
    case TwoMin => HourWindow(now)
    case ThreeMin => HourWindow(now)
    case FiveMinutes => HourWindow(now)
    case TenMin => HourWindow(now)
    case FifteenMinutes => HourWindow(now)
    case ThirtyMin => HourWindow(now)
    case OneHour => (startOfDay, startOfDay + SecondsPerDay - 1)
    case TwoHour => (startOfDay, startOfDay + SecondsPerDay - 1)
    case FourHour => (startOfDay, startOfDay + SecondsPerDay - 1)
    case OneDay => (startOfDay, startOfDay + SecondsPerDay - 1)
    case Week => WeekWindow(now)
    case Month => MonthWindow(now)
    case Unspecified => (startOfDay, startOfDay + SecondsPerDay - 1)
  }

  function HourWindow(now: int): (r: (int, int))
    ensures r.0 % SecondsPerHour == 0 && r.0 <= now < r.0 + SecondsPerHour
    ensures r.1 == r.0 + SecondsPerHour - 1
  {
    var hourStart := StartOfHour(now);
    (hourStart, hourStart + SecondsPerHour - 1)
  }

  /** The week from the Monday midnight at or before `now`. */
  function WeekWindow(now: int): (r: (int, int))
    ensures IsMidnight(r.0) && DaysFromMonday(DayNumber(r.0)) == 0
    ensures r.0 <= now < r.0 + 7 * SecondsPerDay
    ensures r.1 == r.0 + 7 * SecondsPerDay - 1
  {
    var startOfDay := StartOfDay(now);
    var day := DayNumber(now);
    var weekStart := startOfDay - DaysFromMonday(day) * SecondsPerDay;
    MondayOfWeek(day);
    assert weekStart == (day - DaysFromMonday(day)) * SecondsPerDay;
    assert DayNumber(weekStart) == day - DaysFromMonday(day);
    (weekStart, weekStart + 7 * SecondsPerDay - 1)
  }

  /** The calendar month of `now`, from its first midnight to the second before the next month. */
  function MonthWindow(now: int): (r: (int, int))
    ensures IsMidnight(r.0) && r.0 <= now <= r.1
    ensures CivilFromDays(DayNumber(r.0)) == CivilFromDays(DayNumber(now)).(day := 1)
    ensures r.1 + 1 == r.0 + DaysInMonth(CivilFromDays(DayNumber(now)).year,
                                         CivilFromDays(DayNumber(now)).month) * SecondsPerDay
    ensures r.1 + 1 == DaysFromCivil(NextMonthStart(CivilFromDays(DayNumber(now)))) * SecondsPerDay
  {
    var date := CivilFromDays(DayNumber(now));
    var monthStart := date.(day := 1);
    var firstDay := DaysFromCivil(monthStart);
    var nextMonth := NextMonthStart(date);
    assert DayNumber(firstDay * SecondsPerDay) == firstDay;
    CivilFromDaysUnique(firstDay, monthStart);
    (firstDay * SecondsPerDay, DaysFromCivil(nextMonth) * SecondsPerDay - 1)
  }

  /** The `hours_back` table of `new_ema_last_n` for `count` values. */
  function HoursBack(i: Interval, count: int): (h: int)
    ensures count >= 0 ==> count <= h <= 24 * count
    ensures i.OneHour? || i.TwoHour? || i.FourHour? ==> h * 60 == count * CandleMinutes(i)
    // every other interval, minute candles included, gets one day per value
    ensures !(i.OneHour? || i.TwoHour? || i.FourHour?) ==> h == 24 * count
  {
    match i
    case FourHour => 4 * count
    case TwoHour => 2 * count
    case OneHour => count
    case _ => 24 * count
  }

  /** Length of one candle in minutes (Unspecified counted as a day, a month as 30 days). */
  function CandleMinutes(i: Interval): (m: nat)
    ensures m > 0
  {
    match i
    case OneMinute => 1
    case TwoMin => 2
    case ThreeMin => 3
    case FiveMinutes => 5
    case TenMin => 10
    case FifteenMinutes => 15
    case ThirtyMin => 30
    case OneHour => 60
    case TwoHour => 120
    case FourHour => 240
    case OneDay => 1440
    case Unspecified => 1440
    case Week => 7 * 1440
    case Month => 30 * 1440
  }

  /**
   * For a positive count, the `hours_back` window spans at least `count`
   * candles exactly when the interval is not a week or a month: the default
   * arm allots a day per value, which is one value short of a week or month candle.
   */
  lemma HoursBackCoversCount(i: Interval, count: int)
    requires count > 0
    ensures HoursBack(i, count) * 60 >= count * CandleMinutes(i) <==> !(i.Week? || i.Month?)
  {
  }

  /** `get_ema`: the (timestamp, EMA) pairs of the indicators that carry a middle band, in order. */
  function GetEma(inds: seq<TechnicalIndicator>): (r: seq<(string, Quotation)>)
    ensures |r| <= |inds|
    ensures forall k :: 0 <= k < |r| ==>
      exists j :: 0 <= j < |inds| && inds[j].middleBand == Some(r[k].1) && inds[j].timestamp == r[k].0
    ensures forall j :: 0 <= j < |inds| && inds[j].middleBand.Some? ==>
      (inds[j].timestamp, inds[j].middleBand.value) in r
  {
    if inds == [] then []
    else
      var rest := GetEma(inds[1..]);
      var head := inds[0];
      var r := match head.middleBand
        case Some(ema) => [(head.timestamp, ema)] + rest
        case None => rest;
      assert forall j :: 1 <= j < |inds| ==> inds[j] == inds[1..][j - 1];
      r
  }

  /** The projection distributes over concatenation, so it keeps the response's order. */
  lemma {:induction false} GetEmaAppend(a: seq<TechnicalIndicator>, b: seq<TechnicalIndicator>)
    ensures GetEma(a + b) == GetEma(a) + GetEma(b)
  {
    if a != [] {
      assert (a + b)[1..] == a[1..] + b;
      GetEmaAppend(a[1..], b);
    } else {
      assert a + b == b;
    }
  }

  /** One indicator contributes its pair exactly when it has a middle band. */
  lemma GetEmaSingle(ind: TechnicalIndicator)
    ensures GetEma([ind]) == if ind.middleBand.Some? then [(ind.timestamp, ind.middleBand.value)] else []
  {
    assert [ind][1..] == [];
  }
}
