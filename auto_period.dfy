/**
 * The request-window arithmetic of src/market_data_service/get_tech_analysis.rs:
 * how many points an EMA of a given length needs, and how many days (or hours)
 * back the indicator request must reach for each candle interval.
 */
module AutoPeriod {
  import opened Models
  import Calendar

  /** `IndicatorInterval` of the market-data service. */
  datatype Interval =
    | Unspecified | OneMinute | TwoMinutes | ThreeMinutes | FiveMinutes | TenMinutes
    | FifteenMinutes | ThirtyMin | Hour | TwoHours | FourHour | Day | Week | Month

  /** Length of one candle in minutes; Unspecified is treated as a day and a month as 30 days. */
  function IntervalMinutes(i: Interval): nat
  {
    match i
    case OneMinute => 1
    case TwoMinutes => 2
    case ThreeMinutes => 3
    case FiveMinutes => 5
    case TenMinutes => 10
    case FifteenMinutes => 15
    case ThirtyMin => 30
    case Hour => 60
    case TwoHours => 120
    case FourHour => 240
    case Day => 1440
    case Unspecified => 1440
    case Week => 7 * 1440
    case Month => 30 * 1440
  }

  /** `(a as f64 / b as f64).ceil()` for integers, b > 0. */
  function CeilDiv(a: int, b: int): (q: int)
    requires b > 0
    ensures q * b >= a && (q - 1) * b < a
  {
    (a + b - 1) / b
  }

  /** `(length as f64 * 3.75).ceil() as i32`: the smallest count r with r >= 3.75 * length. */
  function RequiredPoints(length: int): (r: int)
    ensures 4 * r >= 15 * length && 4 * (r - 1) < 15 * length
  {
    CeilDiv(15 * length, 4)
  }

  /** Candles per day for the intervals shorter than a day. */
  function PointsPerDay(i: Interval): nat
    requires IntervalMinutes(i) < 1440
  {
    match i
    case OneMinute => 24 * 60
    case TwoMinutes => 24 * 30
    case ThreeMinutes => 24 * 20
    case FiveMinutes => 24 * 12
    case TenMinutes => 24 * 6
    case FifteenMinutes => 24 * 4
    case ThirtyMin => 24 * 2
    case Hour => 24
    case TwoHours => 12
    case FourHour => 6
  }

  /** The lower bound on the day count for each sub-daily interval. */
  function MinDays(i: Interval): nat
    requires IntervalMinutes(i) < 1440
  {
    match i
    case ThirtyMin => 2
    case Hour => 3
    case TwoHours => 4
    case FourHour => 8
    case _ => 1
  }

  /** The fewest days `new_ema_auto_period` ever asks for, per interval. */
  function DaysFloor(i: Interval): (d: nat)
    ensures d >= 1
  {
    match i
    case Day => 30
    case Unspecified => 30
    case Week => 90
    case Month => 180
    case _ => MinDays(i)
  }

  /**
   * The `days` computed by `new_ema_auto_period` for an EMA of `length` points:
   * the interval's floor, or else the fewest whole days whose candles cover
   * the required points.
   */
  function DaysBack(i: Interval, length: int): (days: int)
    ensures days >= DaysFloor(i) >= 1
    ensures days == DaysFloor(i) || (days - 1) * 1440 < RequiredPoints(length) * IntervalMinutes(i)
  {
    var rp := RequiredPoints(length);
    match i
    case Day => Max(rp, 30)
    case Unspecified => Max(rp, 30)
    case Week => Max(rp * 7, 90)
    case Month => Max(rp * 30, 180)
    case _ =>
      var q := CeilDiv(rp, PointsPerDay(i));
      PointsPerDayTimesMinutes(i);
      FewestDays(rp, PointsPerDay(i), IntervalMinutes(i), q);
      Max(q, MinDays(i))
  }

  /** One day fewer than `CeilDiv(rp, ppd)` holds fewer than `rp` candles. */
  lemma FewestDays(rp: int, ppd: int, k: int, q: int)
    requires ppd > 0 && k > 0 && ppd * k == 1440
    requires q == CeilDiv(rp, ppd)
    ensures (q - 1) * 1440 < rp * k
  {
    MulLt(q - 1, ppd, rp, k);
  }

  lemma MulLt(a: int, b: int, c: int, k: int)
    requires a * b < c && k > 0
    ensures a * b * k < c * k
  {
  }

  lemma CeilDivMonotone(a: int, b: int, d: int)
    requires d > 0 && a <= b
    ensures CeilDiv(a, d) <= CeilDiv(b, d)
  {
    // (q1 - 1) * d < a <= b <= q2 * d
    MulCancel(CeilDiv(a, d) - 1, CeilDiv(b, d), d);
  }

  lemma MulCancel(x: int, y: int, d: int)
    requires d > 0 && x * d < y * d
    ensures x < y
  {
    if x >= y {
      MulLe(y, x, d);
    }
  }

  lemma MulLe(a: int, b: int, c: int)
    requires a <= b && c >= 0
    ensures a * c <= b * c
  {
  }

  /** The minute intervals' points per day times their minutes make a day. */
  lemma PointsPerDayTimesMinutes(i: Interval)
    requires IntervalMinutes(i) < 1440
    ensures PointsPerDay(i) * IntervalMinutes(i) == 1440
  {
  }

  /** A longer EMA never asks for fewer days. */
  lemma {:induction false} DaysBackMonotone(i: Interval, length1: int, length2: int)
    requires length1 <= length2
    ensures DaysBack(i, length1) <= DaysBack(i, length2)
  {
    var rp1, rp2 := RequiredPoints(length1), RequiredPoints(length2);
    CeilDivMonotone(15 * length1, 15 * length2, 4);
    assert rp1 <= rp2;
    match i
    case Day =>
    case Unspecified =>
    case Week =>
    case Month =>
    case _ => CeilDivMonotone(rp1, rp2, PointsPerDay(i));
  }

  /**
   * The day window holds at least the required number of candles: `days` days
   * of candles of the interval's length cover `RequiredPoints(length)` candles.
   */
  lemma {:induction false} DaysBackCoversRequiredPoints(i: Interval, length: int)
    ensures DaysBack(i, length) * 1440 >= RequiredPoints(length) * IntervalMinutes(i)
  {
    var rp := RequiredPoints(length);
    var days := DaysBack(i, length);
    if IntervalMinutes(i) < 1440 {
      PointsPerDayTimesMinutes(i);
      DaysCoverPoints(rp, PointsPerDay(i), IntervalMinutes(i), days);
    }
  }

  /** `days` days of `ppd` candles each, at `k` minutes a candle, make at least `rp` candles. */
  lemma DaysCoverPoints(rp: int, ppd: int, k: int, days: int)
    requires ppd > 0 && k >= 0 && ppd * k == 1440
    requires days >= CeilDiv(rp, ppd)
    ensures days * 1440 >= rp * k
  {
    var q := CeilDiv(rp, ppd);
    MulLe(q, days, ppd);
    MulLe(rp, days * ppd, k);
    assert days * 1440 == (days * ppd) * k;
  }

  /**
   * The request window of `new_ema_auto_period`: from the UTC midnight of the
   * day `days` days before `now`, up to `now`.
   */
  function AutoPeriodRange(now: int, i: Interval, length: int): (r: (int, int))
    ensures r.1 == now
    ensures Calendar.IsMidnight(r.0)
    ensures r.0 <= now - DaysBack(i, length) * Calendar.SecondsPerDay < r.0 + Calendar.SecondsPerDay
  {
    (Calendar.StartOfDay(now - DaysBack(i, length) * Calendar.SecondsPerDay), now)
  }

  /** `_calculate_required_hours`: hours of history for `requiredPoints` candles. */
  function RequiredHours(i: Interval, requiredPoints: int): (h: int)
    ensures requiredPoints >= 0 ==> h >= 0
    // a day or longer asks for whole days covering exactly max(requiredPoints, 30) candles
    ensures IntervalMinutes(i) >= 1440 ==> h * 60 == Max(requiredPoints, 30) * IntervalMinutes(i) && h % 24 == 0
    // an hour or longer never rounds: the hours are the candles times the hours per candle
    ensures 60 <= IntervalMinutes(i) < 1440 ==> h == requiredPoints * (IntervalMinutes(i) / 60)
  {
    match i
    case OneMinute => CeilDiv(requiredPoints * 1, 60)
    case TwoMinutes => CeilDiv(requiredPoints * 2, 60)
    case ThreeMinutes => CeilDiv(requiredPoints * 3, 60)
    case FiveMinutes => CeilDiv(requiredPoints * 5, 60)
    case TenMinutes => CeilDiv(requiredPoints * 10, 60)
    case FifteenMinutes => CeilDiv(requiredPoints * 15, 60)
    case ThirtyMin => CeilDiv(requiredPoints * 30, 60)
    case Hour => requiredPoints
    case TwoHours => requiredPoints * 2
    case FourHour => requiredPoints * 4
    case Day => Max(requiredPoints, 30) * 24
    case Week => Max(requiredPoints, 30) * 24 * 7
    case Month => Max(requiredPoints, 30) * 24 * 30
    case Unspecified => Max(requiredPoints, 30) * 24
  }

  /**
   * The hours always cover the requested candles, and for the intervals below
   * an hour they are the fewest whole hours that do.
   */
  lemma RequiredHoursCover(i: Interval, requiredPoints: int)
    requires requiredPoints >= 0
    ensures RequiredHours(i, requiredPoints) * 60 >= requiredPoints * IntervalMinutes(i)
    ensures IntervalMinutes(i) < 60 ==>
      (RequiredHours(i, requiredPoints) - 1) * 60 < requiredPoints * IntervalMinutes(i)
  {
    match i
    case Day =>
    case Week =>
    case Month =>
    case Unspecified =>
    case _ =>
  }
}
