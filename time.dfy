/**
 * The engine's clock, fixed to UTC: a timestamp is a whole number of minutes
 * since 1970-01-01T00:00Z, and the calendar fields are derived from it.
 */
module Time {

  /** Minutes between consecutive samples. */
  const Cadence: int := 5
  const MinutesPerHour: int := 60
  const MinutesPerDay: int := 1440

  /** The calendar day a timestamp falls on, counted from 1970-01-01. */
  function DayOf(t: int): (d: int)
    ensures d * MinutesPerDay <= t < d * MinutesPerDay + MinutesPerDay
  {
    t / MinutesPerDay
  }

  /** `getHours()` in UTC: the hour of the day, 0 to 23. */
  function HourOf(t: int): (h: int)
    ensures 0 <= h < 24
    ensures DayOf(t) * MinutesPerDay + h * MinutesPerHour <= t < DayOf(t) * MinutesPerDay + (h + 1) * MinutesPerHour
  {
    var hours := t / MinutesPerHour;
    assert hours / 24 == DayOf(t);
    hours % 24
  }

  /** A proleptic Gregorian calendar date. */
  datatype Date = Date(year: int, month: int, day: int)

  /**
   * Splits a day of a 400-year era (eras start on 1 March) into the year of
   * the era and the day of that year: centuries of 36524 days (the last one
   * 36525), four-year groups of 1461 days, years of 365 days, so that a leap
   * day is the last day of its year.
   */
  function SplitEra(doe: int): (r: (int, int))
    requires 0 <= doe < 146097
    ensures 0 <= r.0 < 400 && 0 <= r.1 <= 365
  {
    var c := if doe / 36524 < 3 then doe / 36524 else 3;
    var doc := doe - 36524 * c;
    var q := doc / 1461;
    var doq := doc % 1461;
    var yy := if doq / 365 < 3 then doq / 365 else 3;
    (100 * c + 4 * q + yy, doq - 365 * yy)
  }

  /** The month (1 to 12) and day of month of a day of a March-based year. */
  function SplitYear(doy: int): (r: (int, int))
    requires 0 <= doy <= 365
    ensures 1 <= r.0 <= 12 && 1 <= r.1 <= 31
  {
    var mp := (5 * doy + 2) / 153;
    var d := doy - (153 * mp + 2) / 5 + 1;
    (if mp < 10 then mp + 3 else mp - 9, d)
  }

  /** The civil date of a day number (days since 1970-01-01). */
  function CivilFromDays(days: int): (date: Date)
    ensures 1 <= date.month <= 12
    ensures 1 <= date.day <= 31
  {
    var z := days + 719468;
    var era := z / 146097;
    var yd := SplitEra(z % 146097);
    var md := SplitYear(yd.1);
    var y := yd.0 + era * 400;
    Date(if md.0 <= 2 then y + 1 else y, md.0, md.1)
  }

  /** Known dates pin the conversion to the calendar. */
  lemma CivilEpoch()
    ensures CivilFromDays(0) == Date(1970, 1, 1)
  {
    assert 719468 / 146097 == 4 && 719468 % 146097 == 135080;
    assert SplitEra(135080) == (369, 306);
    assert SplitYear(306) == (1, 1);
  }

  lemma CivilLeapDay2024()
    ensures CivilFromDays(19782) == Date(2024, 2, 29)
  {
    assert (19782 + 719468) / 146097 == 5 && (19782 + 719468) % 146097 == 8765;
    assert SplitEra(8765) == (23, 365);
    assert SplitYear(365) == (2, 29);
  }

  lemma CivilBeforeEpoch()
    ensures CivilFromDays(-1) == Date(1969, 12, 31)
  {
    assert (-1 + 719468) / 146097 == 4 && (-1 + 719468) % 146097 == 135079;
    assert SplitEra(135079) == (369, 305);
    assert SplitYear(305) == (12, 31);
  }

  /**
   * The `yyyy-MM` bucket of a timestamp, as a month number year*12 + (month - 1):
   * the year and the month of the timestamp's date can be read back from it.
   */
  function MonthKey(t: int): (k: int)
    ensures k / 12 == CivilFromDays(DayOf(t)).year
    ensures k % 12 + 1 == CivilFromDays(DayOf(t)).month
  {
    var date := CivilFromDays(DayOf(t));
    date.year * 12 + date.month - 1
  }
}
