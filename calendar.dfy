/** The parts of Python's `datetime` that the VNPAY gateway uses: the
    proleptic Gregorian calendar, `strftime('%Y%m%d%H%M%S')` and
    `replace(day=...)`. */
module Calendar {
  import opened Wrappers
  import opened Decimal

  datatype DateTime = DateTime(year: int, month: int, day: int, hour: int, minute: int, second: int)

  predicate IsLeapYear(y: int)
  {
    y % 4 == 0 && (y % 100 != 0 || y % 400 == 0)
  }

  function DaysInMonth(y: int, m: int): int
    requires 1 <= m <= 12
  {
    if m == 2 then (if IsLeapYear(y) then 29 else 28)
    else if m == 4 || m == 6 || m == 9 || m == 11 then 30
    else 31
  }

  /** The instants a Python `datetime` can hold (years 1 to 9999). */
  predicate Valid(t: DateTime)
  {
    && 1 <= t.year <= 9999
    && 1 <= t.month <= 12
    && 1 <= t.day <= DaysInMonth(t.year, t.month)
    && 0 <= t.hour < 24 && 0 <= t.minute < 60 && 0 <= t.second < 60
  }

  /** `t.strftime('%Y%m%d%H%M%S')`; `%Y` is the year without padding, as the
      C library of Linux writes it. */
  function Format(t: DateTime): (r: string)
    requires Valid(t)
    ensures AllDigits(r)
    ensures 1000 <= t.year ==> |r| == 14
  {
    DigitsOfSmall(t.month);
    DigitsOfSmall(t.day);
    DigitsOfSmall(t.hour);
    DigitsOfSmall(t.minute);
    DigitsOfSmall(t.second);
    DigitsOfFourDigitNumber(t.year);
    Digits(t.year) + Pad(t.month, 2) + Pad(t.day, 2) + Pad(t.hour, 2) + Pad(t.minute, 2) + Pad(t.second, 2)
  }

  /** `t.replace(day=d)`: `None` where Python raises `ValueError` because the
      month has no such day. */
  function ReplaceDay(t: DateTime, d: int): (r: Option<DateTime>)
    requires Valid(t)
    ensures r.Some? <==> 1 <= d <= DaysInMonth(t.year, t.month)
    ensures r.Some? ==> Valid(r.value) && r.value.day == d
    ensures r.Some? ==> r.value.(day := t.day) == t
  {
    if 1 <= d <= DaysInMonth(t.year, t.month) then Some(t.(day := d)) else None
  }

  /** Adding one to the day of the month fails exactly on the last day of a
      month; on every other day it gives the next calendar day. */
  lemma DayIncrementFailsOnLastDay(t: DateTime)
    requires Valid(t)
    ensures ReplaceDay(t, t.day + 1).None? <==> t.day == DaysInMonth(t.year, t.month)
    ensures t.day < DaysInMonth(t.year, t.month) ==> ReplaceDay(t, t.day + 1) == Some(t.(day := t.day + 1))
  {
  }
}
