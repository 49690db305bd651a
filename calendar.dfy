/** Calendar dates as the stores read them: the year and the zero-based month
    that JavaScript's `getFullYear()` and `getMonth()` return, and the day of the
    month. Instants of the day, time zones and the parsing of date strings are
    not modelled; comparisons between dates go through `DayNumber`. */
module Calendar {

  /** A month as `getMonth()` numbers it: 0 is January, 11 is December. */
  type Month = m: int | 0 <= m < 12

  datatype Date = Date(year: int, month: Month, day: int)

  /** Days since 1970-01-01 in the proleptic Gregorian calendar (the civil-day
      count of the date); adding `n` to it is `setDate(getDate() + n)`. */
  function DayNumber(d: Date): int {
    var y := if d.month < 2 then d.year - 1 else d.year;
    var era := y / 400;
    var yoe := y - era * 400;
    var mp := (d.month + 10) % 12;
    var doy := (153 * mp + 2) / 5 + d.day - 1;
    var doe := yoe * 365 + yoe / 4 - yoe / 100 + doy;
    era * 146097 + doe - 719468
  }

  /** The month before (`year`, `month`): December of the previous year for
      January, otherwise the previous month of the same year. Counting months
      from year zero, it is exactly one month earlier. */
  function MesAnterior(year: int, month: Month): (r: (int, Month))
    ensures r.0 * 12 + r.1 + 1 == year * 12 + month
  {
    if month == 0 then (year - 1, 11) else (year, month - 1)
  }
}
