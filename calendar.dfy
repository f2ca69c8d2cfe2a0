/** Day numbers (days since 1970-01-01, as `LocalDate.toEpochDay` counts them)
    and the proleptic Gregorian month they fall in, as `LocalDate.getMonth`
    reports it. */
module Calendar {

  predicate IsLeapYear(y: int)
  {
    y % 4 == 0 && (y % 100 != 0 || y % 400 == 0)
  }

  function YearLength(y: int): int
  {
    if IsLeapYear(y) then 366 else 365
  }

  function MonthLength(y: int, m: int): int
  {
    if m == 2 then (if IsLeapYear(y) then 29 else 28)
    else if m == 4 || m == 6 || m == 9 || m == 11 then 30
    else 31
  }

  /** The year of day `d`, counted from the first day of year `y`, and the
      day's offset within that year. */
  function YearAndOffset(d: int, y: int): (r: (int, int))
    ensures 0 <= r.1 < YearLength(r.0)
    decreases if d < 0 then 1 else 0, if d < 0 then -d else d
  {
    if d < 0 then YearAndOffset(d + YearLength(y - 1), y - 1)
    else if d < YearLength(y) then (y, d)
    else YearAndOffset(d - YearLength(y), y + 1)
  }

  /** The month holding offset `offset` of year `y`, scanning from month `m`. */
  function MonthOfOffset(y: int, offset: int, m: int): (r: int)
    requires 1 <= m <= 12
    ensures m <= r <= 12
    decreases 12 - m
  {
    if m == 12 || offset < MonthLength(y, m) then m
    else MonthOfOffset(y, offset - MonthLength(y, m), m + 1)
  }

  /** `LocalDate.ofEpochDay(day).getMonthValue()`. */
  function MonthOfDay(day: int): (r: int)
    ensures 1 <= r <= 12
  {
    var (y, offset) := YearAndOffset(day, 1970);
    MonthOfOffset(y, offset, 1)
  }

  /** The day number of January 1 of year `y`. */
  function YearStart(y: int): int
    decreases if y < 1970 then 1970 - y else y - 1970
  {
    if y == 1970 then 0
    else if y > 1970 then YearStart(y - 1) + YearLength(y - 1)
    else YearStart(y + 1) - YearLength(y)
  }

  /** The number of days of year `y` before the first day of month `m`. */
  function DaysBefore(y: int, m: int): int
    requires 1 <= m <= 12
  {
    if m == 1 then 0 else DaysBefore(y, m - 1) + MonthLength(y, m - 1)
  }

  lemma YearStartStep(y: int)
    ensures YearStart(y + 1) == YearStart(y) + YearLength(y)
  {
  }

  lemma {:induction false} YearStartGrows(y0: int, y: int)
    requires y0 < y
    ensures YearStart(y0) + YearLength(y0) <= YearStart(y)
    decreases y - y0
  {
    YearStartStep(y0);
    if y0 + 1 < y {
      YearStartGrows(y0 + 1, y);
    }
  }

  /** Counting years from `y0`, day `o` of year `y` lies in year `y` at offset `o`. */
  lemma {:induction false} YearAndOffsetFinds(y0: int, y: int, o: int)
    requires 0 <= o < YearLength(y)
    ensures YearAndOffset(YearStart(y) - YearStart(y0) + o, y0) == (y, o)
    decreases if y < y0 then y0 - y else y - y0
  {
    var d := YearStart(y) - YearStart(y0) + o;
    if y0 < y {
      YearStartGrows(y0, y);
      YearStartStep(y0);
      assert d - YearLength(y0) == YearStart(y) - YearStart(y0 + 1) + o;
      YearAndOffsetFinds(y0 + 1, y, o);
    } else if y < y0 {
      YearStartGrows(y, y0);
      YearStartStep(y0 - 1);
      assert d + YearLength(y0 - 1) == YearStart(y) - YearStart(y0 - 1) + o;
      YearAndOffsetFinds(y0 - 1, y, o);
    }
  }

  lemma {:induction false} DaysBeforeGrows(y: int, m0: int, m: int)
    requires 1 <= m0 <= m <= 12
    ensures DaysBefore(y, m0) <= DaysBefore(y, m)
    decreases m - m0
  {
    if m0 < m {
      DaysBeforeGrows(y, m0, m - 1);
    }
  }

  /** The months of a year fill it exactly. */
  lemma MonthsFillYear(y: int, m: int)
    requires 1 <= m <= 12
    ensures DaysBefore(y, m) + MonthLength(y, m) <= YearLength(y)
  {
    var feb := MonthLength(y, 2);
    assert DaysBefore(y, 2) == 31;
    assert DaysBefore(y, 3) == 31 + feb;
    assert DaysBefore(y, 4) == 62 + feb;
    assert DaysBefore(y, 5) == 92 + feb;
    assert DaysBefore(y, 6) == 123 + feb;
    assert DaysBefore(y, 7) == 153 + feb;
    assert DaysBefore(y, 8) == 184 + feb;
    assert DaysBefore(y, 9) == 215 + feb;
    assert DaysBefore(y, 10) == 245 + feb;
    assert DaysBefore(y, 11) == 276 + feb;
    assert DaysBefore(y, 12) == 306 + feb;
    if m < 12 {
      DaysBeforeGrows(y, m + 1, 12);
    }
  }

  /** Scanning from month `m0`, day `k` of month `m` is found in month `m`. */
  lemma {:induction false} MonthOfOffsetFinds(y: int, m0: int, m: int, k: int)
    requires 1 <= m0 <= m <= 12 && 0 <= k < MonthLength(y, m)
    ensures MonthOfOffset(y, DaysBefore(y, m) - DaysBefore(y, m0) + k, m0) == m
    decreases m - m0
  {
    if m0 < m {
      DaysBeforeGrows(y, m0 + 1, m);
      MonthOfOffsetFinds(y, m0 + 1, m, k);
    }
  }

  lemma FromEpoch(y: int, o: int)
    requires 0 <= o < YearLength(y)
    ensures YearAndOffset(YearStart(y) + o, 1970) == (y, o)
  {
    assert YearStart(1970) == 0;
    YearAndOffsetFinds(1970, y, o);
  }

  lemma FromJanuary(y: int, m: int, k: int)
    requires 1 <= m <= 12 && 0 <= k < MonthLength(y, m)
    ensures MonthOfOffset(y, DaysBefore(y, m) + k, 1) == m
  {
    assert DaysBefore(y, 1) == 0;
    MonthOfOffsetFinds(y, 1, m, k);
  }

  /** Every day of every month, in every year before or after 1970, is
      reported in that month: the day numbers of month `m` of year `y` are
      the `MonthLength(y, m)` days that follow the earlier months and years. */
  lemma MonthOfDayCountsMonths(y: int, m: int, k: int)
    requires 1 <= m <= 12 && 0 <= k < MonthLength(y, m)
    ensures MonthOfDay(YearStart(y) + DaysBefore(y, m) + k) == m
  {
    var o := DaysBefore(y, m) + k;
    MonthsFillYear(y, m);
    DaysBeforeGrows(y, 1, m);
    assert DaysBefore(y, 1) == 0;
    FromEpoch(y, o);
    FromJanuary(y, m, k);
  }

  /** Fixed points of the calendar: 1970-01-01 is in January, 1970-02-28 in
      February, 1970-03-01 in March, 1969-12-31 in December and 1972-02-29
      (a leap day) in February. */
  lemma MonthOfDayExamples()
    ensures MonthOfDay(0) == 1 && MonthOfDay(58) == 2 && MonthOfDay(59) == 3
    ensures MonthOfDay(-1) == 12 && MonthOfDay(789) == 2
  {
    assert YearAndOffset(0, 1970) == (1970, 0);
    assert YearAndOffset(58, 1970) == (1970, 58);
    assert YearAndOffset(59, 1970) == (1970, 59);
    assert YearAndOffset(-1, 1970) == (1969, 364);
    assert YearAndOffset(789, 1970) == (1972, 59);
  }
}
