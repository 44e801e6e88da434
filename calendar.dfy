/** Proleptic Gregorian civil dates counted in days from 1970-01-01, and
    `getWeekKey`: the ISO 8601 week-date rule (section 4.1.4 of ISO
    8601:2004), under which a week runs Monday to Sunday and belongs to the
    year of its Thursday, so that week 1 is the week holding the year's
    first Thursday (equivalently, 4 January). */
module Calendar {

  datatype CivilDate = CivilDate(year: int, month: int, day: int)

  /** A week key `YYYY-Www`; the zero-padded text form is not modelled. */
  datatype WeekKey = WeekKey(year: int, week: int)

  predicate IsLeapYear(y: int) {
    y % 4 == 0 && (y % 100 != 0 || y % 400 == 0)
  }

  function DaysInYear(y: int): int {
    if IsLeapYear(y) then 366 else 365
  }

  function DaysInMonth(y: int, m: int): int
    requires 1 <= m <= 12
  {
    if m == 2 then (if IsLeapYear(y) then 29 else 28)
    else if m == 4 || m == 6 || m == 9 || m == 11 then 30
    else 31
  }

  predicate ValidDate(d: CivilDate) {
    1 <= d.month <= 12 && 1 <= d.day <= DaysInMonth(d.year, d.month)
  }

  /** Day number of 1 January of year y, 1970-01-01 being day 0, counted
      year by year from 1970 in either direction. */
  function YearStart(y: int): int
    decreases if y >= 1970 then y - 1970 else 1970 - y
  {
    if y == 1970 then 0
    else if y > 1970 then YearStart(y - 1) + DaysInYear(y - 1)
    else YearStart(y + 1) - DaysInYear(y)
  }

  /** Days of year y before the first of month m. */
  function DaysBeforeMonth(y: int, m: int): int
    requires 1 <= m <= 12
  {
    var common :=
      if m == 1 then 0 else if m == 2 then 31 else if m == 3 then 59
      else if m == 4 then 90 else if m == 5 then 120 else if m == 6 then 151
      else if m == 7 then 181 else if m == 8 then 212 else if m == 9 then 243
      else if m == 10 then 273 else if m == 11 then 304 else 334;
    if m > 2 && IsLeapYear(y) then common + 1 else common
  }

  /** Day number of a civil date (`Date.UTC(y, m - 1, d) / 86400000`). */
  function EpochDay(d: CivilDate): int
    requires ValidDate(d)
  {
    YearStart(d.year) + DaysBeforeMonth(d.year, d.month) + d.day - 1
  }

  /** `getUTCDay()`: 0 is Sunday; day 0 was a Thursday. */
  function UtcDay(n: int): (r: int)
    ensures 0 <= r < 7
  {
    (n + 4) % 7
  }

  /** `getUTCDay() || 7`: ISO day of the week, Monday 1 to Sunday 7. */
  function IsoDay(n: int): (r: int)
    ensures 1 <= r <= 7
  {
    if UtcDay(n) == 0 then 7 else UtcDay(n)
  }

  /** The Monday that starts the ISO week of day n. */
  function MondayOf(n: int): int {
    n + 1 - IsoDay(n)
  }

  /** `d + 4 - (getUTCDay() || 7)`: the Thursday of the same ISO week. */
  function WeekThursday(n: int): int {
    n + 4 - IsoDay(n)
  }

  /** The year whose 1 January .. 31 December holds day t, among y - 1,
      y and y + 1 (t is at most three days away from year y). */
  function YearOfDayNear(t: int, y: int): int {
    if t < YearStart(y) then y - 1
    else if t >= YearStart(y + 1) then y + 1
    else y
  }

  /** `Math.ceil(a / b)` for b > 0. */
  function CeilDiv(a: int, b: int): int
    requires b > 0
  {
    -((-a) / b)
  }

  // ---------------------------------------------------------------
  // Facts about the day count
  // ---------------------------------------------------------------

  /** Consecutive years start 365 or 366 days apart. */
  lemma YearLength(y: int)
    ensures YearStart(y + 1) - YearStart(y) == DaysInYear(y)
  {
  }

  lemma YearStartMonotone(a: int, b: int)
    requires a <= b
    ensures YearStart(a) <= YearStart(b)
    decreases b - a
  {
    if a < b {
      YearLength(b - 1);
      YearStartMonotone(a, b - 1);
    }
  }

  /** The months of a year tile it: each month starts where the one before
      ends, and December ends with the year. */
  lemma MonthsTileYear(y: int, m: int)
    requires 1 <= m <= 12
    ensures 0 <= DaysBeforeMonth(y, m)
    ensures m < 12 ==> DaysBeforeMonth(y, m) + DaysInMonth(y, m) == DaysBeforeMonth(y, m + 1)
    ensures m == 12 ==> DaysBeforeMonth(y, m) + DaysInMonth(y, m) == DaysInYear(y)
  {
  }

  /** A valid date falls inside its own year. */
  lemma EpochDayInYear(d: CivilDate)
    requires ValidDate(d)
    ensures YearStart(d.year) <= EpochDay(d) < YearStart(d.year + 1)
  {
    YearLength(d.year);
    MonthsTileYear(d.year, d.month);
    if d.month < 12 {
      MonthsTileYear(d.year, 12);
      assert DaysBeforeMonth(d.year, d.month + 1) <= DaysBeforeMonth(d.year, 12);
    }
  }

  /** The count goes forward with the calendar: the next day of the month
      is the next day number. */
  lemma NextDay(d: CivilDate)
    requires ValidDate(d) && d.day < DaysInMonth(d.year, d.month)
    ensures ValidDate(CivilDate(d.year, d.month, d.day + 1))
    ensures EpochDay(CivilDate(d.year, d.month, d.day + 1)) == EpochDay(d) + 1
  {
  }

  lemma ThursdayIsThursday(n: int)
    ensures UtcDay(WeekThursday(n)) == 4
    ensures MondayOf(n) <= n <= MondayOf(n) + 6
    ensures WeekThursday(n) == MondayOf(n) + 3
  {
  }

  /** Days of the same ISO week have the same Thursday. */
  lemma SameWeekSameThursday(n: int, m: int)
    requires MondayOf(n) <= m <= MondayOf(n) + 6
    ensures WeekThursday(m) == WeekThursday(n)
  {
    var k := m - MondayOf(n);
    assert m == MondayOf(n) + k;
    assert UtcDay(MondayOf(n)) == 1;
    assert UtcDay(m) == (1 + k) % 7;
  }

  // ---------------------------------------------------------------
  // getWeekKey
  // ---------------------------------------------------------------

  /** Week k.week of year k.year holds day t: t falls in that year and in
      that week's seven-day block counted from 1 January. */
  predicate WeekHolds(k: WeekKey, t: int) {
    && YearStart(k.year) <= t < YearStart(k.year + 1)
    && 1 <= k.week <= 53
    && 7 * (k.week - 1) <= t - YearStart(k.year) < 7 * k.week
  }

  /** `getWeekKey(date)`: the year of the date's ISO-week Thursday and the
      week number `ceil((days from that year's 1 January + 1) / 7)`. */
  function GetWeekKey(d: CivilDate): (k: WeekKey)
    requires ValidDate(d)
    ensures d.year - 1 <= k.year <= d.year + 1
    ensures WeekHolds(k, WeekThursday(EpochDay(d)))
  {
    var n := EpochDay(d);
    var thursday := WeekThursday(n);
    var year := YearOfDayNear(thursday, d.year);
    var weekNo := CeilDiv(thursday - YearStart(year) + 1, 7);
    WeekKeyFacts(d);
    WeekKey(year, weekNo)
  }

  lemma WeekKeyFacts(d: CivilDate)
    requires ValidDate(d)
    ensures var t := WeekThursday(EpochDay(d));
            var y := YearOfDayNear(t, d.year);
            var w := CeilDiv(t - YearStart(y) + 1, 7);
      && d.year - 1 <= y <= d.year + 1
      && WeekHolds(WeekKey(y, w), t)
  {
    var n := EpochDay(d);
    var t := WeekThursday(n);
    EpochDayInYear(d);
    YearLength(d.year - 1);
    YearLength(d.year);
    YearLength(d.year + 1);
    var y := YearOfDayNear(t, d.year);
    var x := t - YearStart(y);
    assert 0 <= x < DaysInYear(y) by {
      YearLength(y);
    }
    WeekOfOffset(x);
  }

  /** Day x (from 0) of a year lies in week `ceil((x + 1) / 7)`, whose
      seven-day block holds it. */
  lemma WeekOfOffset(x: int)
    requires 0 <= x
    ensures CeilDiv(x + 1, 7) == x / 7 + 1
    ensures 7 * (CeilDiv(x + 1, 7) - 1) <= x < 7 * CeilDiv(x + 1, 7)
  {
  }

  /** Two dates of the same ISO week get the same key. */
  lemma SameWeekSameKey(d: CivilDate, e: CivilDate)
    requires ValidDate(d) && ValidDate(e)
    requires MondayOf(EpochDay(d)) <= EpochDay(e) <= MondayOf(EpochDay(d)) + 6
    ensures GetWeekKey(d) == GetWeekKey(e)
  {
    SameWeekSameThursday(EpochDay(d), EpochDay(e));
    OneWeekHoldsEachDay(WeekThursday(EpochDay(d)), GetWeekKey(d), GetWeekKey(e));
  }

  /** At most one week key holds a given day. */
  lemma OneWeekHoldsEachDay(t: int, k: WeekKey, k': WeekKey)
    requires WeekHolds(k, t) && WeekHolds(k', t)
    ensures k == k'
  {
    if k.year < k'.year {
      YearStartMonotone(k.year + 1, k'.year);
    } else if k'.year < k.year {
      YearStartMonotone(k'.year + 1, k.year);
    }
  }

  /** 4 January is always in week 1 of its own year. */
  lemma FourthOfJanuaryIsWeekOne(y: int)
    ensures GetWeekKey(CivilDate(y, 1, 4)) == WeekKey(y, 1)
  {
    var d := CivilDate(y, 1, 4);
    var n := EpochDay(d);
    assert n == YearStart(y) + 3;
    YearLength(y);
    var t := WeekThursday(n);
    assert YearStart(y) <= t <= YearStart(y) + 6;
  }

  /** Seven days on, the ISO-week Thursday is seven days on. */
  lemma ThursdayStep(n: int, m: int)
    requires m == n + 7
    ensures WeekThursday(m) == WeekThursday(n) + 7
  {
    assert UtcDay(m) == UtcDay(n);
  }

  /** Two Thursdays seven days apart, each placed in its year and its
      seven-day block: the second is in the next week of the same year or
      in week 1 of the following year. */
  lemma KeysSevenDaysApart(t: int, kd: WeekKey, ke: WeekKey)
    requires WeekHolds(kd, t) && WeekHolds(ke, t + 7)
    ensures (ke.year == kd.year && ke.week == kd.week + 1) || (ke.year == kd.year + 1 && ke.week == 1)
  {
    if ke.year < kd.year {
      YearStartMonotone(ke.year + 1, kd.year);
      assert false;
    } else if ke.year > kd.year + 1 {
      YearStartMonotone(kd.year + 2, ke.year);
      YearLength(kd.year + 1);
      assert false;
    }
  }

  /** Seven days later is the next week: week w + 1 of the same year, or
      week 1 of the following year. */
  lemma NextWeek(d: CivilDate, e: CivilDate)
    requires ValidDate(d) && ValidDate(e) && EpochDay(e) == EpochDay(d) + 7
    ensures var kd, ke := GetWeekKey(d), GetWeekKey(e);
      (ke.year == kd.year && ke.week == kd.week + 1) || (ke.year == kd.year + 1 && ke.week == 1)
  {
    ThursdayStep(EpochDay(d), EpochDay(e));
    KeysSevenDaysApart(WeekThursday(EpochDay(d)), GetWeekKey(d), GetWeekKey(e));
  }

  /** Pinned to the real calendar: 1 January 1970 was a Thursday, so
      Monday 29 December 1969 opens week 1 of 1970, and Friday 1 January
      1971 still belongs to week 53 of 1970. */
  lemma KnownWeekKeys()
    ensures UtcDay(EpochDay(CivilDate(1970, 1, 1))) == 4
    ensures GetWeekKey(CivilDate(1969, 12, 29)) == WeekKey(1970, 1)
    ensures GetWeekKey(CivilDate(1971, 1, 1)) == WeekKey(1970, 53)
  {
    assert YearStart(1969) == -365;
    assert YearStart(1971) == 365;
    assert YearStart(1972) == 730;
    assert EpochDay(CivilDate(1969, 12, 29)) == -3;
    assert EpochDay(CivilDate(1971, 1, 1)) == 365;
  }
}
