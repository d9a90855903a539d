/** Week numbers for grouping days: the ISO 8601 week number computed through
    the Julian Day Number, with the year attributed by a month/week rule. */
module DateUtil {

  /** C#'s `/` on `int`: truncates toward zero. */
  function CsDiv(a: int, b: int): int
    requires b > 0
  {
    if a >= 0 then a / b else -((-a) / b)
  }

  /** C#'s `%` on `int`: the remainder takes the sign of the dividend. */
  function CsMod(a: int, b: int): int
    requires b > 0
  {
    a - b * CsDiv(a, b)
  }

  lemma CsDivModNonNegative(a: int, b: int)
    requires a >= 0 && b > 0
    ensures CsDiv(a, b) == a / b && CsMod(a, b) == a % b
  {
  }

  predicate IsLeapYear(year: int) {
    year % 4 == 0 && (year % 100 != 0 || year % 400 == 0)
  }

  function DaysInMonth(year: int, month: int): int
    requires 1 <= month <= 12
  {
    if month == 2 then (if IsLeapYear(year) then 29 else 28)
    else if month == 4 || month == 6 || month == 9 || month == 11 then 30
    else 31
  }

  /** A date `DateTime` can hold (years 1 to 9999). */
  predicate ValidDate(year: int, month: int, day: int) {
    1 <= year <= 9999 && 1 <= month <= 12 && 1 <= day <= DaysInMonth(year, month)
  }

  datatype Date = Date(year: int, month: int, day: int)

  /** The following day in the Gregorian calendar. */
  function NextDay(year: int, month: int, day: int): Date
    requires 1 <= month <= 12
  {
    if day < DaysInMonth(year, month) then Date(year, month, day + 1)
    else if month < 12 then Date(year, month + 1, 1)
    else Date(year + 1, 1, 1)
  }

  /** The Gregorian-to-Julian-Day-Number formula of `DanishWeekNumber`
      (March-based months, so that the leap day ends the year). */
  function Jdn(year: int, mon: int, day: int): int {
    var a := CsDiv(14 - mon, 12);
    var y := year + 4800 - a;
    var m := mon + 12 * a - 3;
    day + CsDiv(153 * m + 2, 5) + 365 * y + CsDiv(y, 4) - CsDiv(y, 100) + CsDiv(y, 400) - 32045
  }

  /** The week number of the day with Julian Day Number `jd`: the day is moved
      to the Thursday of its week and the week is counted from that
      Thursday's day of the year. */
  function WeekOfJdn(jd: int): int {
    WeekOfThursday(jd + 31741 - CsMod(jd, 7))
  }

  /** The week count from the shifted Thursday day number `t`. */
  function WeekOfThursday(t: int): int {
    var d4 := CsMod(CsMod(CsMod(t, 146097), 36524), 1461);
    var l := CsDiv(d4, 1460);
    var d1 := CsMod(d4 - l, 365) + l;
    CsDiv(d1, 7) + 1
  }

  function DanishWeekNumber(year: int, mon: int, day: int): int {
    WeekOfJdn(Jdn(year, mon, day))
  }

  datatype YearWeek = YearWeek(year: int, week: int)

  /** `GetWeekNumber`: a January day in a high week belongs to the previous
      year's last week, a December day in a low week to the next year's
      first week. */
  function GetWeekNumber(year: int, month: int, day: int): (r: YearWeek)
    ensures r.week == DanishWeekNumber(year, month, day)
    ensures month == 1 && r.week > 6 ==> r.year == year - 1
    ensures month == 12 && r.week < 6 ==> r.year == year + 1
    ensures !(month == 1 && r.week > 6) && !(month == 12 && r.week < 6) ==> r.year == year
  {
    var week := DanishWeekNumber(year, month, day);
    if month == 1 && week > 6 then YearWeek(year - 1, week)
    else if month == 12 && week < 6 then YearWeek(year + 1, week)
    else YearWeek(year, week)
  }

  /** For every date of a positive year the Julian Day Number is positive, so
      every division in the computation is a division of non-negative numbers
      and truncation agrees with floor division. */
  lemma JdnPositive(year: int, mon: int, day: int)
    requires year >= 1 && 1 <= mon <= 12 && day >= 1
    ensures Jdn(year, mon, day) > 0
    ensures Jdn(year, mon, day) == JdnFloor(year, mon, day)
  {
    var a := (14 - mon) / 12;
    assert CsDiv(14 - mon, 12) == a;
    var m := mon + 12 * a - 3;
    assert 0 <= m <= 11;
  }

  /** The same formula with floor division throughout, split into the days
      before the March-based month and the days before the March-based year. */
  function JdnFloor(year: int, mon: int, day: int): int {
    var a := (14 - mon) / 12;
    var y := year + 4800 - a;
    var m := mon + 12 * a - 3;
    day + MonthStart(m) + YearStart(y) - 32045
  }

  /** Days from 1 March to the first of the m-th month counted from March. */
  function MonthStart(m: int): int { (153 * m + 2) / 5 }

  /** Days before March-based year y, counting from a fixed origin. */
  function YearStart(y: int): int { 365 * y + y / 4 - y / 100 + y / 400 }

  /** For a non-negative day number the intermediate day-of-year `d1` lies in
      0..365, so the week number lies in 1..53. */
  lemma {:induction false} WeekOfJdnRange(jd: int)
    requires jd >= 0
    ensures 1 <= WeekOfJdn(jd) <= 53
  {
    var t := jd + 31741 - jd % 7;
    assert CsMod(jd, 7) == jd % 7;
    assert t >= 0;
    var d4 := ((t % 146097) % 36524) % 1461;
    assert CsMod(CsMod(CsMod(t, 146097), 36524), 1461) == d4;
    assert 0 <= d4 <= 1460;
    var l := d4 / 1460;
    assert CsDiv(d4, 1460) == l;
    var d1 := (d4 - l) % 365 + l;
    assert CsMod(d4 - l, 365) == (d4 - l) % 365;
    assert 0 <= d1 <= 365;
    assert CsDiv(d1, 7) == d1 / 7;
  }

  lemma WeekNumberRange(year: int, mon: int, day: int)
    requires year >= 1 && 1 <= mon <= 12 && day >= 1
    ensures 1 <= DanishWeekNumber(year, mon, day) <= 53
  {
    JdnPositive(year, mon, day);
    WeekOfJdnRange(Jdn(year, mon, day));
  }

  /** The Julian Day Number counts days: the next calendar day has the next
      number. */
  lemma JdnSuccessor(year: int, month: int, day: int)
    requires ValidDate(year, month, day)
    ensures var n := NextDay(year, month, day); Jdn(n.year, n.month, n.day) == Jdn(year, month, day) + 1
  {
    var n := NextDay(year, month, day);
    JdnPositive(year, month, day);
    JdnPositive(n.year, n.month, n.day);
    FloorSuccessor(year, month, day);
  }

  /** The successor property for the floor-division formula. */
  lemma FloorSuccessor(year: int, month: int, day: int)
    requires ValidDate(year, month, day)
    ensures var n := NextDay(year, month, day); JdnFloor(n.year, n.month, n.day) == JdnFloor(year, month, day) + 1
  {
    if day < DaysInMonth(year, month) {
      FloorSuccessorInMonth(year, month, day);
    } else if month == 2 {
      FloorSuccessorFebruary(year);
    } else if month < 12 {
      FloorSuccessorMonth(year, month);
    } else {
      FloorSuccessorYear(year);
    }
  }

  lemma FloorSuccessorInMonth(year: int, month: int, day: int)
    ensures JdnFloor(year, month, day + 1) == JdnFloor(year, month, day) + 1
  {
  }

  lemma FloorSuccessorMonth(year: int, month: int)
    requires 1 <= month <= 11 && month != 2
    ensures JdnFloor(year, month + 1, 1) == JdnFloor(year, month, DaysInMonth(year, month)) + 1
  {
    MonthLengths(month);
    assert (14 - month) / 12 == (if month == 1 then 1 else 0);
    assert (14 - (month + 1)) / 12 == (if month == 1 then 1 else 0);
  }

  lemma FloorSuccessorFebruary(year: int)
    ensures JdnFloor(year, 3, 1) == JdnFloor(year, 2, DaysInMonth(year, 2)) + 1
  {
    var y := year + 4800;
    LeapStep(y);
    LeapShift(year);
    MarchFirst(year);
    FebruaryDay(year, DaysInMonth(year, 2));
  }

  lemma MarchFirst(year: int)
    ensures JdnFloor(year, 3, 1) == 1 + YearStart(year + 4800) - 32045
  {
    assert MonthStart(0) == 0;
  }

  lemma FebruaryDay(year: int, day: int)
    ensures JdnFloor(year, 2, day) == day + 337 + YearStart(year + 4799) - 32045
  {
    assert MonthStart(11) == 337;
  }

  /** 4800 years are twelve 400-year cycles: the leap rule repeats. */
  lemma LeapShift(year: int)
    ensures IsLeapYear(year) <==> (var y := year + 4800; y % 4 == 0 && (y % 100 != 0 || y % 400 == 0))
  {
    assert (year + 4800) % 4 == year % 4;
    assert (year + 4800) % 100 == year % 100;
    assert (year + 4800) % 400 == year % 400;
  }

  lemma FloorSuccessorYear(year: int)
    ensures JdnFloor(year + 1, 1, 1) == JdnFloor(year, 12, 31) + 1
  {
    assert JdnFloor(year + 1, 1, 1) == 1 + MonthStart(10) + YearStart(year + 4800) - 32045;
    assert JdnFloor(year, 12, 31) == 31 + MonthStart(9) + YearStart(year + 4800) - 32045;
  }

  /** Month lengths as the formula's March-based month starts encode them. */
  lemma MonthLengths(month: int)
    requires 1 <= month <= 11 && month != 2
    ensures var a := (14 - month) / 12; var m := month + 12 * a - 3;
      MonthStart(m + 1) - MonthStart(m) == DaysInMonth(2001, month)
  {
  }

  lemma DivStep4(y: int)
    ensures y / 4 - (y - 1) / 4 == (if y % 4 == 0 then 1 else 0)
  {
  }

  lemma DivStep100(y: int)
    ensures y / 100 - (y - 1) / 100 == (if y % 100 == 0 then 1 else 0)
  {
  }

  lemma DivStep400(y: int)
    ensures y / 400 - (y - 1) / 400 == (if y % 400 == 0 then 1 else 0)
  {
  }

  /** The leap-day correction of the formula: from year y-1 to year y the count
      of days grows by 366 exactly when y is a leap year. */
  lemma LeapStep(y: int)
    ensures YearStart(y) - YearStart(y - 1)
            == 365 + (if y % 4 == 0 && (y % 100 != 0 || y % 400 == 0) then 1 else 0)
  {
    DivStep4(y);
    DivStep100(y);
    DivStep400(y);
    MultipleOf400(y);
    MultipleOf100(y);
  }

  lemma MultipleOf400(y: int)
    ensures y % 400 == 0 ==> y % 100 == 0
  {
    if y % 400 == 0 {
      var q := y / 400;
      assert y == 100 * (4 * q);
    }
  }

  lemma MultipleOf100(y: int)
    ensures y % 100 == 0 ==> y % 4 == 0
  {
    if y % 100 == 0 {
      var q := y / 100;
      assert y == 4 * (25 * q);
    }
  }

  /** The week number is the same from Monday to Sunday: it depends only on
      the day number's week `jd / 7` (day numbers divisible by 7 are Mondays). */
  lemma SameWeekMondayToSunday(jd1: int, jd2: int)
    requires jd1 >= 0 && jd2 >= 0 && jd1 / 7 == jd2 / 7
    ensures WeekOfJdn(jd1) == WeekOfJdn(jd2)
  {
    CsDivModNonNegative(jd1, 7);
    CsDivModNonNegative(jd2, 7);
    assert jd1 + 31741 - CsMod(jd1, 7) == jd2 + 31741 - CsMod(jd2, 7);
  }

  /** The attributed year is within one of the calendar year and the week is
      the computed one, in 1..53. */
  lemma WeekNumberYear(year: int, month: int, day: int)
    requires year >= 1 && 1 <= month <= 12 && day >= 1
    ensures var r := GetWeekNumber(year, month, day);
      year - 1 <= r.year <= year + 1 && 1 <= r.week <= 53
  {
    WeekNumberRange(year, month, day);
  }
}
