// Day numbers to calendar dates and back (grain-agent-harness/src/session.rs), by eras of
// 400 years that start in March, so that the leap day is the last of its year; and the
// calendar itself, date after date, that both directions have to agree with.
module CivilDate {

  datatype Date = Date(year: int, month: nat, day: nat)

  // --- The arithmetic of the source ---

  function YearOfEra(doe: int): int {
    (doe - doe / 1460 + doe / 36524 - doe / 146096) / 365
  }

  function FromDays(days: int): Date {
    var z := days + 719468;
    var era := z / 146097;
    FromEra(era, z - era * 146097)
  }

  function FromEra(era: int, doe: int): Date {
    var yoe := YearOfEra(doe);
    FromDayOfYear(yoe + era * 400, doe - (365 * yoe + yoe / 4 - yoe / 100))
  }

  // Days of a year that starts in March.
  function FromDayOfYear(y: int, doy: int): Date {
    var mp := (5 * doy + 2) / 153;
    var d := doy - (153 * mp + 2) / 5 + 1;
    var m := if mp < 10 then mp + 3 else mp - 9;
    Date(if m <= 2 then y + 1 else y, if m >= 0 then m else 0, if d >= 0 then d else 0)
  }

  function DaysFromCivil(date: Date): int {
    var y := if date.month <= 2 then date.year - 1 else date.year;
    var era := if y >= 0 then y / 400 else Truncated(y - 399, 400);
    var yoe := y - era * 400;
    var m := if date.month > 2 then date.month - 3 else date.month + 9;
    var doy := (153 * m + 2) / 5 + date.day - 1;
    var doe := yoe * 365 + yoe / 4 - yoe / 100 + doy;
    era * 146097 + doe - 719468
  }

  // Division that rounds toward zero.
  function Truncated(a: int, b: int): int
    requires b > 0
  {
    if a >= 0 then a / b else -(-a / b)
  }

  // --- The calendar ---

  predicate IsLeap(y: int) { y % 4 == 0 && (y % 100 != 0 || y % 400 == 0) }

  function DaysInMonth(y: int, m: nat): nat {
    if m == 2 then (if IsLeap(y) then 29 else 28)
    else if m == 4 || m == 6 || m == 9 || m == 11 then 30
    else 31
  }

  predicate IsDate(d: Date) {
    1 <= d.month <= 12 && 1 <= d.day <= DaysInMonth(d.year, d.month)
  }

  function NextDay(d: Date): Date {
    if d.day < DaysInMonth(d.year, d.month) then d.(day := d.day + 1)
    else if d.month < 12 then Date(d.year, d.month + 1, 1)
    else Date(d.year + 1, 1, 1)
  }

  // --- Years of an era, starting in March ---

  // A day of an era: which year, and which day of that year. Only a year that ends in a
  // leap February has a day 365.
  predicate IsDayOfEra(yoe: int, doy: int) {
    && 0 <= yoe < 400 && 0 <= doy <= 365
    && (doy == 365 ==> IsLeap(yoe + 1))
  }

  function DayOfEra(yoe: int, doy: int): int { 365 * yoe + yoe / 4 - yoe / 100 + doy }

  lemma YearOfEraExact(yoe: int, doy: int)
    requires IsDayOfEra(yoe, doy)
    ensures 0 <= DayOfEra(yoe, doy) < 146097
    ensures YearOfEra(DayOfEra(yoe, doy)) == yoe
  {
    var c, a, b := yoe / 100, yoe % 100 / 4, yoe % 4;
    assert yoe == 100 * c + 4 * a + b && yoe / 4 == 25 * c + a;
    var doe := DayOfEra(yoe, doy);
    assert doe == 36524 * c + 1461 * a + 365 * b + doy;
    CenturiesExact(c, a, b, doy);
    FourYearsExact(c, a, b, doy);
  }

  lemma CenturiesExact(c: int, a: int, b: int, doy: int)
    requires 0 <= c < 4 && 0 <= a < 25 && 0 <= b < 4 && 0 <= doy <= 365
    requires doy == 365 ==> b == 3 && (a < 24 || c == 3)
    ensures var doe := 36524 * c + 1461 * a + 365 * b + doy;
      0 <= doe < 146097 && doe / 36524 - doe / 146096 == c
  {
    var doe := 36524 * c + 1461 * a + 365 * b + doy;
    if doe == 146096 {
      assert c == 3;
    } else {
      assert 36524 * c <= doe < 36524 * (c + 1);
    }
  }

  lemma FourYearsExact(c: int, a: int, b: int, doy: int)
    requires 0 <= c < 4 && 0 <= a < 25 && 0 <= b < 4 && 0 <= doy <= 365
    requires doy == 365 ==> b == 3
    ensures var doe := 36524 * c + 1461 * a + 365 * b + doy;
      (doe - doe / 1460 + c) / 365 == 100 * c + 4 * a + b
  {
    var doe := 36524 * c + 1461 * a + 365 * b + doy;
    var rest := 24 * c + a + 365 * b + doy;
    assert doe == 1460 * (25 * c + a) + rest;
    var e := if rest >= 1460 then 1 else 0;
    assert doe / 1460 == 25 * c + a + e;
    assert doe - doe / 1460 + c == 365 * (100 * c + 4 * a + b) + (doy - e);
    assert 0 <= doy - e < 365;
  }

  // Every day of an era is some day of some year.
  lemma DayOfEraTotal(doe: int) returns (yoe: int, doy: int)
    requires 0 <= doe < 146097
    ensures IsDayOfEra(yoe, doy) && DayOfEra(yoe, doy) == doe
  {
    var c := if doe == 146096 then 3 else doe / 36524;
    var r := doe - 36524 * c;
    var a := r / 1461;
    var s := r - 1461 * a;
    var b := if s == 1460 then 3 else s / 365;
    yoe, doy := 100 * c + 4 * a + b, s - 365 * b;
    assert yoe / 100 == c && yoe / 4 == 25 * c + a;
  }

  // --- Months of a year, starting in March ---

  function DayOfYear(month: nat, day: int): int {
    var m := if month > 2 then month - 3 else month + 9;
    (153 * m + 2) / 5 + day - 1
  }

  lemma MonthExact(y: int, month: nat, day: nat)
    requires 1 <= month <= 12 && 1 <= day <= (if month == 2 then 29 else DaysInMonth(y, month))
    ensures 0 <= DayOfYear(month, day) <= 365
    ensures DayOfYear(month, day) == 365 <==> month == 2 && day == 29
    ensures FromDayOfYear(y, DayOfYear(month, day)) == Date(if month <= 2 then y + 1 else y, month, day)
  {
    var m := if month > 2 then month - 3 else month + 9;
    if m == 0 {} else if m == 1 {} else if m == 2 {} else if m == 3 {} else if m == 4 {} else if m == 5 {}
    else if m == 6 {} else if m == 7 {} else if m == 8 {} else if m == 9 {} else if m == 10 {} else {}
  }

  lemma DayOfYearTotal(y: int, doy: int)
    requires 0 <= doy <= 365
    ensures var d := FromDayOfYear(y, doy);
      && 1 <= d.month <= 12 && 1 <= d.day <= (if d.month == 2 then 29 else DaysInMonth(y, d.month))
      && DayOfYear(d.month, d.day) == doy
      && d.year == (if d.month <= 2 then y + 1 else y)
  {
    var mp := (5 * doy + 2) / 153;
    if mp == 0 {} else if mp == 1 {} else if mp == 2 {} else if mp == 3 {} else if mp == 4 {} else if mp == 5 {}
    else if mp == 6 {} else if mp == 7 {} else if mp == 8 {} else if mp == 9 {} else if mp == 10 {} else {}
  }

  // --- The two directions ---

  lemma FloorOfEra(y: int)
    ensures (if y >= 0 then y / 400 else Truncated(y - 399, 400)) == y / 400
  {
  }

  lemma Divided(a: int, b: int, q: int, r: int)
    requires a == b * q + r && 0 <= r < b
    ensures a / b == q && a % b == r
  {
    assert b * (q - a / b) == a % b - r;
    AtLeast(b, q - a / b);
  }

  lemma AtLeast(b: int, d: int)
    requires b > 0
    ensures d > 0 ==> b * d >= b
    ensures d < 0 ==> b * d <= -b
  {
    if d > 0 {
      assert b * (d - 1) >= 0;
    } else if d < 0 {
      assert b * (-1 - d) >= 0;
    }
  }

  lemma LeapInEra(era: int, yoe: int)
    requires 0 <= yoe < 400
    ensures IsLeap(era * 400 + yoe + 1) <==> IsLeap(yoe + 1)
  {
    var y, x := era * 400 + yoe + 1, yoe + 1;
    Divided(y, 4, 100 * era + x / 4, x % 4);
    Divided(y, 100, 4 * era + x / 100, x % 100);
    Divided(y, 400, era + x / 400, x % 400);
  }

  lemma EraOf(era: int, doe: int)
    requires 0 <= doe < 146097
    ensures FromDays(era * 146097 + doe - 719468) == FromEra(era, doe)
  {
    Divided(era * 146097 + doe, 146097, era, doe);
  }

  lemma FromEraExact(era: int, yoe: int, doy: int, days: int)
    requires IsDayOfEra(yoe, doy) && days == era * 146097 + DayOfEra(yoe, doy) - 719468
    ensures FromDays(days) == FromDayOfYear(era * 400 + yoe, doy)
  {
    YearOfEraExact(yoe, doy);
    FromEraIs(era, yoe, doy, DayOfEra(yoe, doy));
    EraOf(era, DayOfEra(yoe, doy));
  }

  lemma FromEraIs(era: int, yoe: int, doy: int, doe: int)
    requires YearOfEra(doe) == yoe && doe == 365 * yoe + yoe / 4 - yoe / 100 + doy
    ensures FromEra(era, doe) == FromDayOfYear(era * 400 + yoe, doy)
  {
  }

  // The year of a date, when years start in March.
  function MarchYear(d: Date): int { if d.month <= 2 then d.year - 1 else d.year }

  // A date is a day of an era; this is where its day number comes from.
  lemma DateIsDayOfEra(d: Date, era: int, yoe: int)
    requires IsDate(d) && MarchYear(d) == era * 400 + yoe && 0 <= yoe < 400
    ensures IsDayOfEra(yoe, DayOfYear(d.month, d.day))
    ensures DaysFromCivil(d) == era * 146097 + DayOfEra(yoe, DayOfYear(d.month, d.day)) - 719468
  {
    MonthExact(MarchYear(d), d.month, d.day);
    FloorOfEra(MarchYear(d));
    Divided(MarchYear(d), 400, era, yoe);
    LeapInEra(era, yoe);
  }

  lemma EraAndYear(y: int) returns (era: int, yoe: int)
    ensures y == era * 400 + yoe && 0 <= yoe < 400
  {
    era, yoe := y / 400, y % 400;
  }

  lemma DateToDaysAndBack(d: Date)
    requires IsDate(d)
    ensures FromDays(DaysFromCivil(d)) == d
  {
    var era, yoe := EraAndYear(MarchYear(d));
    DateIsDayOfEra(d, era, yoe);
    BackFrom(d, DaysFromCivil(d), era, yoe, DayOfYear(d.month, d.day));
  }

  lemma BackFrom(d: Date, days: int, era: int, yoe: int, doy: int)
    requires IsDate(d) && MarchYear(d) == era * 400 + yoe && doy == DayOfYear(d.month, d.day)
    requires IsDayOfEra(yoe, doy) && days == era * 146097 + DayOfEra(yoe, doy) - 719468
    ensures FromDays(days) == d
  {
    FromEraExact(era, yoe, doy, days);
    OfMarchYear(d, era * 400 + yoe);
  }

  lemma OfMarchYear(d: Date, y: int)
    requires IsDate(d) && MarchYear(d) == y
    ensures FromDayOfYear(y, DayOfYear(d.month, d.day)) == d
  {
    MonthExact(y, d.month, d.day);
  }

  lemma DaysToDateAndBack(days: int)
    ensures IsDate(FromDays(days)) && DaysFromCivil(FromDays(days)) == days
  {
    var era, doe := (days + 719468) / 146097, (days + 719468) % 146097;
    var yoe, doy := DayOfEraTotal(doe);
    FromEraExact(era, yoe, doy, days);
    FromDayOfYearIsDate(FromDays(days), era, yoe, doy);
  }

  lemma FromDayOfYearIsDate(d: Date, era: int, yoe: int, doy: int)
    requires IsDayOfEra(yoe, doy) && d == FromDayOfYear(era * 400 + yoe, doy)
    ensures IsDate(d) && DaysFromCivil(d) == era * 146097 + DayOfEra(yoe, doy) - 719468
  {
    LeapInEra(era, yoe);
    DayOfYearTotal(era * 400 + yoe, doy);
    MonthExact(era * 400 + yoe, d.month, d.day);
    assert MarchYear(d) == era * 400 + yoe;
    DateIsDayOfEra(d, era, yoe);
  }

  // Day numbers follow the calendar: day 0 is 1 January 1970, and the next date is one
  // day later.
  lemma DaysFollowCalendar(d: Date)
    requires IsDate(d)
    ensures IsDate(NextDay(d)) && DaysFromCivil(NextDay(d)) == DaysFromCivil(d) + 1
    ensures DaysFromCivil(Date(1970, 1, 1)) == 0
  {
    var era, yoe := EraAndYear(MarchYear(d));
    if MarchYear(NextDay(d)) == MarchYear(d) {
      SameYear(d);
      NextInYear(d, NextDay(d), era, yoe);
    } else {
      LastOfFebruary(d);
      NewYear(d, era, yoe);
    }
    FirstDay();
  }

  lemma FirstDay()
    ensures DaysFromCivil(Date(1970, 1, 1)) == 0
  {
  }

  lemma NextInYear(d: Date, next: Date, era: int, yoe: int)
    requires IsDate(d) && IsDate(next) && MarchYear(d) == MarchYear(next) == era * 400 + yoe && 0 <= yoe < 400
    requires DayOfYear(next.month, next.day) == DayOfYear(d.month, d.day) + 1
    ensures DaysFromCivil(next) == DaysFromCivil(d) + 1
  {
    DateIsDayOfEra(d, era, yoe);
    DateIsDayOfEra(next, era, yoe);
  }

  lemma NewYear(d: Date, era: int, yoe: int)
    requires IsDate(d) && MarchYear(d) == era * 400 + yoe && 0 <= yoe < 400
    requires MarchYear(NextDay(d)) != MarchYear(d)
    ensures DaysFromCivil(NextDay(d)) == DaysFromCivil(d) + 1
  {
    LastOfFebruary(d);
    LeapInEra(era, yoe);
    DateIsDayOfEra(d, era, yoe);
    var next := Date(d.year, 3, 1);
    if yoe < 399 {
      DateIsDayOfEra(next, era, yoe + 1);
      NextYear(yoe);
    } else {
      DateIsDayOfEra(next, era + 1, 0);
    }
  }

  lemma SameYear(d: Date)
    requires IsDate(d) && MarchYear(NextDay(d)) == MarchYear(d)
    ensures IsDate(NextDay(d)) && DayOfYear(NextDay(d).month, NextDay(d).day) == DayOfYear(d.month, d.day) + 1
  {
  }

  lemma LastOfFebruary(d: Date)
    requires IsDate(d) && MarchYear(NextDay(d)) != MarchYear(d)
    ensures d.month == 2 && NextDay(d) == Date(d.year, 3, 1)
    ensures DayOfYear(d.month, d.day) == if IsLeap(d.year) then 365 else 364
  {
  }

  lemma NextYear(yoe: int)
    requires 0 <= yoe < 399
    ensures DayOfEra(yoe + 1, 0) == DayOfEra(yoe, if IsLeap(yoe + 1) then 365 else 364) + 1
  {
    assert (yoe + 1) / 4 == yoe / 4 + if (yoe + 1) % 4 == 0 then 1 else 0;
    assert (yoe + 1) / 100 == yoe / 100 + if (yoe + 1) % 100 == 0 then 1 else 0;
    assert (yoe + 1) % 100 == 0 ==> (yoe + 1) % 4 == 0;
  }

  lemma DatesFollowCalendar(days: int)
    ensures FromDays(days + 1) == NextDay(FromDays(days))
  {
    DaysToDateAndBack(days);
    NextHasNextNumber(FromDays(days), days);
  }

  lemma NextHasNextNumber(d: Date, days: int)
    requires IsDate(d) && DaysFromCivil(d) == days
    ensures FromDays(days + 1) == NextDay(d)
  {
    DaysFollowCalendar(d);
    DateToDaysAndBack(NextDay(d));
  }
}
