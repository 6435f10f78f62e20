/** Easter Sunday: the Anonymous Gregorian algorithm of the SLA code, proved
    against the Gregorian computus stated through golden number and epact. */
module Easter {
  import opened Calendar

  /** The remainder operator of ECMA-262, which takes the sign of the dividend. */
  function Rem(x: int, n: int): int
    requires 0 < n
  {
    if 0 <= x then x % n else -((-x) % n)
  }

  datatype MonthDay = MonthDay(month: int, day: int)

  function ComputeEasterSunday(year: int): MonthDay {
    var a := Rem(year, 19);
    var b := year / 100;
    var c := Rem(year, 100);
    var d := b / 4;
    var e := Rem(b, 4);
    var f := (b + 8) / 25;
    var g := (b - f + 1) / 3;
    var h := Rem(19 * a + b - d - g + 15, 30);
    var i := c / 4;
    var k := Rem(c, 4);
    var l := Rem(32 + 2 * e + 2 * i - h - k, 7);
    var m := (a + 11 * h + 22 * l) / 451;
    MonthDay((h + l - 7 * m + 114) / 31, Rem(h + l - 7 * m + 114, 31) + 1)
  }

  // ----- The computus ----------------------------------------------------------

  /** Position of the year in the 19-year lunar cycle, from 1. */
  function GoldenNumber(y: int): int {
    y % 19 + 1
  }

  /** Age of the moon at the start of the year, before the two exceptions:
      11 days a year, less the leap days dropped by the century rule,
      plus the correction of 8 days in 2500 years. */
  function MeanEpact(y: int): int {
    var century := y / 100 + 1;
    var droppedLeapDays := 3 * century / 4 - 12;
    var lunarCorrection := (8 * century + 5) / 25 - 5;
    (11 * GoldenNumber(y) + 20 + lunarCorrection - droppedLeapDays) % 30
  }

  /** Epact 24, and epact 25 late in the cycle, are moved up by one. */
  function Epact(y: int): int {
    var e := MeanEpact(y);
    if e == 24 || (e == 25 && 11 < GoldenNumber(y)) then e + 1 else e
  }

  /** Day number of the first ecclesiastical full moon on or after 21 March. */
  function PaschalFullMoon(y: int): int {
    MakeDay(y, 2, if Epact(y) <= 23 then 44 - Epact(y) else 74 - Epact(y))
  }

  /** Easter is the Sunday in the seven days after the paschal full moon. */
  predicate IsEaster(y: int, n: int) {
    PaschalFullMoon(y) < n <= PaschalFullMoon(y) + 7 && WeekDay(n) == 0
  }

  // ----- Proof -----------------------------------------------------------------

  /** The algorithm's lunar correction g is the computus' correction. */
  lemma LunarCorrection(b: int)
    requires 0 <= b
    ensures (b - (b + 8) / 25 + 1) / 3 == (8 * b + 13) / 25
  {
    var q, r := b / 25, b % 25;
    assert b == 25 * q + r;
    assert (b + 8) / 25 == q + (if 17 <= r then 1 else 0);
    assert (8 * b + 13) / 25 == 8 * q + (8 * r + 13) / 25;
  }

  /** The code's h: days from 21 March to the mean full moon. */
  function MoonOffset(y: int): int {
    var a, b := y % 19, y / 100;
    (19 * a + b - b / 4 - (b - (b + 8) / 25 + 1) / 3 + 15) % 30
  }

  lemma MoonOffsetFromEpact(y: int)
    requires 0 <= y
    ensures MoonOffset(y) == (23 - MeanEpact(y)) % 30 && 0 <= MeanEpact(y) < 30
  {
    var a, b := y % 19, y / 100;
    LunarCorrection(b);
    assert 3 * (b + 1) / 4 == b - b / 4;
    var x := 11 * (a + 1) + 20 + (8 * b + 13) / 25 - 5 - (b - b / 4 - 12);
    assert MeanEpact(y) == x % 30;
    SameMod30(23 - x, 19 * a + b - b / 4 - (8 * b + 13) / 25 + 15, -a - 1);
    SameMod30(23 - x % 30, 23 - x, x / 30);
  }

  lemma SameMod30(x: int, y: int, q: int)
    requires x == y + 30 * q || x == y - 30 * q
    ensures x % 30 == y % 30
  {
  }

  lemma FullMoonFromOffset(y: int)
    requires 0 <= y
    ensures var h := MoonOffset(y);
      PaschalFullMoon(y) == MakeDay(y, 2, 21 + h) - (if h == 29 || (h == 28 && 10 < y % 19) then 1 else 0)
  {
    hide MoonOffset, MeanEpact, DayFromYear, IsLeap;
    MoonOffsetFromEpact(y);
  }

  /** 22 March of year 100(4d+e) + 4i+k falls, up to a constant, on weekday k - 2e - 2i. */
  lemma WeekDayOfMarch22(y: int)
    ensures var e, i, k := y / 100 % 4, y % 100 / 4, y % 100 % 4;
      WeekDay(MakeDay(y, 2, 22)) == (k - 2 * e - 2 * i + 3) % 7
  {
    var b, c := y / 100, y % 100;
    var d, e, i, k := b / 4, b % 4, c / 4, c % 4;
    MarchOneNumber(y);
    var n := MakeDay(y, 2, 22);
    assert y / 4 == 25 * b + i;
    assert y / 400 == d;
    assert n == 365 * y + y / 4 - b + d - 719528 + 80 + 1;
    assert n + 4 == 365 * (100 * (4 * d + e) + 4 * i + k) + 25 * (4 * d + e) + i - (4 * d + e) + d - 719443;
    assert n + 4 == (k - 2 * e - 2 * i + 3) + 7 * (20871 * d + 5218 * e + 209 * i + 52 * k - 102778);
    SameMod7(n + 4, k - 2 * e - 2 * i + 3, 20871 * d + 5218 * e + 209 * i + 52 * k - 102778);
  }

  lemma MarchOneNumber(y: int)
    ensures MakeDay(y, 2, 22) == 365 * y + y / 4 - y / 100 + y / 400 - 719528 + 81
  {
    YearLength(y);
    assert DayFromYear(y) + LeapDays(y) == DayFromYear(y + 1) - 365;
    assert (y - 1968) / 4 == y / 4 - 492;
    assert (y - 1900) / 100 == y / 100 - 19;
    assert (y - 1600) / 400 == y / 400 - 4;
  }

  lemma SameMod7(x: int, y: int, q: int)
    requires x == y + 7 * q
    ensures x % 7 == y % 7
  {
  }

  /** The code's l: days from 22 March + h to the next Sunday. */
  function SundayOffset(y: int): int {
    (32 + 2 * (y / 100 % 4) + 2 * (y % 100 / 4) - MoonOffset(y) - y % 100 % 4) % 7
  }

  /** The code's m: 1 exactly when a late full moon and a late Sunday would pass 25 April. */
  function WeekBack(y: int): int {
    (y % 19 + 11 * MoonOffset(y) + 22 * SundayOffset(y)) / 451
  }

  /** Days from 22 March to the computed date. */
  function EasterOffset(y: int): int {
    MoonOffset(y) + SundayOffset(y) - 7 * WeekBack(y)
  }

  lemma CenturyTermsAreNonNegative(b: int)
    requires 0 <= b
    ensures 0 <= b - b / 4 - (b - (b + 8) / 25 + 1) / 3 + 15
  {
  }

  lemma ComputedDate(y: int)
    requires 0 <= y
    ensures ComputeEasterSunday(y) == MonthDay((EasterOffset(y) + 114) / 31, (EasterOffset(y) + 114) % 31 + 1)
  {
    CenturyTermsAreNonNegative(y / 100);
    WeekBackCases(y);
  }

  lemma WeekBackCases(y: int)
    requires 0 <= y
    ensures var h, l := MoonOffset(y), SundayOffset(y);
      WeekBack(y) == (if l == 6 && (h == 29 || (h == 28 && 10 < y % 19)) then 1 else 0)
    ensures 0 <= EasterOffset(y) <= 34 && 0 <= MoonOffset(y) < 30 && 0 <= SundayOffset(y) < 7
  {
  }

  /** The Sunday term cancels the weekday of 22 March. */
  lemma SundayArithmetic(n: int, e: int, i: int, k: int, h: int, l: int, m: int)
    requires WeekDay(n) == (k - 2 * e - 2 * i + 3) % 7
    requires l == (32 + 2 * e + 2 * i - h - k) % 7
    ensures WeekDay(n + (h + l - 7 * m)) == 0
  {
    var x, z := k - 2 * e - 2 * i + 3, 32 + 2 * e + 2 * i - h - k;
    SameMod7(n + (h + l - 7 * m) + 4, 0, (n + 4) / 7 - x / 7 - z / 7 - m + 5);
  }

  lemma OffsetIsSunday(y: int)
    requires 0 <= y
    ensures WeekDay(MakeDay(y, 2, 22) + EasterOffset(y)) == 0
  {
    hide MoonOffset, WeekBack, MakeDay;
    WeekDayOfMarch22(y);
    SundayArithmetic(MakeDay(y, 2, 22), y / 100 % 4, y % 100 / 4, y % 100 % 4,
                     MoonOffset(y), SundayOffset(y), WeekBack(y));
  }

  /** The day number of the computed Easter Sunday. */
  function EasterDay(y: int): int {
    var easter := ComputeEasterSunday(y);
    DayFromYear(y) + LeapDays(y) + (if easter.month == 3 then 58 else 89) + easter.day
  }

  /** For every year the algorithm returns a date from 22 March to 25 April, and that date
      is the one and only Sunday in the week after the paschal full moon. */
  lemma EasterIsCorrect(y: int)
    requires 0 <= y
    ensures var easter := ComputeEasterSunday(y);
      && Civil(y, easter.month, easter.day).Valid()
      && ((easter.month == 3 && 22 <= easter.day) || (easter.month == 4 && easter.day <= 25))
      && EasterDay(y) == MakeDay(y, easter.month - 1, easter.day)
    ensures forall n :: IsEaster(y, n) <==> n == EasterDay(y)
  {
    hide ComputeEasterSunday, PaschalFullMoon, WeekDay;
    ComputedIsOffset(y);
    ComputedIsEaster(y);
    forall x | IsEaster(y, x) ensures x == EasterDay(y) {
      OneSundayAWeek(x, EasterDay(y), PaschalFullMoon(y));
    }
  }

  lemma ComputedIsOffset(y: int)
    requires 0 <= y
    ensures var easter := ComputeEasterSunday(y);
      && Civil(y, easter.month, easter.day).Valid()
      && ((easter.month == 3 && 22 <= easter.day) || (easter.month == 4 && easter.day <= 25))
      && EasterDay(y) == MakeDay(y, easter.month - 1, easter.day) == MakeDay(y, 2, 22) + EasterOffset(y)
  {
    hide ComputeEasterSunday, EasterOffset, DayFromYear, IsLeap;
    ComputedDate(y);
    WeekBackCases(y);
    DateOfOffset(y, EasterOffset(y), ComputeEasterSunday(y));
  }

  lemma DateOfOffset(y: int, offset: int, date: MonthDay)
    requires 0 <= offset <= 34 && date == MonthDay((offset + 114) / 31, (offset + 114) % 31 + 1)
    ensures Civil(y, date.month, date.day).Valid()
    ensures (date.month == 3 && 22 <= date.day) || (date.month == 4 && date.day <= 25)
    ensures MakeDay(y, date.month - 1, date.day) == MakeDay(y, 2, 22) + offset
         == DayFromYear(y) + LeapDays(y) + (if date.month == 3 then 58 else 89) + date.day
  {
    if offset < 10 {
      assert date == MonthDay(3, 22 + offset);
    } else {
      assert date == MonthDay(4, offset - 9);
    }
  }

  lemma ComputedIsEaster(y: int)
    requires 0 <= y
    ensures IsEaster(y, EasterDay(y))
  {
    hide ComputeEasterSunday, EasterDay, MoonOffset, SundayOffset, WeekBack, PaschalFullMoon, DayFromYear, IsLeap;
    ComputedIsOffset(y);
    OffsetIsSunday(y);
    FullMoonFromOffset(y);
    WeekBackCases(y);
    SundayWindow(MoonOffset(y), SundayOffset(y), WeekBack(y), y % 19, EasterOffset(y),
                 PaschalFullMoon(y), MakeDay(y, 2, 22), MakeDay(y, 2, 21 + MoonOffset(y)));
  }

  lemma SundayWindow(h: int, l: int, m: int, a: int, offset: int, moon: int, march22: int, mean: int)
    requires 0 <= l <= 6 && offset == h + l - 7 * m && mean == march22 + h - 1 && 0 <= h <= 29
    requires m == (if l == 6 && (h == 29 || (h == 28 && 10 < a)) then 1 else 0)
    requires moon == mean - (if h == 29 || (h == 28 && 10 < a) then 1 else 0)
    ensures moon < march22 + offset <= moon + 7
  {
  }

  lemma OneSundayAWeek(x: int, n: int, start: int)
    requires start < x <= start + 7 && start < n <= start + 7
    requires WeekDay(x) == 0 && WeekDay(n) == 0
    ensures x == n
  {
  }

  // ----- The two movable holidays -----------------------------------------------

  /** `addDays`: month and day of the date `offset` days away, through `Date.UTC`. */
  function AddDays(year: int, month: int, day: int, offset: int): MonthDay {
    var y := if 0 <= year <= 99 then 1900 + year else year;
    var c := CivilOfDay(MakeDay(y, month - 1, day + offset));
    MonthDay(c.month, c.day)
  }

  /** The result names the date `offset` days away; for the years 0 to 99, which `Date.UTC` remaps, it
      names the one 1900 years later. */
  lemma AddDaysIsThatFarAway(year: int, month: int, day: int, offset: int)
    ensures 0 <= year <= 99 ==> AddDays(year, month, day, offset) == AddDays(year + 1900, month, day, offset)
    ensures !(0 <= year <= 99) ==>
      var c := CivilOfDay(MakeDay(year, month - 1, day) + offset); AddDays(year, month, day, offset) == MonthDay(c.month, c.day)
  {
    hide CivilOfDay, DayFromYear, DaysBefore;
    var y := if 0 <= year <= 99 then 1900 + year else year;
    assert MakeDay(y, month - 1, day + offset) == MakeDay(y, month - 1, day) + offset;
  }

  /** Good Friday is a Friday and Corpus Christi a Thursday, and both fall in Easter's year. */
  lemma MovableHolidays(y: int)
    requires 0 <= y
    ensures WeekDay(EasterDay(y) - 2) == 5 && WeekDay(EasterDay(y) + 60) == 4
    ensures YearOfDay(EasterDay(y) - 2) == y && YearOfDay(EasterDay(y) + 60) == y
  {
    hide EasterDay, YearOfDay, PaschalFullMoon;
    ComputedIsEaster(y);
    NearSunday(EasterDay(y));
    SameYearAsEaster(y);
  }

  /** `addDays` from Easter names the month and day of the civil date that far away. */
  lemma AddDaysFromEaster(y: int, offset: int)
    requires 100 <= y
    ensures AddDays(y, ComputeEasterSunday(y).month, ComputeEasterSunday(y).day, offset)
         == MonthDay(CivilOfDay(EasterDay(y) + offset).month, CivilOfDay(EasterDay(y) + offset).day)
  {
    hide ComputeEasterSunday, MakeDay, CivilOfDay;
    ComputedIsOffset(y);
    AddDaysShifts(y, ComputeEasterSunday(y), EasterDay(y), offset);
  }

  lemma SameYearAsEaster(y: int)
    requires 0 <= y
    ensures YearOfDay(EasterDay(y) - 2) == y && YearOfDay(EasterDay(y) + 60) == y
  {
    hide ComputeEasterSunday, EasterDay, DayFromYear, IsLeap, YearOfDay;
    EasterRange(y);
    YearLength(y);
    YearOfDayUnique(EasterDay(y) - 2, y);
    YearOfDayUnique(EasterDay(y) + 60, y);
  }

  lemma AddDaysShifts(y: int, date: MonthDay, n: int, offset: int)
    requires 100 <= y && 1 <= date.month <= 12 && n == MakeDay(y, date.month - 1, date.day)
    ensures AddDays(y, date.month, date.day, offset)
         == MonthDay(CivilOfDay(n + offset).month, CivilOfDay(n + offset).day)
  {
    hide DayFromYear, IsLeap, CivilOfDay;
    assert MakeDay(y, date.month - 1, date.day + offset) == n + offset;
  }

  lemma NearSunday(n: int)
    requires WeekDay(n) == 0
    ensures WeekDay(n - 2) == 5 && WeekDay(n + 60) == 4
  {
  }

  /** Easter counted in days from 1 January. */
  lemma EasterRange(y: int)
    requires 0 <= y
    ensures 80 + LeapDays(y) <= EasterDay(y) - DayFromYear(y) <= 114 + LeapDays(y)
  {
    ComputedIsOffset(y);
  }
}
