/** The proleptic Gregorian calendar of the host `Date` object, after section
    21.4.1 of ECMA-262, and the UTC-4 wall clock that the SLA code builds on it.
    An instant is a whole number of milliseconds since 1970-01-01T00:00Z. */
module Calendar {

  const MS_PER_MINUTE: int := 60_000
  const MS_PER_HOUR: int := 3_600_000
  const MS_PER_DAY: int := 86_400_000
  const AST_OFFSET_MS: int := -4 * MS_PER_HOUR

  // ----- Years ---------------------------------------------------------------

  predicate IsLeap(y: int) {
    y % 4 == 0 && (y % 100 != 0 || y % 400 == 0)
  }

  function LeapDays(y: int): nat {
    if IsLeap(y) then 1 else 0
  }

  /** The day number of 1 January of year `y`. */
  function DayFromYear(y: int): int {
    365 * (y - 1970) + (y - 1969) / 4 - (y - 1901) / 100 + (y - 1601) / 400
  }

  lemma YearLength(y: int)
    ensures DayFromYear(y + 1) == DayFromYear(y) + 365 + LeapDays(y)
  {
    FourYears(y);
    Century(y);
    FourCenturies(y);
    Multiples(y);
  }

  lemma FourYears(y: int)
    ensures (y + 1 - 1969) / 4 == (y - 1969) / 4 + (if y % 4 == 0 then 1 else 0)
  {
  }

  lemma Century(y: int)
    ensures (y + 1 - 1901) / 100 == (y - 1901) / 100 + (if y % 100 == 0 then 1 else 0)
  {
  }

  lemma FourCenturies(y: int)
    ensures (y + 1 - 1601) / 400 == (y - 1601) / 400 + (if y % 400 == 0 then 1 else 0)
  {
  }

  lemma Multiples(y: int)
    ensures y % 400 == 0 ==> y % 100 == 0
    ensures y % 100 == 0 ==> y % 4 == 0
  {
  }

  lemma YearsApart(y: int, z: int)
    requires y <= z
    ensures DayFromYear(y) + 365 * (z - y) <= DayFromYear(z)
    decreases z - y
  {
    hide DayFromYear, IsLeap, YearOfDay;
    if y < z {
      YearLength(y);
      YearsApart(y + 1, z);
    }
  }

  /** `YearFromTime` on day numbers: the year whose days include `n`. */
  function YearOfDay(n: int): (y: int)
    ensures DayFromYear(y) <= n < DayFromYear(y + 1)
  {
    var guess := 1970 + 400 * n / 146097;
    GuessIsClose(n, guess);
    if n < DayFromYear(guess) then guess - 1
    else if DayFromYear(guess + 1) <= n then guess + 1
    else guess
  }

  lemma GuessIsClose(n: int, guess: int)
    requires guess == 1970 + 400 * n / 146097
    ensures DayFromYear(guess - 1) <= n < DayFromYear(guess + 2)
  {
    YearBounds(guess - 1);
    YearBounds(guess + 2);
  }

  /** `DayFromYear` stays within two days of a straight line through 1970. */
  lemma YearBounds(y: int)
    ensures 146097 * (y - 1970) - 800 <= 400 * DayFromYear(y) <= 146097 * (y - 1970) + 800
  {
  }

  lemma YearOfDayUnique(n: int, y: int)
    requires DayFromYear(y) <= n < DayFromYear(y + 1)
    ensures YearOfDay(n) == y
  {
    hide DayFromYear, IsLeap, YearOfDay;
    var z := YearOfDay(n);
    if z < y { YearsApart(z + 1, y); }
    if y < z { YearsApart(y + 1, z); }
  }

  // ----- Months --------------------------------------------------------------

  /** Days of the year before month `m`, where 1 is January and 13 the next January. */
  function DaysBefore(m: int, leap: nat): int
    requires 1 <= m <= 13
  {
    [0, 31, 59, 90, 120, 151, 181, 212, 243, 273, 304, 334, 365][m - 1]
    + (if m > 2 then leap else 0)
  }

  function DaysInMonth(y: int, m: int): int
    requires 1 <= m <= 12
  {
    if m == 2 then 28 + LeapDays(y) else if m in {4, 6, 9, 11} then 30 else 31
  }

  datatype Civil = Civil(year: int, month: int, day: int) {
    predicate Valid() {
      1 <= month <= 12 && 1 <= day <= DaysInMonth(year, month)
    }

    /** The next civil date, read off the month table rather than off day numbers. */
    function Next(): Civil
      requires Valid()
    {
      if day < DaysInMonth(year, month) then Civil(year, month, day + 1)
      else if month < 12 then Civil(year, month + 1, 1)
      else Civil(year + 1, 1, 1)
    }
  }

  /** `MonthFromTime`, counting from 1, for day `k` of a year. */
  function MonthOfYearDay(k: int, leap: nat): (m: int)
    requires 0 <= k < 365 + leap && leap <= 1
    ensures 1 <= m <= 12 && DaysBefore(m, leap) <= k < DaysBefore(m + 1, leap)
  {
    if k < 31 then 1
    else if k < 59 + leap then 2
    else if k < 90 + leap then 3
    else if k < 120 + leap then 4
    else if k < 151 + leap then 5
    else if k < 181 + leap then 6
    else if k < 212 + leap then 7
    else if k < 243 + leap then 8
    else if k < 273 + leap then 9
    else if k < 304 + leap then 10
    else if k < 334 + leap then 11
    else 12
  }

  function CivilOfDay(n: int): Civil {
    var y := YearOfDay(n);
    YearLength(y);
    var k := n - DayFromYear(y);
    var m := MonthOfYearDay(k, LeapDays(y));
    Civil(y, m, k - DaysBefore(m, LeapDays(y)) + 1)
  }

  /** `MakeDay`: the day number of a date whose month (counted from 0) and day may overflow. */
  function MakeDay(year: int, month: int, date: int): int {
    var y := year + month / 12;
    DayFromYear(y) + DaysBefore(month % 12 + 1, LeapDays(y)) + date - 1
  }

  /** A month past the end of a year is a month of the next one. */
  lemma MonthsCarryOver(year: int, month: int, date: int)
    ensures MakeDay(year, month + 12, date) == MakeDay(year + 1, month, date)
    ensures MakeDay(year, 12, 1) == DayFromYear(year + 1)
    ensures MakeDay(year, month, date + 1) == MakeDay(year, month, date) + 1
  {
    hide DayFromYear, IsLeap, DaysBefore;
    assert (month + 12) / 12 == month / 12 + 1 && (month + 12) % 12 == month % 12;
    JanuaryIsFirst(LeapDays(year + 1));
  }

  lemma JanuaryIsFirst(leap: nat)
    ensures DaysBefore(1, leap) == 0
  {
  }

  lemma MonthLength(y: int, m: int)
    requires 1 <= m <= 12
    ensures DaysBefore(m + 1, LeapDays(y)) == DaysBefore(m, LeapDays(y)) + DaysInMonth(y, m)
    ensures 0 <= DaysBefore(m, LeapDays(y)) && DaysBefore(m + 1, LeapDays(y)) <= 365 + LeapDays(y)
  {
    hide DayFromYear, IsLeap, YearOfDay;
    assert m == 1 || m == 2 || m == 3 || m == 4 || m == 5 || m == 6
        || m == 7 || m == 8 || m == 9 || m == 10 || m == 11 || m == 12;
  }

  lemma MonthsAscend(m: int, p: int, leap: nat)
    requires 1 <= m <= p <= 13
    ensures DaysBefore(m, leap) <= DaysBefore(p, leap)
    decreases p - m
  {
    if m < p {
      assert m == 1 || m == 2 || m == 3 || m == 4 || m == 5 || m == 6
          || m == 7 || m == 8 || m == 9 || m == 10 || m == 11 || m == 12;
      MonthsAscend(m + 1, p, leap);
    }
  }

  /** Civil dates and day numbers are in one-to-one correspondence: from number to date and back. */
  lemma DayToCivilAndBack(n: int)
    ensures var c := CivilOfDay(n);
      c.Valid() && c.year == YearOfDay(n) && MakeDay(c.year, c.month - 1, c.day) == n
  {
    hide DayFromYear, IsLeap, YearOfDay;
    var c := CivilOfDay(n);
    YearLength(c.year);
    MonthLength(c.year, c.month);
  }

  /** ... and from date to number and back. */
  lemma CivilToDayAndBack(c: Civil)
    requires c.Valid()
    ensures CivilOfDay(MakeDay(c.year, c.month - 1, c.day)) == c
  {
    hide DayFromYear, IsLeap, YearOfDay;
    var n := MakeDay(c.year, c.month - 1, c.day);
    YearLength(c.year);
    MonthLength(c.year, c.month);
    YearOfDayUnique(n, c.year);
    var m := CivilOfDay(n).month;
    var leap := LeapDays(c.year);
    if m < c.month { MonthsAscend(m + 1, c.month, leap); }
    if c.month < m { MonthsAscend(c.month + 1, m, leap); }
  }

  // ----- Weekdays ------------------------------------------------------------

  /** 0 is Sunday, as in `getUTCDay`; day 0 was a Thursday. */
  function WeekDay(n: int): int {
    (n + 4) % 7
  }

  // ----- The next day --------------------------------------------------------

  lemma NextIsValid(c: Civil)
    requires c.Valid()
    ensures c.Next().Valid()
  {
  }

  lemma NextDayNumber(c: Civil)
    requires c.Valid()
    ensures MakeDay(c.year, c.month - 1, c.day + 1) == MakeDay(c.Next().year, c.Next().month - 1, c.Next().day)
  {
    hide DayFromYear, IsLeap, YearOfDay;
    if c.day < DaysInMonth(c.year, c.month) {
    } else if c.month < 12 {
      MonthLength(c.year, c.month);
      assert c.Next() == Civil(c.year, c.month + 1, 1);
    } else {
      YearLength(c.year);
      assert c.Next() == Civil(c.year + 1, 1, 1);
    }
  }

  /** Asking for day + 1, even past the end of a month or a year, yields the next civil date
      and the next weekday. */
  lemma DayAfter(c: Civil)
    requires c.Valid()
    ensures c.Next().Valid()
    ensures CivilOfDay(MakeDay(c.year, c.month - 1, c.day + 1)) == c.Next()
    ensures WeekDay(MakeDay(c.year, c.month - 1, c.day + 1)) == (WeekDay(MakeDay(c.year, c.month - 1, c.day)) + 1) % 7
  {
    hide CivilOfDay, DaysBefore, DayFromYear;
    NextIsValid(c);
    NextDayNumber(c);
    CivilToDayAndBack(c.Next());
    assert MakeDay(c.year, c.month - 1, c.day + 1) == MakeDay(c.year, c.month - 1, c.day) + 1;
  }

  // ----- Instants and the AST wall clock --------------------------------------

  datatype AstComponents = AstComponents(
    year: int, month: int, day: int, hours: int, minutes: int, dayOfWeek: int)

  /** The AST day number of an instant. */
  function AstDay(t: int): int {
    (t + AST_OFFSET_MS) / MS_PER_DAY
  }

  /** Milliseconds since AST midnight. */
  function AstTimeOfDay(t: int): int {
    (t + AST_OFFSET_MS) % MS_PER_DAY
  }

  function ToAstComponents(t: int): AstComponents {
    var c := CivilOfDay(AstDay(t));
    AstComponents(c.year, c.month, c.day,
                  AstTimeOfDay(t) / MS_PER_HOUR,
                  AstTimeOfDay(t) / MS_PER_MINUTE % 60,
                  WeekDay(AstDay(t)))
  }

  /** `Date.UTC`: a year from 0 to 99 is read as 1900 to 1999. */
  function DateUtc(year: int, month: int, date: int, hours: int, minutes: int, seconds: int): int {
    var y := if 0 <= year <= 99 then 1900 + year else year;
    MakeDay(y, month, date) * MS_PER_DAY
    + hours * MS_PER_HOUR + minutes * MS_PER_MINUTE + seconds * 1000
  }

  function FromAstComponents(year: int, month: int, day: int, hours: int, minutes: int, seconds: int): int {
    DateUtc(year, month - 1, day, hours, minutes, seconds) - AST_OFFSET_MS
  }

  /** The instant `ms` milliseconds after AST midnight of day number `n`. */
  function AstInstant(n: int, ms: int): int {
    n * MS_PER_DAY + ms - AST_OFFSET_MS
  }

  lemma InstantParts(n: int, ms: int)
    requires 0 <= ms < MS_PER_DAY
    ensures AstDay(AstInstant(n, ms)) == n && AstTimeOfDay(AstInstant(n, ms)) == ms
  {
  }

  lemma InstantFromParts(t: int)
    ensures t == AstInstant(AstDay(t), AstTimeOfDay(t)) && 0 <= AstTimeOfDay(t) < MS_PER_DAY
  {
  }

  predicate ValidTime(hours: int, minutes: int, seconds: int) {
    0 <= hours < 24 && 0 <= minutes < 60 && 0 <= seconds < 60
  }

  /** The wall clock is four hours behind UTC, in both directions. */
  lemma FourHoursBehindUtc(year: int, month: int, day: int, hours: int, minutes: int, seconds: int)
    ensures FromAstComponents(year, month, day, hours, minutes, seconds)
         == DateUtc(year, month - 1, day, hours + 4, minutes, seconds)
         == ((MakeDay(if 0 <= year <= 99 then 1900 + year else year, month - 1, day) * 24 + hours + 4) * 3600
             + minutes * 60 + seconds) * 1000
  {
    hide MakeDay;
  }

  lemma ReadsFourHoursBehindUtc(t: int)
    ensures var c := CivilOfDay((t - 14_400_000) / 86_400_000); var ast := ToAstComponents(t);
      && ast == AstComponents(c.year, c.month, c.day, ast.hours, ast.minutes, WeekDay((t - 14_400_000) / 86_400_000))
      && ast.hours == (t / 3_600_000 + 20) % 24 && ast.minutes == t / 60_000 % 60
  {
    hide CivilOfDay, WeekDay;
    HoursAndMinutes(t - 14_400_000);
    FourHoursEarlier(t);
  }

  lemma FourHoursEarlier(t: int)
    ensures (t - 14_400_000) / 3_600_000 % 24 == (t / 3_600_000 + 20) % 24
    ensures (t - 14_400_000) / 60_000 % 60 == t / 60_000 % 60
  {
    HoursEarlier(t);
    MinutesEarlier(t);
    HourOfDay(t / 3_600_000);
    MinuteOfHour(t / 60_000);
  }

  lemma HoursEarlier(t: int)
    ensures (t - 14_400_000) / 3_600_000 == t / 3_600_000 - 4
  {
  }

  lemma MinutesEarlier(t: int)
    ensures (t - 14_400_000) / 60_000 == t / 60_000 - 240
  {
  }

  lemma HourOfDay(h: int)
    ensures (h - 4) % 24 == (h + 20) % 24
  {
  }

  lemma MinuteOfHour(m: int)
    ensures (m - 240) % 60 == m % 60
  {
  }

  lemma HoursAndMinutes(x: int)
    ensures x % 86_400_000 / 3_600_000 == x / 3_600_000 % 24
    ensures x % 86_400_000 / 60_000 % 60 == x / 60_000 % 60
  {
    var d, r := x / 86_400_000, x % 86_400_000;
    assert x == 86_400_000 * d + r;
    assert x / 3_600_000 == 24 * d + r / 3_600_000;
    assert x / 60_000 == 1440 * d + r / 60_000;
  }

  /** `toAstComponents` undoes `fromAstComponents` on a valid date and time
      exactly when the year is not one that `Date.UTC` remaps. */
  lemma AstRoundTrip(c: Civil, hours: int, minutes: int, seconds: int)
    requires c.Valid() && ValidTime(hours, minutes, seconds)
    ensures ToAstComponents(FromAstComponents(c.year, c.month, c.day, hours, minutes, seconds))
         == AstComponents(c.year, c.month, c.day, hours, minutes, WeekDay(MakeDay(c.year, c.month - 1, c.day)))
      <==> !(0 <= c.year <= 99)
  {
    hide MakeDay, CivilOfDay;
    var y := if 0 <= c.year <= 99 then 1900 + c.year else c.year;
    var t := FromAstComponents(c.year, c.month, c.day, hours, minutes, seconds);
    var n := MakeDay(y, c.month - 1, c.day);
    var ms := hours * MS_PER_HOUR + minutes * MS_PER_MINUTE + seconds * 1000;
    assert t == AstInstant(n, ms);
    InstantParts(n, ms);
    if 0 <= c.year <= 99 {
      LateYear(n, y, c);
    } else {
      CivilToDayAndBack(c);
      TimeParts(hours, minutes, seconds);
    }
  }

  lemma TimeParts(hours: int, minutes: int, seconds: int)
    requires ValidTime(hours, minutes, seconds)
    ensures var ms := hours * MS_PER_HOUR + minutes * MS_PER_MINUTE + seconds * 1000;
      0 <= ms < MS_PER_DAY && ms / MS_PER_HOUR == hours && ms / MS_PER_MINUTE % 60 == minutes
  {
    var ms := hours * MS_PER_HOUR + minutes * MS_PER_MINUTE + seconds * 1000;
    assert ms / MS_PER_MINUTE == hours * 60 + minutes;
  }

  /** A remapped date lands in 1900 or later. */
  lemma LateYear(n: int, y: int, c: Civil)
    requires c.Valid() && 1900 <= y && n == MakeDay(y, c.month - 1, c.day)
    ensures 1900 <= CivilOfDay(n).year
  {
    hide DayFromYear, IsLeap, YearOfDay;
    MonthLength(c.year, c.month);
    MonthsAscend(1, c.month, LeapDays(y));
    assert DayFromYear(y) <= n;
    var z := YearOfDay(n);
    if z < y { YearsApart(z + 1, y); }
  }
}
