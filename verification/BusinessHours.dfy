/** The SLA clock: Dominican holidays, business days, the open window from 9:00 to
    16:00 AST, and the effective start of an SLA. */
module BusinessHours {
  import opened Calendar
  import opened Easter

  const START_HOUR: int := 9
  const END_HOUR: int := 16

  const FIXED_HOLIDAYS: seq<MonthDay> := [
    MonthDay(1, 1), MonthDay(1, 21), MonthDay(1, 26), MonthDay(2, 27), MonthDay(5, 1),
    MonthDay(8, 16), MonthDay(9, 24), MonthDay(11, 6), MonthDay(12, 25)]

  // ----- The code's predicates ---------------------------------------------------

  /** What `isDominicanHoliday` tests, on AST wall-clock components. */
  predicate HolidayAt(t: int) {
    var ast := ToAstComponents(t);
    var easter := ComputeEasterSunday(ast.year);
    || MonthDay(ast.month, ast.day) in FIXED_HOLIDAYS
    || MonthDay(ast.month, ast.day) == AddDays(ast.year, easter.month, easter.day, -2)
    || MonthDay(ast.month, ast.day) == AddDays(ast.year, easter.month, easter.day, 60)
  }

  method IsDominicanHoliday(t: int) returns (holiday: bool)
    ensures holiday <==> HolidayAt(t)
  {
    var ast := ToAstComponents(t);
    var today := MonthDay(ast.month, ast.day);
    var i := 0;
    while i < |FIXED_HOLIDAYS|
      invariant 0 <= i <= |FIXED_HOLIDAYS|
      invariant today !in FIXED_HOLIDAYS[..i]
    {
      if today == FIXED_HOLIDAYS[i] { return true; }
      i := i + 1;
    }
    assert FIXED_HOLIDAYS[..i] == FIXED_HOLIDAYS;
    var easter := ComputeEasterSunday(ast.year);
    if today == AddDays(ast.year, easter.month, easter.day, -2) { return true; }
    return today == AddDays(ast.year, easter.month, easter.day, 60);
  }

  predicate IsBusinessDay(t: int) {
    var dayOfWeek := ToAstComponents(t).dayOfWeek;
    dayOfWeek != 0 && dayOfWeek != 6 && !HolidayAt(t)
  }

  predicate IsWithinBusinessHours(t: int) {
    IsBusinessDay(t) &&
    var ast := ToAstComponents(t);
    var totalMinutes := ast.hours * 60 + ast.minutes;
    START_HOUR * 60 <= totalMinutes < END_HOUR * 60
  }

  // ----- The calendar of business days ---------------------------------------------

  /** Whether day number `n` is a holiday: a fixed date of its year, Good Friday or Corpus Christi. */
  predicate HolidayDay(n: int) {
    var y := YearOfDay(n);
    || (exists h :: h in FIXED_HOLIDAYS && n == MakeDay(y, h.month - 1, h.day))
    || n == EasterDay(y) - 2
    || n == EasterDay(y) + 60
  }

  predicate Weekend(n: int) {
    WeekDay(n) == 0 || WeekDay(n) == 6
  }

  predicate BusinessDay(n: int) {
    !Weekend(n) && !HolidayDay(n)
  }

  /** 1 January of year 0, as a day number and as an instant in AST. */
  const YEAR_0_DAY: int := -719_528
  const YEAR_0: int := YEAR_0_DAY * MS_PER_DAY - AST_OFFSET_MS

  /** 1 January of year 100. Before it, from year 0 on, `Date.UTC` remaps the year. */
  const YEAR_100_DAY: int := -683_003
  const YEAR_100: int := YEAR_100_DAY * MS_PER_DAY - AST_OFFSET_MS

  lemma FirstDays(n: int)
    ensures YEAR_0_DAY <= n <==> 0 <= YearOfDay(n)
    ensures YEAR_100_DAY <= n <==> 100 <= YearOfDay(n)
  {
    hide YearOfDay;
    assert DayFromYear(0) == YEAR_0_DAY && DayFromYear(100) == YEAR_100_DAY;
    SameSideOfYear(n, 0);
    SameSideOfYear(n, 100);
  }

  lemma SameSideOfYear(n: int, y: int)
    ensures DayFromYear(y) <= n <==> y <= YearOfDay(n)
  {
    hide DayFromYear, YearOfDay;
    if y <= YearOfDay(n) { YearsApart(y, YearOfDay(n)); } else { YearsApart(YearOfDay(n) + 1, y); }
  }

  lemma InstantDays(t: int)
    ensures YEAR_0 <= t <==> YEAR_0_DAY <= AstDay(t)
    ensures YEAR_100 <= t <==> YEAR_100_DAY <= AstDay(t)
  {
  }

  lemma SameMonthDay(n: int, c: Civil)
    requires c.Valid()
    ensures c.year == YearOfDay(n) ==>
      ((MonthDay(CivilOfDay(n).month, CivilOfDay(n).day) == MonthDay(c.month, c.day))
        <==> n == MakeDay(c.year, c.month - 1, c.day))
  {
    hide DayFromYear, IsLeap, YearOfDay;
    DayToCivilAndBack(n);
    CivilToDayAndBack(c);
  }

  lemma FixedHolidayIsValid(y: int, h: MonthDay)
    requires h in FIXED_HOLIDAYS
    ensures Civil(y, h.month, h.day).Valid()
  {
  }

  lemma FixedHoliday(n: int)
    ensures MonthDay(CivilOfDay(n).month, CivilOfDay(n).day) in FIXED_HOLIDAYS
       <==> exists h :: h in FIXED_HOLIDAYS && n == MakeDay(YearOfDay(n), h.month - 1, h.day)
  {
    hide FIXED_HOLIDAYS, MakeDay, CivilOfDay, YearOfDay;
    var today := MonthDay(CivilOfDay(n).month, CivilOfDay(n).day);
    DayToCivilAndBack(n);
    assert n == MakeDay(YearOfDay(n), today.month - 1, today.day);
    forall h | h in FIXED_HOLIDAYS && n == MakeDay(YearOfDay(n), h.month - 1, h.day)
      ensures today == h
    {
      FixedHolidayIsValid(YearOfDay(n), h);
      SameMonthDay(n, Civil(YearOfDay(n), h.month, h.day));
    }
  }

  /** Two days of one year with the same month and day are the same day. */
  lemma SameDayOfYear(n: int, p: int)
    ensures YearOfDay(n) == YearOfDay(p) ==>
      ((MonthDay(CivilOfDay(n).month, CivilOfDay(n).day) == MonthDay(CivilOfDay(p).month, CivilOfDay(p).day))
        <==> n == p)
  {
    hide DayFromYear, IsLeap, YearOfDay;
    DayToCivilAndBack(n);
    DayToCivilAndBack(p);
  }

  lemma MovableHoliday(n: int, offset: int)
    requires YEAR_100_DAY <= n && (offset == -2 || offset == 60)
    ensures var y := YearOfDay(n); var easter := ComputeEasterSunday(y);
      (MonthDay(CivilOfDay(n).month, CivilOfDay(n).day) == AddDays(y, easter.month, easter.day, offset))
      <==> n == EasterDay(y) + offset
  {
    hide ComputeEasterSunday, EasterDay, AddDays, CivilOfDay, YearOfDay;
    FirstDays(n);
    MovableHolidays(YearOfDay(n));
    AddDaysFromEaster(YearOfDay(n), offset);
    SameDayOfYear(n, EasterDay(YearOfDay(n)) + offset);
  }

  /** From year 100 on, the code's month-and-day tests recognise exactly the holidays. */
  lemma HolidayAtIsHolidayDay(t: int)
    requires YEAR_100 <= t
    ensures HolidayAt(t) <==> HolidayDay(AstDay(t))
  {
    hide ComputeEasterSunday, EasterDay, AddDays, MakeDay, AstDay, CivilOfDay, YearOfDay;
    InstantDays(t);
    CivilYear(AstDay(t));
    FixedHoliday(AstDay(t));
    MovableHoliday(AstDay(t), -2);
    MovableHoliday(AstDay(t), 60);
  }

  lemma CivilYear(n: int)
    ensures CivilOfDay(n).year == YearOfDay(n)
  {
    hide DayFromYear, YearOfDay;
  }

  lemma IsBusinessDayIsBusinessDay(t: int)
    requires YEAR_100 <= t
    ensures IsBusinessDay(t) <==> BusinessDay(AstDay(t))
  {
    hide HolidayAt, HolidayDay, AstDay;
    HolidayAtIsHolidayDay(t);
  }

  lemma WithinHours(t: int)
    requires YEAR_100 <= t
    ensures IsWithinBusinessHours(t)
       <==> BusinessDay(AstDay(t)) && START_HOUR * MS_PER_HOUR <= AstTimeOfDay(t) < END_HOUR * MS_PER_HOUR
  {
    hide IsBusinessDay, BusinessDay, AstDay;
    IsBusinessDayIsBusinessDay(t);
    MinutesOfDay(AstTimeOfDay(t));
  }

  lemma MinutesOfDay(ms: int)
    requires 0 <= ms < MS_PER_DAY
    ensures ms / MS_PER_HOUR * 60 + ms / MS_PER_MINUTE % 60 == ms / MS_PER_MINUTE
    ensures forall h: int {:trigger h * 60} :: h * 60 <= ms / MS_PER_MINUTE <==> h * MS_PER_HOUR <= ms
  {
  }

  /** In UTC: open are the weekdays that are no holidays, from 13:00 up to but not including 20:00. */
  lemma OpenInUtc(t: int)
    requires YEAR_100 <= t
    ensures var n := t / 86_400_000;
      IsWithinBusinessHours(t)
      <==> 1 <= WeekDay(n) <= 5 && !HolidayDay(n) && 13 * 3_600_000 <= t % 86_400_000 < 20 * 3_600_000
  {
    hide IsWithinBusinessHours, HolidayDay;
    WithinHours(t);
    var n, ms := t / 86_400_000, t % 86_400_000;
    if 4 * MS_PER_HOUR <= ms {
      assert t == AstInstant(n, ms - 4 * MS_PER_HOUR);
      InstantParts(n, ms - 4 * MS_PER_HOUR);
    } else {
      assert t == AstInstant(n - 1, ms + 20 * MS_PER_HOUR);
      InstantParts(n - 1, ms + 20 * MS_PER_HOUR);
    }
  }

  // ----- Holidays are at least five days apart ---------------------------------------

  lemma FixedOffset(y: int, h: MonthDay)
    requires h in FIXED_HOLIDAYS
    ensures var k := MakeDay(y, h.month - 1, h.day) - DayFromYear(y);
      k in {0, 20, 25, 57} || k - LeapDays(y) in {120, 227, 266, 309, 358}
  {
    hide DayFromYear, IsLeap;
  }

  lemma OffsetIsFixed(y: int, n: int)
    requires var k := n - DayFromYear(y); k in {0, 20, 25, 57} || k - LeapDays(y) in {120, 227, 266, 309, 358}
    ensures exists h :: h in FIXED_HOLIDAYS && n == MakeDay(y, h.month - 1, h.day)
  {
    hide DayFromYear, IsLeap;
    var k := n - DayFromYear(y);
    var m := k - LeapDays(y);
    var h := if k == 0 then MonthDay(1, 1) else if k == 20 then MonthDay(1, 21) else if k == 25 then MonthDay(1, 26)
             else if k == 57 then MonthDay(2, 27) else if m == 120 then MonthDay(5, 1) else if m == 227 then MonthDay(8, 16)
             else if m == 266 then MonthDay(9, 24) else if m == 309 then MonthDay(11, 6) else MonthDay(12, 25);
    assert h in FIXED_HOLIDAYS && n == MakeDay(y, h.month - 1, h.day);
  }

  /** Where the holidays lie in their year, counted from 1 January; `m` shifts by the leap day from March on. */
  lemma HolidayOffset(n: int)
    requires YEAR_0_DAY <= n
    ensures var y := YearOfDay(n); var k := n - DayFromYear(y); var m := k - LeapDays(y);
      var e := EasterDay(y) - DayFromYear(y) - LeapDays(y);
      && 0 <= y && 80 <= e <= 114
      && (HolidayDay(n) <==> k in {0, 20, 25, 57} || m in {120, 227, 266, 309, 358} || m == e - 2 || m == e + 60)
  {
    hide EasterDay, DayFromYear, IsLeap, YearOfDay, MakeDay, FIXED_HOLIDAYS;
    var y := YearOfDay(n);
    FirstDays(n);
    EasterRange(y);
    if HolidayDay(n) && n != EasterDay(y) - 2 && n != EasterDay(y) + 60 {
      var h :| h in FIXED_HOLIDAYS && n == MakeDay(y, h.month - 1, h.day);
      FixedOffset(y, h);
    }
    var k := n - DayFromYear(y);
    if k in {0, 20, 25, 57} || k - LeapDays(y) in {120, 227, 266, 309, 358} { OffsetIsFixed(y, n); }
  }

  /** Any two distinct holidays, in one year or across years, are at least five days apart. */
  lemma HolidaysApart(n: int, p: int)
    requires YEAR_0_DAY <= n < p < n + 5
    ensures !(HolidayDay(n) && HolidayDay(p))
  {
    hide HolidayDay, EasterDay, DayFromYear, YearOfDay;
    HolidayOffset(n);
    HolidayOffset(p);
    LaterDayLaterYear(n, p);
    if YearOfDay(n) < YearOfDay(p) {
      YearLength(YearOfDay(n));
      YearsApart(YearOfDay(n) + 1, YearOfDay(p));
    }
  }

  lemma LaterDayLaterYear(n: int, p: int)
    requires n <= p
    ensures YearOfDay(n) <= YearOfDay(p)
  {
    hide DayFromYear, YearOfDay;
    if YearOfDay(p) < YearOfDay(n) {
      YearsApart(YearOfDay(p) + 1, YearOfDay(n));
    }
  }

  /** Every four consecutive days contain a business day. */
  lemma FourDays(n: int)
    requires YEAR_0_DAY <= n
    ensures BusinessDay(n) || BusinessDay(n + 1) || BusinessDay(n + 2) || BusinessDay(n + 3)
  {
    hide HolidayDay, WeekDay;
    TwoWeekdays(n);
    HolidaysApart(n, n + 1);
    HolidaysApart(n, n + 3);
    HolidaysApart(n + 1, n + 2);
    HolidaysApart(n + 2, n + 3);
  }

  lemma TwoWeekdays(n: int)
    ensures || (!Weekend(n) && !Weekend(n + 1)) || (!Weekend(n + 1) && !Weekend(n + 2))
            || (!Weekend(n) && !Weekend(n + 3)) || (!Weekend(n + 2) && !Weekend(n + 3))
  {
  }

  // ----- The next business day ---------------------------------------------------------

  /** The first business day after day `n`. */
  function NextBusinessDay(n: int): int {
    if BusinessDay(n + 1) then n + 1
    else if BusinessDay(n + 2) then n + 2
    else if BusinessDay(n + 3) then n + 3
    else n + 4
  }

  lemma NextBusinessDayIsFirst(n: int)
    requires YEAR_0_DAY <= n
    ensures n < NextBusinessDay(n) <= n + 4 && BusinessDay(NextBusinessDay(n))
    ensures forall p :: n < p < NextBusinessDay(n) ==> !BusinessDay(p)
  {
    hide BusinessDay;
    FourDays(n + 1);
  }

  /** The AST day of an instant as `fromAstComponents` rebuilds it. */
  function RebuiltDay(t: int): int {
    var c := CivilOfDay(AstDay(t));
    MakeDay(if 0 <= c.year <= 99 then 1900 + c.year else c.year, c.month - 1, c.day)
  }

  const YEAR_1900_DAY: int := -25_567

  /** The day is rebuilt as it is, except that years 0 to 99 land in 1900 or later. */
  lemma RebuiltDayIs(t: int)
    requires YEAR_0 <= t
    ensures YEAR_100 <= t ==> RebuiltDay(t) == AstDay(t)
    ensures t < YEAR_100 ==> YEAR_1900_DAY <= RebuiltDay(t)
  {
    hide IsLeap, YearOfDay, MonthOfYearDay, DayFromYear, AstDay;
    InstantDays(t);
    FirstDays(AstDay(t));
    DayToCivilAndBack(AstDay(t));
    var c := CivilOfDay(AstDay(t));
    if t < YEAR_100 {
      Day1900();
      YearsApart(1900, 1900 + c.year);
      MonthsAscend(1, c.month, LeapDays(1900 + c.year));
    }
  }

  lemma Day1900()
    ensures DayFromYear(1900) == YEAR_1900_DAY
  {
  }

  lemma NineOClock(t: int, days: int)
    ensures var ast := ToAstComponents(t);
      FromAstComponents(ast.year, ast.month, ast.day + days, START_HOUR, 0, 0)
      == AstInstant(RebuiltDay(t) + days, START_HOUR * MS_PER_HOUR)
  {
    hide DayFromYear, IsLeap, DaysBefore, CivilOfDay, AstDay;
  }

  /** One candidate of the search: 9:00 on day `n`, and how the code moves on from it. */
  lemma Candidate(n: int)
    requires YEAR_100_DAY <= n
    ensures var t := AstInstant(n, START_HOUR * MS_PER_HOUR); var ast := ToAstComponents(t);
      && (IsBusinessDay(t) <==> BusinessDay(n))
      && FromAstComponents(ast.year, ast.month, ast.day + 1, START_HOUR, 0, 0)
         == AstInstant(n + 1, START_HOUR * MS_PER_HOUR)
  {
    hide BusinessDay, IsBusinessDay, RebuiltDay, FromAstComponents, ToAstComponents;
    var t := AstInstant(n, START_HOUR * MS_PER_HOUR);
    InstantParts(n, START_HOUR * MS_PER_HOUR);
    IsBusinessDayIsBusinessDay(t);
    RebuiltDayIs(t);
    NineOClock(t, 1);
  }

  /** The search for the next business day never tries more than four candidates,
      so it never reaches its bound of thirty. */
  method GetNextBusinessDayStart(t: int) returns (candidate: int)
    requires YEAR_0 <= t
    ensures candidate == AstInstant(NextBusinessDay(RebuiltDay(t)), START_HOUR * MS_PER_HOUR)
  {
    hide BusinessDay, IsBusinessDay, RebuiltDay, FromAstComponents, ToAstComponents, NextBusinessDay, AstInstant, AstDay;
    RebuiltDayIs(t);
    InstantDays(t);
    ghost var n := RebuiltDay(t);
    NextBusinessDayIsFirst(n);
    var ast := ToAstComponents(t);
    NineOClock(t, 1);
    candidate := FromAstComponents(ast.year, ast.month, ast.day + 1, START_HOUR, 0, 0);
    var i := 0;
    while i < 30
      invariant 0 <= i <= 3
      invariant candidate == AstInstant(n + 1 + i, START_HOUR * MS_PER_HOUR)
      invariant n + 1 + i <= NextBusinessDay(n)
    {
      Candidate(n + 1 + i);
      if IsBusinessDay(candidate) { return; }
      var c := ToAstComponents(candidate);
      candidate := FromAstComponents(c.year, c.month, c.day + 1, START_HOUR, 0, 0);
      i := i + 1;
    }
    assert false;
  }

  // ----- The effective SLA start ----------------------------------------------------------

  /** What `getEffectiveSlaStartTime` returns. */
  function SlaStart(t: int): int {
    if IsWithinBusinessHours(t) then t
    else if IsBusinessDay(t) && ToAstComponents(t).hours < START_HOUR then
      AstInstant(RebuiltDay(t), START_HOUR * MS_PER_HOUR)
    else
      AstInstant(NextBusinessDay(RebuiltDay(t)), START_HOUR * MS_PER_HOUR)
  }

  /** `r` is the earliest instant at or after `t` that is within business hours. */
  ghost predicate EarliestOpen(t: int, r: int) {
    && t <= r && IsWithinBusinessHours(r)
    && forall u :: t <= u < r ==> !IsWithinBusinessHours(u)
  }

  method GetEffectiveSlaStartTime(t: int) returns (start: int)
    requires YEAR_0 <= t
    ensures start == SlaStart(t)
    ensures EarliestOpen(t, start) <==> IsWithinBusinessHours(t) || YEAR_100 <= t
  {
    hide IsBusinessDay, IsWithinBusinessHours, RebuiltDay, NextBusinessDay, FromAstComponents, ToAstComponents, AstInstant;
    SlaStartIsEarliest(t);
    if IsWithinBusinessHours(t) { return t; }
    var ast := ToAstComponents(t);
    if IsBusinessDay(t) && ast.hours < START_HOUR {
      NineOClock(t, 0);
      return FromAstComponents(ast.year, ast.month, ast.day, START_HOUR, 0, 0);
    }
    start := GetNextBusinessDayStart(t);
  }

  /** 9:00 on business day `opening` is the earliest open instant from `t` when no business day
      lies between and the window of day `AstDay(t)` is not open any more. */
  lemma OpeningIsEarliest(t: int, opening: int)
    requires YEAR_100 <= t && AstDay(t) <= opening && BusinessDay(opening)
    requires forall p :: AstDay(t) < p < opening ==> !BusinessDay(p)
    requires opening == AstDay(t) ==> AstTimeOfDay(t) < START_HOUR * MS_PER_HOUR
    requires opening > AstDay(t) && BusinessDay(AstDay(t)) ==> END_HOUR * MS_PER_HOUR <= AstTimeOfDay(t)
    ensures EarliestOpen(t, AstInstant(opening, START_HOUR * MS_PER_HOUR))
  {
    hide BusinessDay, IsWithinBusinessHours;
    var r := AstInstant(opening, START_HOUR * MS_PER_HOUR);
    InstantFromParts(t);
    InstantParts(opening, START_HOUR * MS_PER_HOUR);
    WithinHours(r);
    forall u | t <= u < r ensures !IsWithinBusinessHours(u) {
      WithinHours(u);
      InstantFromParts(u);
    }
  }

  /** From year 100 on the start is the earliest open instant, and it is at most 89 hours away. */
  lemma SlaStartFromYear100(t: int)
    requires YEAR_100 <= t
    ensures EarliestOpen(t, SlaStart(t)) && SlaStart(t) <= t + 89 * MS_PER_HOUR
  {
    hide BusinessDay, IsBusinessDay, IsWithinBusinessHours, RebuiltDay, NextBusinessDay;
    var n := AstDay(t);
    RebuiltDayIs(t);
    WithinHours(t);
    IsBusinessDayIsBusinessDay(t);
    InstantFromParts(t);
    HoursOfDay(t);
    if IsWithinBusinessHours(t) {
    } else if IsBusinessDay(t) && ToAstComponents(t).hours < START_HOUR {
      OpeningIsEarliest(t, n);
    } else {
      FourDays(n);
      NextBusinessDayIsFirst(n);
      OpeningIsEarliest(t, NextBusinessDay(n));
    }
  }

  lemma HoursOfDay(t: int)
    ensures ToAstComponents(t).hours < START_HOUR <==> AstTimeOfDay(t) < START_HOUR * MS_PER_HOUR
  {
    hide CivilOfDay;
  }

  /** Before year 100 the remapped years send a closed instant past open ones. */
  lemma SlaStartBeforeYear100(t: int)
    requires YEAR_0 <= t < YEAR_100
    ensures EarliestOpen(t, SlaStart(t)) ==> IsWithinBusinessHours(t)
  {
    hide IsWithinBusinessHours, SlaStart;
    SlaStartFromYear100(YEAR_100);
    LateStart(t);
  }

  lemma LateStart(t: int)
    requires YEAR_0 <= t < YEAR_100
    ensures IsWithinBusinessHours(t) || YEAR_100 + 89 * MS_PER_HOUR < SlaStart(t)
  {
    hide IsBusinessDay, IsWithinBusinessHours, RebuiltDay, NextBusinessDay, ToAstComponents;
    RebuiltDayIs(t);
    NextBusinessDayIsFirst(RebuiltDay(t));
  }

  /** The result is the earliest open instant exactly when the submission is already open
      or falls in a year that `Date.UTC` does not remap. */
  lemma SlaStartIsEarliest(t: int)
    requires YEAR_0 <= t
    ensures EarliestOpen(t, SlaStart(t)) <==> IsWithinBusinessHours(t) || YEAR_100 <= t
  {
    hide IsBusinessDay, IsWithinBusinessHours, RebuiltDay, NextBusinessDay, ToAstComponents;
    if YEAR_100 <= t {
      SlaStartFromYear100(t);
    } else {
      SlaStartBeforeYear100(t);
    }
  }

  /** Later submissions never start earlier, open instants are fixed points, and starting
      from a start changes nothing. */
  lemma SlaStartIsMonotone(t: int, u: int)
    requires YEAR_100 <= t <= u
    ensures SlaStart(t) <= SlaStart(u)
    ensures SlaStart(t) == t <==> IsWithinBusinessHours(t)
    ensures SlaStart(SlaStart(t)) == SlaStart(t)
  {
    hide IsBusinessDay, IsWithinBusinessHours, RebuiltDay, NextBusinessDay, ToAstComponents;
    SlaStartFromYear100(t);
    SlaStartFromYear100(u);
  }

  /** The bound of 89 hours is met every year: 16:00 on the Thursday before Easter
      waits until 9:00 on Easter Monday. */
  lemma HolyThursdayWaits(y: int)
    requires 100 <= y
    ensures var t := AstInstant(EasterDay(y) - 3, END_HOUR * MS_PER_HOUR);
      SlaStart(t) == t + 89 * MS_PER_HOUR
  {
    hide EasterDay, YearOfDay, DayFromYear, HolidayDay, RebuiltDay, IsBusinessDay, CivilOfDay;
    var n, ms := EasterDay(y) - 3, END_HOUR * MS_PER_HOUR;
    var t := AstInstant(n, ms);
    InstantParts(n, ms);
    EasterIsLate(y);
    GoodFridayIsHoliday(y);
    ThursdayWeek(n);
    HolidaysApart(n + 1, n + 4);
    WithinHours(t);
    RebuiltDayIs(t);
    assert ToAstComponents(t).hours == END_HOUR;
  }

  lemma EasterIsLate(y: int)
    requires 100 <= y
    ensures YEAR_100_DAY <= EasterDay(y) - 3 && WeekDay(EasterDay(y) - 2) == 5
  {
    hide EasterDay, YearOfDay;
    EasterRange(y);
    MovableHolidays(y);
    SameSideOfYear(EasterDay(y) - 3, y);
    FirstDays(EasterDay(y) - 3);
  }

  lemma GoodFridayIsHoliday(y: int)
    requires 100 <= y
    ensures HolidayDay(EasterDay(y) - 2)
  {
    hide EasterDay, YearOfDay, FIXED_HOLIDAYS;
    MovableHolidays(y);
  }

  lemma ThursdayWeek(n: int)
    requires WeekDay(n + 1) == 5
    ensures WeekDay(n + 2) == 6 && WeekDay(n + 3) == 0 && WeekDay(n + 4) == 1
  {
  }
}
