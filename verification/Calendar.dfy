/**
 UTC calendar arithmetic after section 21.4.1 of ECMA-262, and the end of a billing interval
 computed from it.

 Instants are whole milliseconds since 1970-01-01T00:00:00Z. Months are counted through from
 year 0, so month `12 * y + m` is month `m` (0 to 11) of year `y`. Dafny's division by a positive
 number rounds down, which is what the standard's floor and modulo do.
 */
module Calendar {
  import opened Common

  const MAX_TIME := 8_640_000_000_000_000

  // ----- months and days -----

  predicate IsLeap(year: int) {
    year % 4 == 0 && (year % 100 != 0 || year % 400 == 0)
  }

  function MonthLength(month: int, leap: bool): (days: nat)
    ensures 28 <= days <= 31
  {
    if month == 1 then (if leap then 29 else 28)
    else if month == 3 || month == 5 || month == 8 || month == 10 then 30
    else 31
  }

  function LastDayOf(month: int): (days: nat)
    ensures 28 <= days <= 31
  {
    MonthLength(month % 12, IsLeap(month / 12))
  }

  /** The day a month begins on, counted month by month from January 1970. */
  function FirstDayOf(month: int): int
    decreases if month >= 23640 then month - 23640 else 23640 - month
  {
    if month == 23640 then 0
    else if month > 23640 then FirstDayOf(month - 1) + LastDayOf(month - 1)
    else FirstDayOf(month + 1) - LastDayOf(month)
  }

  lemma NextMonth(month: int)
    ensures FirstDayOf(month + 1) == FirstDayOf(month) + LastDayOf(month)
  {
  }

  predicate FallsIn(day: int, month: int) {
    FirstDayOf(month) <= day < FirstDayOf(month) + LastDayOf(month)
  }

  function MonthUp(day: int, month: int): (found: int)
    requires FirstDayOf(month) <= day
    ensures FallsIn(day, found)
    decreases day - FirstDayOf(month)
  {
    NextMonth(month);
    if day < FirstDayOf(month) + LastDayOf(month) then month else MonthUp(day, month + 1)
  }

  function MonthDown(day: int, month: int): (found: int)
    requires day < FirstDayOf(month)
    ensures FallsIn(day, found)
    decreases FirstDayOf(month) - day
  {
    NextMonth(month - 1);
    if FirstDayOf(month - 1) <= day then month - 1 else MonthDown(day, month - 1)
  }

  function MonthOfDay(day: int): (month: int)
    ensures FallsIn(day, month)
  {
    if FirstDayOf(23640) <= day then MonthUp(day, 23640) else MonthDown(day, 23640)
  }

  function DateOfDay(day: int): (date: int)
    ensures 1 <= date <= LastDayOf(MonthOfDay(day))
  {
    day - FirstDayOf(MonthOfDay(day)) + 1
  }

  function MakeDay(year: int, month: int, date: int): int {
    FirstDayOf(12 * year + month) + date - 1
  }

  lemma {:induction false} LaterMonthsStartLater(a: int, b: int)
    requires a < b
    ensures FirstDayOf(a) + LastDayOf(a) <= FirstDayOf(b)
    decreases b - a
  {
    NextMonth(b - 1);
    if a + 1 < b {
      LaterMonthsStartLater(a, b - 1);
    }
  }

  lemma MonthIsUnique(day: int, a: int, b: int)
    requires FallsIn(day, a) && FallsIn(day, b)
    ensures a == b
  {
    if a < b {
      LaterMonthsStartLater(a, b);
    } else if b < a {
      LaterMonthsStartLater(b, a);
    }
  }

  /** Every date of the calendar is a day, and reading that day gives the date back. */
  lemma DateRoundTrip(month: int, date: int)
    requires 1 <= date <= LastDayOf(month)
    ensures MonthOfDay(FirstDayOf(month) + date - 1) == month && DateOfDay(FirstDayOf(month) + date - 1) == date
  {
    var day := FirstDayOf(month) + date - 1;
    MonthIsUnique(day, month, MonthOfDay(day));
  }

  // ----- the standard's own formulas -----

  function DaysInYear(year: int): int {
    if IsLeap(year) then 366 else 365
  }

  /** `DayFromYear`, the closed form for the day a year begins on. */
  function DayFromYear(year: int): int {
    365 * (year - 1970) + (year - 1969) / 4 - (year - 1901) / 100 + (year - 1601) / 400
  }

  lemma EveryFourth(year: int)
    ensures (year - 1968) / 4 - (year - 1969) / 4 == if year % 4 == 0 then 1 else 0
  {
  }

  lemma EveryHundredth(year: int)
    ensures (year - 1900) / 100 - (year - 1901) / 100 == if year % 100 == 0 then 1 else 0
  {
  }

  lemma EveryFourHundredth(year: int)
    ensures (year - 1600) / 400 - (year - 1601) / 400 == if year % 400 == 0 then 1 else 0
  {
  }

  /** A year divisible by 400 is divisible by 100, and one divisible by 100 by 4. */
  lemma CenturiesAreFourths(year: int)
    ensures year % 400 == 0 ==> year % 100 == 0
    ensures year % 100 == 0 ==> year % 4 == 0
  {
  }

  lemma FormulaYearLength(year: int)
    ensures DayFromYear(year + 1) == DayFromYear(year) + DaysInYear(year)
  {
    EveryFourth(year);
    EveryHundredth(year);
    EveryFourHundredth(year);
    CenturiesAreFourths(year);
  }

  /** Days of the year before each month, the table behind `MonthFromTime`. */
  function DaysBefore(month: nat, leap: bool): nat {
    if month == 0 then 0 else DaysBefore(month - 1, leap) + MonthLength(month - 1, leap)
  }

  lemma TwelveMonthsAreAYear(leap: bool)
    ensures DaysBefore(12, leap) == if leap then 366 else 365
  {
    assert DaysBefore(1, leap) == 31;
    assert DaysBefore(2, leap) == 59 + if leap then 1 else 0;
    assert DaysBefore(4, leap) == DaysBefore(2, leap) + 61;
    assert DaysBefore(6, leap) == DaysBefore(4, leap) + 61;
    assert DaysBefore(8, leap) == DaysBefore(6, leap) + 62;
    assert DaysBefore(10, leap) == DaysBefore(8, leap) + 61;
    assert DaysBefore(12, leap) == DaysBefore(10, leap) + 61;
  }

  lemma {:induction false} MonthStartsWithinItsYear(year: int, month: nat)
    requires month <= 12
    ensures FirstDayOf(12 * year + month) == FirstDayOf(12 * year) + DaysBefore(month, IsLeap(year))
  {
    if month > 0 {
      MonthStartsWithinItsYear(year, month - 1);
      NextMonth(12 * year + month - 1);
      assert (12 * year + month - 1) / 12 == year && (12 * year + month - 1) % 12 == month - 1;
    }
  }

  lemma YearLength(year: int)
    ensures FirstDayOf(12 * (year + 1)) == FirstDayOf(12 * year) + DaysInYear(year)
  {
    MonthStartsWithinItsYear(year, 12);
    TwelveMonthsAreAYear(IsLeap(year));
    assert 12 * year + 12 == 12 * (year + 1);
  }

  /** Counting months from 1970 and the standard's closed form agree on every year. */
  lemma {:induction false} YearsStartByTheFormula(year: int)
    ensures FirstDayOf(12 * year) == DayFromYear(year)
    decreases if year >= 1970 then year - 1970 else 1970 - year
  {
    if year > 1970 {
      YearsStartByTheFormula(year - 1);
      YearLength(year - 1);
      FormulaYearLength(year - 1);
    } else if year < 1970 {
      YearsStartByTheFormula(year + 1);
      YearLength(year);
      FormulaYearLength(year);
    }
  }

  /** A month lies inside its own year. */
  lemma MonthWithinYear(year: int, month: nat)
    requires month < 12
    ensures FirstDayOf(12 * year) <= FirstDayOf(12 * year + month)
    ensures FirstDayOf(12 * year + month) + LastDayOf(12 * year + month) <= FirstDayOf(12 * (year + 1))
  {
    NextMonth(12 * year + month);
    if month < 11 {
      LaterMonthsStartLater(12 * year + month, 12 * (year + 1));
    }
    if month > 0 {
      LaterMonthsStartLater(12 * year, 12 * year + month);
    }
  }

  /** So the year read off a day is the one section 21.4.1.8 defines. */
  lemma YearsAreReadByTheFormula(day: int)
    ensures DayFromYear(MonthOfDay(day) / 12) <= day < DayFromYear(MonthOfDay(day) / 12 + 1)
  {
    var year, month := MonthOfDay(day) / 12, MonthOfDay(day) % 12;
    MonthWithinYear(year, month);
    YearsStartByTheFormula(year);
    YearsStartByTheFormula(year + 1);
  }

  /** And the month and date are the ones sections 21.4.1.11 and 21.4.1.12 define. */
  lemma MonthsAreReadByTheTable(day: int)
    ensures var year, month := MonthOfDay(day) / 12, MonthOfDay(day) % 12;
            && DaysBefore(month, IsLeap(year)) <= day - FirstDayOf(12 * year) < DaysBefore(month + 1, IsLeap(year))
            && DateOfDay(day) == day - FirstDayOf(12 * year) - DaysBefore(month, IsLeap(year)) + 1
  {
    var year, month := MonthOfDay(day) / 12, MonthOfDay(day) % 12;
    MonthStartsWithinItsYear(year, month);
    assert MonthOfDay(day) == 12 * year + month;
    assert DaysBefore(month + 1, IsLeap(year)) == DaysBefore(month, IsLeap(year)) + LastDayOf(MonthOfDay(day));
  }

  // ----- Date.UTC -----

  /** A two-digit year means the twentieth century. */
  function FullYear(year: int): int {
    if 0 <= year <= 99 then 1900 + year else year
  }

  function TimeClip(time: int): Option<int> {
    if -MAX_TIME <= time <= MAX_TIME then Some(time) else None
  }

  function DateUtc(year: int, month: int, date: int, timeWithinDay: int): Option<int> {
    TimeClip(MakeDay(FullYear(year), month, date) * 86_400_000 + timeWithinDay)
  }

  function Day(time: int): int {
    time / 86_400_000
  }

  function TimeWithinDay(time: int): int {
    time % 86_400_000
  }

  function MonthOf(time: int): int {
    MonthOfDay(Day(time))
  }

  function DateOf(time: int): (date: int)
    ensures 1 <= date <= LastDayOf(MonthOf(time))
  {
    DateOfDay(Day(time))
  }

  lemma DayOfTime(day: int, rest: int)
    requires 0 <= rest < 86_400_000
    ensures Day(day * 86_400_000 + rest) == day && TimeWithinDay(day * 86_400_000 + rest) == rest
  {
  }

  /** An instant is its month, its date and its time of day. */
  lemma TimeIsItsDate(time: int)
    ensures time == (FirstDayOf(MonthOf(time)) + DateOf(time) - 1) * 86_400_000 + TimeWithinDay(time)
  {
  }

  // ----- the end of an interval -----

  datatype Interval = DayInterval | WeekInterval | MonthInterval | YearInterval

  datatype InvalidInterval = BadCount | OutOfRange

  function Min(a: int, b: int): int {
    if a < b then a else b
  }

  function Clipped(time: Option<int>): Result<int, InvalidInterval> {
    if time.Some? then Ok(time.value) else Err(OutOfRange)
  }

  /** The same date and time of day, or the last day, of the month `months` later. */
  function ShiftDate(start: int, date: int, rest: int, months: int): Result<int, InvalidInterval> {
    var month := start % 12 + months;
    var targetYear := start / 12 + month / 12;
    var targetMonth := (month % 12 + 12) % 12;
    var last := DateUtc(targetYear, targetMonth + 1, 0, 0);
    if last.None? then Err(OutOfRange)
    else Clipped(DateUtc(targetYear, targetMonth, Min(date, DateOf(last.value)), rest))
  }

  function ShiftMonths(from: int, months: int): Result<int, InvalidInterval> {
    ShiftDate(MonthOf(from), DateOf(from), TimeWithinDay(from), months)
  }

  /** `advanceInterval`. An instant outside the range of a `Date` is an invalid date, not an answer. */
  function AdvanceInterval(from: int, interval: Interval, count: int): Result<int, InvalidInterval> {
    if count <= 0 then Err(BadCount)
    else
      match interval
      case DayInterval => Clipped(TimeClip(from + count * 86_400_000))
      case WeekInterval => Clipped(TimeClip(from + 7 * count * 86_400_000))
      case MonthInterval => ShiftMonths(from, count)
      case YearInterval => ShiftMonths(from, count * 12)
  }

  /** The month `Date.UTC` makes of the month asked for. */
  function ActualMonth(asked: int): int {
    12 * FullYear(asked / 12) + asked % 12
  }

  /** What a shift comes to, in the words of the calendar. */
  predicate Lands(from: int, end: int, month: int) {
    && MonthOf(end) == month
    && DateOf(end) == Min(DateOf(from), LastDayOf(month))
    && TimeWithinDay(end) == TimeWithinDay(from)
  }

  /** Day zero of the next month is the last day of this one. */
  lemma DayZero(month: int)
    ensures DateOf((FirstDayOf(month + 1) - 1) * 86_400_000) == LastDayOf(month)
  {
    var day := FirstDayOf(month) + LastDayOf(month) - 1;
    NextMonth(month);
    DateRoundTrip(month, LastDayOf(month));
    DayOfTime(day, 0);
    assert Day((FirstDayOf(month + 1) - 1) * 86_400_000) == day;
  }

  lemma SplitMonth(start: int, months: int)
    ensures var month := start % 12 + months;
            start / 12 + month / 12 == (start + months) / 12 && (month % 12 + 12) % 12 == (start + months) % 12
  {
  }

  /** The three calls of `Date.UTC` and `getUTCDate`, with the month named as one number. */
  lemma UtcOfMonth(asked: int, date: int, rest: int)
    ensures DateUtc(asked / 12, asked % 12, date, rest)
         == TimeClip((FirstDayOf(ActualMonth(asked)) + date - 1) * 86_400_000 + rest)
    ensures DateUtc(asked / 12, asked % 12 + 1, 0, 0) == TimeClip((FirstDayOf(ActualMonth(asked) + 1) - 1) * 86_400_000)
  {
  }

  /** The shift with the month asked for as one number. */
  function ByMonth(asked: int, date: int, rest: int): Result<int, InvalidInterval> {
    var last := DateUtc(asked / 12, asked % 12 + 1, 0, 0);
    if last.None? then Err(OutOfRange)
    else Clipped(DateUtc(asked / 12, asked % 12, Min(date, DateOf(last.value)), rest))
  }

  lemma ShiftIsByMonth(start: int, date: int, rest: int, months: int)
    ensures ShiftDate(start, date, rest, months) == ByMonth(start + months, date, rest)
  {
    SplitMonth(start, months);
  }

  /** Where a date of a month is, and that it is there exactly within the range of dates. */
  function Placed(month: int, date: int, rest: int): Result<int, InvalidInterval> {
    if TimeClip((FirstDayOf(month + 1) - 1) * 86_400_000).None? then Err(OutOfRange)
    else Clipped(TimeClip((FirstDayOf(month) + Min(date, LastDayOf(month)) - 1) * 86_400_000 + rest))
  }

  lemma ByMonthIsPlaced(asked: int, date: int, rest: int, month: int)
    requires month == ActualMonth(asked)
    ensures ByMonth(asked, date, rest) == Placed(month, date, rest)
  {
    DayZero(month);
    UtcOfMonth(asked, Min(date, LastDayOf(month)), rest);
  }

  lemma ShiftIsPlaced(start: int, date: int, rest: int, months: int, month: int)
    requires month == ActualMonth(start + months)
    ensures ShiftDate(start, date, rest, months) == Placed(month, date, rest)
  {
    ShiftIsByMonth(start, date, rest, months);
    ByMonthIsPlaced(start + months, date, rest, month);
  }

  lemma ShiftDateComputes(start: int, date: int, rest: int, months: int)
    requires ShiftDate(start, date, rest, months).Ok?
    ensures var month := ActualMonth(start + months);
            ShiftDate(start, date, rest, months).value
            == (FirstDayOf(month) + Min(date, LastDayOf(month)) - 1) * 86_400_000 + rest
  {
    ShiftIsPlaced(start, date, rest, months, ActualMonth(start + months));
  }

  lemma ShiftComputes(from: int, months: int)
    requires ShiftMonths(from, months).Ok?
    ensures var month := ActualMonth(MonthOf(from) + months);
            ShiftMonths(from, months).value
            == (FirstDayOf(month) + Min(DateOf(from), LastDayOf(month)) - 1) * 86_400_000 + TimeWithinDay(from)
  {
    ShiftDateComputes(MonthOf(from), DateOf(from), TimeWithinDay(from), months);
  }

  lemma ShiftLands(from: int, months: int)
    requires ShiftMonths(from, months).Ok?
    ensures Lands(from, ShiftMonths(from, months).value, ActualMonth(MonthOf(from) + months))
  {
    var month := ActualMonth(MonthOf(from) + months);
    var date := Min(DateOf(from), LastDayOf(month));
    ShiftComputes(from, months);
    DateRoundTrip(month, date);
    DayOfTime(FirstDayOf(month) + date - 1, TimeWithinDay(from));
  }

  lemma ShiftMovesForward(from: int, months: int)
    requires months > 0 && ShiftMonths(from, months).Ok?
    ensures ShiftMonths(from, months).value > from
  {
    var end := ShiftMonths(from, months).value;
    ShiftLands(from, months);
    LaterMonthsStartLater(MonthOf(from), MonthOf(end));
    TimeIsItsDate(from);
    TimeIsItsDate(end);
  }

  /** Every interval ends strictly after it starts, two-digit years included. */
  lemma EndIsAfterStart(from: int, interval: Interval, count: int)
    requires AdvanceInterval(from, interval, count).Ok?
    ensures AdvanceInterval(from, interval, count).value > from
  {
    match interval
    case DayInterval =>
    case WeekInterval =>
    case MonthInterval => ShiftMovesForward(from, count);
    case YearInterval => ShiftMovesForward(from, count * 12);
  }

  /** The end falls in the month asked for exactly when that month's year is not 0 to 99. */
  lemma LandsInTheAskedMonthExactlyWhen(from: int, months: int)
    requires ShiftMonths(from, months).Ok?
    ensures MonthOf(ShiftMonths(from, months).value) == MonthOf(from) + months
            <==> !(0 <= (MonthOf(from) + months) / 12 <= 99)
    ensures DateOf(ShiftMonths(from, months).value)
         == Min(DateOf(from), LastDayOf(MonthOf(ShiftMonths(from, months).value)))
    ensures TimeWithinDay(ShiftMonths(from, months).value) == TimeWithinDay(from)
  {
    ShiftLands(from, months);
  }

  /** One month after an instant in January of year 1 is in February 1901. */
  lemma TwoDigitYearsLeaveTheirCentury(from: int)
    requires MonthOf(from) == 12 && ShiftMonths(from, 1).Ok?
    ensures MonthOf(ShiftMonths(from, 1).value) == 12 * 1901 + 1
  {
    ShiftLands(from, 1);
  }

  /** The first two months of a year, when the first is the start of the year. */
  lemma FebruaryStarts(year: int)
    ensures FirstDayOf(12 * year + 1) == DayFromYear(year) + 31
    ensures DayFromYear(year) + 59 <= FirstDayOf(12 * year + 2) <= DayFromYear(year) + 60
  {
    YearsStartByTheFormula(year);
    MonthStartsWithinItsYear(year, 1);
    MonthStartsWithinItsYear(year, 2);
    assert DaysBefore(1, IsLeap(year)) == 31;
  }

  lemma JanuaryIsRead(year: int, from: int)
    requires from == DayFromYear(year) * 86_400_000
    ensures MonthOf(from) == 12 * year && DateOf(from) == 1 && TimeWithinDay(from) == 0
  {
    YearsStartByTheFormula(year);
    DateRoundTrip(12 * year, 1);
    DayOfTime(DayFromYear(year), 0);
  }

  lemma NearDays(day: int)
    requires -40_000 <= day <= 40_000
    ensures TimeClip(day * 86_400_000) == Some(day * 86_400_000)
  {
  }

  /** Dates near the epoch are within the range. */
  lemma NearMonth(month: int, date: int)
    requires -30_000 <= FirstDayOf(month) <= 30_000 && 1 <= date <= 31
    ensures Placed(month, date, 0) == Ok((FirstDayOf(month) + Min(date, LastDayOf(month)) - 1) * 86_400_000)
  {
    NextMonth(month);
    PlacedAt(month, date, FirstDayOf(month + 1) - 1, FirstDayOf(month) + Min(date, LastDayOf(month)) - 1);
  }

  lemma PlacedAt(month: int, date: int, last: int, day: int)
    requires last == FirstDayOf(month + 1) - 1 && day == FirstDayOf(month) + Min(date, LastDayOf(month)) - 1
    requires -40_000 <= last <= 40_000 && -40_000 <= day <= 40_000
    ensures Placed(month, date, 0) == Ok(day * 86_400_000)
  {
    NearDays(last);
    NearDays(day);
  }

  lemma TwentiethCentury(year: int)
    requires 1900 <= year <= 1999
    ensures -30_000 <= DayFromYear(year) <= 12_000
  {
  }

  /** The first of January of a year of the first century, one month on. */
  lemma JanuaryShifts(year: int, start: int)
    requires 1 <= year <= 99 && start == 12 * year
    ensures ShiftDate(start, 1, 0, 1) == Ok((DayFromYear(1900 + year) + 31) * 86_400_000)
  {
    FebruaryStarts(1900 + year);
    TwentiethCentury(1900 + year);
    NearMonth(12 * (1900 + year) + 1, 1);
    ShiftIsPlaced(start, 1, 0, 1, 12 * (1900 + year) + 1);
  }

  lemma YearOneAsDays(year: int)
    requires year == 1
    ensures DayFromYear(year) == -719_162 && DayFromYear(1900 + year) == -25_202
  {
  }

  /** Such an instant: a month after the first of January of year 1 comes the first of February 1901. */
  lemma YearOneHasSuchAnInstant() returns (from: int)
    ensures from == -62_135_596_800_000 && MonthOf(from) == 12
    ensures ShiftMonths(from, 1) == Ok(-2_174_774_400_000)
  {
    var year := 1;
    YearOneAsDays(year);
    from := DayFromYear(year) * 86_400_000;
    JanuaryIsRead(year, from);
    JanuaryShifts(year, 12 * year);
  }

  /** Weeks are seven days, and both keep the time of day. */
  lemma WeeksAreExact(from: int, count: int)
    requires count > 0 && AdvanceInterval(from, WeekInterval, count).Ok?
    ensures AdvanceInterval(from, WeekInterval, count) == AdvanceInterval(from, DayInterval, 7 * count)
    ensures Day(AdvanceInterval(from, WeekInterval, count).value) == Day(from) + 7 * count
    ensures TimeWithinDay(AdvanceInterval(from, WeekInterval, count).value) == TimeWithinDay(from)
  {
    assert from + 7 * count * 86_400_000 == (Day(from) + 7 * count) * 86_400_000 + TimeWithinDay(from);
    DayOfTime(Day(from) + 7 * count, TimeWithinDay(from));
  }

  // ----- chained renewals -----

  /** Where `n` renewals in a row end, each starting where the one before it ended. */
  function Renewed(from: int, interval: Interval, count: int, n: nat): Result<int, InvalidInterval> {
    if n == 0 then Ok(from)
    else
      var earlier := Renewed(from, interval, count, n - 1);
      if earlier.Err? then earlier else AdvanceInterval(earlier.value, interval, count)
  }

  predicate CountsMonths(interval: Interval) {
    interval.MonthInterval? || interval.YearInterval?
  }

  predicate KeepsBillingDay(from: int, end: int) {
    && DateOf(end) <= DateOf(from)
    && (DateOf(from) <= 28 ==> DateOf(end) == DateOf(from))
    && TimeWithinDay(end) == TimeWithinDay(from)
  }

  lemma OneRenewal(from: int, interval: Interval, count: int)
    requires CountsMonths(interval) && AdvanceInterval(from, interval, count).Ok?
    ensures KeepsBillingDay(from, AdvanceInterval(from, interval, count).value)
  {
    ShiftLands(from, if interval.MonthInterval? then count else count * 12);
  }

  /** Over any chain of renewals the day of the month never increases, and a day up to 28 never moves. */
  lemma {:induction false} BillingDayNeverIncreases(from: int, interval: Interval, count: int, n: nat)
    requires CountsMonths(interval) && Renewed(from, interval, count, n).Ok?
    ensures KeepsBillingDay(from, Renewed(from, interval, count, n).value)
  {
    if n > 0 {
      BillingDayNeverIncreases(from, interval, count, n - 1);
      OneRenewal(Renewed(from, interval, count, n - 1).value, interval, count);
    }
  }

  /** A year is twelve months. */
  lemma YearIsTwelveMonths(from: int, count: int)
    ensures AdvanceInterval(from, YearInterval, count) == AdvanceInterval(from, MonthInterval, 12 * count)
  {
    assert count * 12 == 12 * count;
  }

  /** A month of one of the years 0 to 99. */
  predicate TwoDigit(month: int) {
    0 <= month / 12 <= 99
  }

  /** Shifting twice asks for the month that shifting once does, unless only the month in between is moved. */
  lemma MonthsAgreeExactlyWhen(asked: int, months: int)
    ensures ActualMonth(ActualMonth(asked) + months) == ActualMonth(asked + months)
       <==> !TwoDigit(asked) || TwoDigit(asked + months)
  {
  }

  /**
   Two shifts in a row end where the combined shift would exactly when the month in between was not
   moved to another century alone, and was long enough for the day or no shorter than the last month.
   */
  lemma ChainingKeepsTheDayExactlyWhen(from: int, first: int, second: int)
    requires ShiftMonths(from, first).Ok? && ShiftMonths(ShiftMonths(from, first).value, second).Ok?
    requires ShiftMonths(from, first + second).Ok?
    ensures var between, last := MonthOf(from) + first, MonthOf(from) + first + second;
            (ShiftMonths(ShiftMonths(from, first).value, second).value == ShiftMonths(from, first + second).value)
            == ((!TwoDigit(between) || TwoDigit(last))
                && (DateOf(from) <= LastDayOf(ActualMonth(between))
                    || LastDayOf(ActualMonth(last)) <= LastDayOf(ActualMonth(between))))
  {
    var once := ShiftMonths(from, first).value;
    LandsThrice(from, once, first, second);
    LandTogetherExactlyWhen(from, once, ShiftMonths(once, second).value, ShiftMonths(from, first + second).value,
                            MonthOf(from) + first, second);
  }

  lemma DateIsRead(month: int, date: int, from: int)
    requires 1 <= date <= LastDayOf(month) && from == (FirstDayOf(month) + date - 1) * 86_400_000
    ensures MonthOf(from) == month && DateOf(from) == date && TimeWithinDay(from) == 0
  {
    DateRoundTrip(month, date);
    DayOfTime(FirstDayOf(month) + date - 1, 0);
  }

  /** Reading a date and shifting it, near the epoch. */
  lemma DateShifts(month: int, date: int, months: int, target: int, from: int)
    requires 1 <= date <= LastDayOf(month) && from == (FirstDayOf(month) + date - 1) * 86_400_000
    requires target == ActualMonth(month + months) && -10_000 <= FirstDayOf(target) <= 10_000
    ensures ShiftMonths(from, months) == Ok((FirstDayOf(target) + Min(date, LastDayOf(target)) - 1) * 86_400_000)
  {
    DateIsRead(month, date, from);
    NearMonth(target, date);
    ShiftIsPlaced(month, date, 0, months, target);
  }

  lemma FirstMonths(january: int)
    requires january == 23640
    ensures LastDayOf(january) == 31 && LastDayOf(january + 1) == 28 && LastDayOf(january + 2) == 31
    ensures FirstDayOf(january) == 0 && FirstDayOf(january + 1) == 31 && FirstDayOf(january + 2) == 59
    ensures ActualMonth(january + 1) == january + 1 && ActualMonth(january + 2) == january + 2
  {
    NextMonth(january);
    NextMonth(january + 1);
  }

  lemma DriftsFrom(january: int)
    requires LastDayOf(january) == 31 && LastDayOf(january + 1) == 28 && LastDayOf(january + 2) == 31
    requires FirstDayOf(january) == 0 && FirstDayOf(january + 1) == 31 && FirstDayOf(january + 2) == 59
    requires ActualMonth(january + 1) == january + 1 && ActualMonth(january + 2) == january + 2
    ensures ShiftMonths(30 * 86_400_000, 1) == Ok(58 * 86_400_000)
    ensures ShiftMonths(58 * 86_400_000, 1) == Ok(86 * 86_400_000)
    ensures ShiftMonths(30 * 86_400_000, 2) == Ok(89 * 86_400_000)
  {
    DateShifts(january, 31, 1, january + 1, 30 * 86_400_000);
    DateShifts(january + 1, 28, 1, january + 2, 58 * 86_400_000);
    DateShifts(january, 31, 2, january + 2, 30 * 86_400_000);
  }

  /** From 31 January 1970, a month and then a month is 28 March; two months at once is 31 March. */
  lemma MonthEndsDrift()
    ensures ShiftMonths(30 * 86_400_000, 1) == Ok(58 * 86_400_000)
    ensures ShiftMonths(58 * 86_400_000, 1) == Ok(86 * 86_400_000)
    ensures ShiftMonths(30 * 86_400_000, 2) == Ok(89 * 86_400_000)
  {
    var january := 23640;
    FirstMonths(january);
    DriftsFrom(january);
  }

  lemma LandsIn(from: int, months: int, asked: int)
    requires ShiftMonths(from, months).Ok? && asked == MonthOf(from) + months
    ensures Lands(from, ShiftMonths(from, months).value, ActualMonth(asked))
  {
    ShiftLands(from, months);
  }

  lemma LandsTwice(from: int, once: int, first: int, second: int)
    requires ShiftMonths(from, first) == Ok(once) && ShiftMonths(once, second).Ok?
    ensures Lands(from, once, ActualMonth(MonthOf(from) + first))
    ensures Lands(once, ShiftMonths(once, second).value, ActualMonth(ActualMonth(MonthOf(from) + first) + second))
  {
    ShiftLands(from, first);
    ShiftLands(once, second);
  }

  lemma LandsThrice(from: int, once: int, first: int, second: int)
    requires ShiftMonths(from, first) == Ok(once) && ShiftMonths(once, second).Ok?
             && ShiftMonths(from, first + second).Ok?
    ensures var between := MonthOf(from) + first;
            && Lands(from, once, ActualMonth(between))
            && Lands(once, ShiftMonths(once, second).value, ActualMonth(ActualMonth(between) + second))
            && Lands(from, ShiftMonths(from, first + second).value, ActualMonth(between + second))
  {
    LandsTwice(from, once, first, second);
    LandsIn(from, first + second, MonthOf(from) + first + second);
  }

  lemma ClampTwice(date: int, first: int, second: int)
    ensures Min(Min(date, first), second) == Min(date, second) <==> date <= first || second <= first
  {
  }

  lemma SameInstantExactlyWhen(a: int, b: int)
    ensures a == b <==> MonthOf(a) == MonthOf(b) && DateOf(a) == DateOf(b) && TimeWithinDay(a) == TimeWithinDay(b)
  {
    TimeIsItsDate(a);
    TimeIsItsDate(b);
  }

  lemma LandTogetherExactlyWhen(from: int, once: int, twice: int, direct: int, between: int, months: int)
    requires Lands(from, once, ActualMonth(between)) && Lands(once, twice, ActualMonth(ActualMonth(between) + months))
    requires Lands(from, direct, ActualMonth(between + months))
    ensures (twice == direct)
         == ((!TwoDigit(between) || TwoDigit(between + months))
             && (DateOf(from) <= LastDayOf(ActualMonth(between))
                 || LastDayOf(ActualMonth(between + months)) <= LastDayOf(ActualMonth(between))))
  {
    MonthsAgreeExactlyWhen(between, months);
    SameInstantExactlyWhen(twice, direct);
    ClampTwice(DateOf(from), LastDayOf(ActualMonth(between)), LastDayOf(ActualMonth(between + months)));
  }
}
