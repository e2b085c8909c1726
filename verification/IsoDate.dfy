/**
 * The calendar behind Date.prototype.toISOString: milliseconds since 1970 and the proleptic
 * Gregorian year, month, day and time of day, as ECMA-262 defines them under "Time Values".
 */
module IsoDate {
  import opened Numerals

  const MS_PER_DAY: int := 86_400_000

  /** The farthest a Date reaches from 1970 in either direction. */
  const LAST_TIME: int := 8_640_000_000_000_000

  predicate IsTimeValue(time: int) {
    -LAST_TIME <= time <= LAST_TIME
  }

  // -------------------------------------------------------------- years

  predicate IsLeap(year: int) {
    year % 4 == 0 && (year % 100 != 0 || year % 400 == 0)
  }

  /** The day on which the year begins. */
  function DayFromYear(year: int): int {
    365 * (year - 1970) + (year - 1969) / 4 - (year - 1901) / 100 + (year - 1601) / 400
  }

  function DaysInYear(year: int): nat {
    if IsLeap(year) then 366 else 365
  }

  lemma FourthYear(year: int)
    ensures (year - 1968) / 4 == (year - 1969) / 4 + (if year % 4 == 0 then 1 else 0)
  {
  }

  lemma HundredthYear(year: int)
    ensures (year - 1900) / 100 == (year - 1901) / 100 + (if year % 100 == 0 then 1 else 0)
  {
  }

  lemma FourHundredthYear(year: int)
    ensures (year - 1600) / 400 == (year - 1601) / 400 + (if year % 400 == 0 then 1 else 0)
    ensures year % 400 == 0 ==> year % 100 == 0
  {
  }

  lemma HundredthIsFourth(year: int)
    ensures year % 100 == 0 ==> year % 4 == 0
  {
  }

  lemma YearLength(year: int)
    ensures DayFromYear(year + 1) == DayFromYear(year) + DaysInYear(year)
  {
    FourthYear(year);
    HundredthYear(year);
    FourHundredthYear(year);
    HundredthIsFourth(year);
    LengthAdds(year, (year - 1969) / 4, (year - 1901) / 100, (year - 1601) / 400);
  }

  lemma LengthAdds(year: int, fourths: int, hundredths: int, fourHundredths: int)
    requires (year - 1969) / 4 == fourths && (year - 1901) / 100 == hundredths && (year - 1601) / 400 == fourHundredths
    requires (year - 1968) / 4 == fourths + (if year % 4 == 0 then 1 else 0)
    requires (year - 1900) / 100 == hundredths + (if year % 100 == 0 then 1 else 0)
    requires (year - 1600) / 400 == fourHundredths + (if year % 400 == 0 then 1 else 0)
    requires (year % 400 == 0 ==> year % 100 == 0) && (year % 100 == 0 ==> year % 4 == 0)
    ensures DayFromYear(year + 1) == DayFromYear(year) + DaysInYear(year)
  {
    assert year + 1 - 1969 == year - 1968 && year + 1 - 1901 == year - 1900 && year + 1 - 1601 == year - 1600;
  }

  lemma {:induction false} YearsAreOrdered(y: int, z: int)
    requires y <= z
    ensures DayFromYear(y) + (z - y) <= DayFromYear(z)
    decreases z - y
  {
    if y < z {
      YearsAreOrdered(y, z - 1);
      YearLength(z - 1);
    }
  }

  predicate IsInYear(day: int, year: int) {
    DayFromYear(year) <= day < DayFromYear(year + 1)
  }

  /** The first year from `year` on that contains the day. */
  function SearchYear(year: int, day: int): (found: int)
    requires DayFromYear(year) <= day
    ensures IsInYear(day, found)
    decreases day - DayFromYear(year)
  {
    YearLength(year);
    if day < DayFromYear(year + 1) then year else SearchYear(year + 1, day)
  }

  lemma CycleStart(cycle: int)
    ensures DayFromYear(1970 + 400 * cycle) == 146_097 * cycle
  {
    FourthsInCycle(cycle);
    HundredthsInCycle(cycle);
    FourHundredthsInCycle(cycle);
  }

  lemma FourthsInCycle(cycle: int)
    ensures (1970 + 400 * cycle - 1969) / 4 == 100 * cycle
  {
  }

  lemma HundredthsInCycle(cycle: int)
    ensures (1970 + 400 * cycle - 1901) / 100 == 4 * cycle
  {
  }

  lemma FourHundredthsInCycle(cycle: int)
    ensures (1970 + 400 * cycle - 1601) / 400 == cycle
  {
  }

  function YearFromDay(day: int): (year: int)
    ensures IsInYear(day, year)
  {
    CycleStart(day / 146_097);
    SearchYear(1970 + 400 * (day / 146_097), day)
  }

  lemma YearIsUnique(day: int, y: int, z: int)
    requires IsInYear(day, y) && IsInYear(day, z)
    ensures y == z
  {
    if y < z { YearsAreOrdered(y + 1, z); }
    if z < y { YearsAreOrdered(z + 1, y); }
  }

  // -------------------------------------------------------------- months

  /** The day of the year on which a month begins; month 13 begins the next year. */
  function MonthStart(month: nat, leap: bool): nat {
    CommonStart(month) + (if leap && month > 2 then 1 else 0)
  }

  function CommonStart(month: nat): nat {
    match month
    case 1 => 0
    case 2 => 31
    case 3 => 59
    case 4 => 90
    case 5 => 120
    case 6 => 151
    case 7 => 181
    case 8 => 212
    case 9 => 243
    case 10 => 273
    case 11 => 304
    case 12 => 334
    case _ => 365
  }

  predicate IsInMonth(dayInYear: nat, leap: bool, month: nat) {
    1 <= month <= 12 && MonthStart(month, leap) <= dayInYear < MonthStart(month + 1, leap)
  }

  function SearchMonth(month: nat, dayInYear: nat, leap: bool): (found: nat)
    requires 1 <= month <= 12 && MonthStart(month, leap) <= dayInYear < MonthStart(13, leap)
    ensures IsInMonth(dayInYear, leap, found)
    decreases 12 - month
  {
    if dayInYear < MonthStart(month + 1, leap) then month else SearchMonth(month + 1, dayInYear, leap)
  }

  lemma {:induction false} MonthsAreOrdered(m: nat, n: nat, leap: bool)
    requires 1 <= m <= n <= 13
    ensures MonthStart(m, leap) <= MonthStart(n, leap)
    decreases n - m
  {
    if m < n { MonthsAreOrdered(m, n - 1, leap); }
  }

  lemma MonthIsUnique(dayInYear: nat, leap: bool, m: nat, n: nat)
    requires IsInMonth(dayInYear, leap, m) && IsInMonth(dayInYear, leap, n)
    ensures m == n
  {
    if m < n { MonthsAreOrdered(m + 1, n, leap); }
    if n < m { MonthsAreOrdered(n + 1, m, leap); }
  }

  // -------------------------------------------------------------- days

  datatype CivilDay = CivilDay(year: int, month: nat, day: nat)

  /** The month has such a day. */
  predicate IsCivilDay(c: CivilDay) {
    1 <= c.month <= 12 && 1 <= c.day <= MonthStart(c.month + 1, IsLeap(c.year)) - MonthStart(c.month, IsLeap(c.year))
  }

  function DayOf(c: CivilDay): int {
    DayFromYear(c.year) + MonthStart(c.month, IsLeap(c.year)) + c.day - 1
  }

  function CivilDayOf(day: int): (c: CivilDay)
    ensures IsCivilDay(c) && DayOf(c) == day
  {
    var year := YearFromDay(day);
    var dayInYear := day - DayFromYear(year);
    YearLength(year);
    var month := SearchMonth(1, dayInYear, IsLeap(year));
    CivilDay(year, month, dayInYear - MonthStart(month, IsLeap(year)) + 1)
  }

  lemma DayIsInYear(c: CivilDay)
    requires IsCivilDay(c)
    ensures IsInYear(DayOf(c), c.year) && IsInMonth(DayOf(c) - DayFromYear(c.year), IsLeap(c.year), c.month)
  {
    YearLength(c.year);
    MonthsAreOrdered(c.month + 1, 13, IsLeap(c.year));
  }

  lemma CivilDayIsUnique(c: CivilDay)
    requires IsCivilDay(c)
    ensures CivilDayOf(DayOf(c)) == c
  {
    var found := CivilDayOf(DayOf(c));
    DayIsInYear(c);
    DayIsInYear(found);
    YearIsUnique(DayOf(c), c.year, found.year);
    MonthIsUnique(DayOf(c) - DayFromYear(c.year), IsLeap(c.year), c.month, found.month);
  }

  // -------------------------------------------------------------- times

  datatype CivilTime = CivilTime(date: CivilDay, hour: nat, minute: nat, second: nat, milli: nat)

  predicate IsCivilTime(c: CivilTime) {
    IsCivilDay(c.date) && c.hour < 24 && c.minute < 60 && c.second < 60 && c.milli < 1000
  }

  function TimeOf(c: CivilTime): int {
    DayOf(c.date) * MS_PER_DAY + MsInDay(c.hour, c.minute, c.second, c.milli)
  }

  function MsInDay(hour: nat, minute: nat, second: nat, milli: nat): nat {
    ((hour * 60 + minute) * 60 + second) * 1000 + milli
  }

  lemma SplitDay(ms: nat)
    requires ms < MS_PER_DAY
    ensures ms / 1000 / 60 / 60 < 24
    ensures MsInDay(ms / 1000 / 60 / 60, ms / 1000 / 60 % 60, ms / 1000 % 60, ms % 1000) == ms
  {
    Recomposed(ms, 1000);
    Recomposed(ms / 1000, 60);
    Recomposed(ms / 1000 / 60, 60);
  }

  function CivilTimeOf(time: int): (c: CivilTime)
    ensures IsCivilTime(c) && TimeOf(c) == time
  {
    var ms: nat := time % MS_PER_DAY;
    SplitDay(ms);
    CivilTime(CivilDayOf(time / MS_PER_DAY), ms / 1000 / 60 / 60, ms / 1000 / 60 % 60, ms / 1000 % 60, ms % 1000)
  }

  lemma MsAreUnique(hour: nat, minute: nat, second: nat, milli: nat)
    requires hour < 24 && minute < 60 && second < 60 && milli < 1000
    ensures var ms := MsInDay(hour, minute, second, milli);
            && ms < MS_PER_DAY && ms % 1000 == milli && ms / 1000 % 60 == second
            && ms / 1000 / 60 % 60 == minute && ms / 1000 / 60 / 60 == hour
  {
    QuotientAndRest((hour * 60 + minute) * 60 + second, milli, 1000);
    QuotientAndRest(hour * 60 + minute, second, 60);
    QuotientAndRest(hour, minute, 60);
  }

  lemma DayAndMs(day: int, ms: nat)
    requires ms < MS_PER_DAY
    ensures (day * MS_PER_DAY + ms) / MS_PER_DAY == day && (day * MS_PER_DAY + ms) % MS_PER_DAY == ms
  {
  }

  /** Every time of the calendar is the time it is computed from: each way back undoes the other. */
  lemma CivilTimeIsUnique(c: CivilTime)
    requires IsCivilTime(c)
    ensures CivilTimeOf(TimeOf(c)) == c
  {
    MsAreUnique(c.hour, c.minute, c.second, c.milli);
    CivilDayIsUnique(c.date);
    TimeSplits(c, MsInDay(c.hour, c.minute, c.second, c.milli));
  }

  lemma TimeSplits(c: CivilTime, ms: nat)
    requires ms < MS_PER_DAY && ms == MsInDay(c.hour, c.minute, c.second, c.milli)
    ensures TimeOf(c) / MS_PER_DAY == DayOf(c.date) && TimeOf(c) % MS_PER_DAY == ms
  {
    DayAndMs(DayOf(c.date), ms);
  }

  /** The years a Date can name have at most six digits. */
  lemma YearsAreShort(time: int)
    requires IsTimeValue(time)
    ensures -1_000_000 < CivilTimeOf(time).date.year < 1_000_000
  {
    var c := CivilTimeOf(time).date;
    DayIsInYear(c);
    if c.year >= 1_000_000 { YearsAreOrdered(1_000_000, c.year); }
    if c.year <= -1_000_000 { YearsAreOrdered(c.year + 1, -999_999); }
  }

  // -------------------------------------------------------------- the calendar itself

  function DaysInMonth(year: int, month: nat): nat {
    if month == 2 then (if year % 4 == 0 && (year % 100 != 0 || year % 400 == 0) then 29 else 28)
    else if month in {4, 6, 9, 11} then 30
    else 31
  }

  /** The day after, on the calendar. */
  function DayAfter(c: CivilDay): CivilDay {
    if c.day < DaysInMonth(c.year, c.month) then CivilDay(c.year, c.month, c.day + 1)
    else if c.month < 12 then CivilDay(c.year, c.month + 1, 1)
    else CivilDay(c.year + 1, 1, 1)
  }

  lemma MonthLength(year: int, month: nat)
    requires 1 <= month <= 12
    ensures MonthStart(month + 1, IsLeap(year)) - MonthStart(month, IsLeap(year)) == DaysInMonth(year, month)
  {
  }

  lemma NextDay(c: CivilDay)
    requires IsCivilDay(c)
    ensures IsCivilDay(DayAfter(c)) && DayOf(DayAfter(c)) == DayOf(c) + 1
  {
    MonthLength(c.year, c.month);
    if c.day == DaysInMonth(c.year, c.month) {
      if c.month < 12 { MonthLength(c.year, c.month + 1); } else { YearLength(c.year); }
    }
  }

  lemma FirstDay()
    ensures DayOf(CivilDay(1970, 1, 1)) == 0
  {
  }

  /** Day 0 is the first of January 1970, and each day is followed by the next one of the calendar. */
  lemma CalendarExactly(day: int)
    ensures DayOf(CivilDay(1970, 1, 1)) == 0 && CivilDayOf(day + 1) == DayAfter(CivilDayOf(day))
  {
    FirstDay();
    NextDay(CivilDayOf(day));
    CivilDayIsUnique(DayAfter(CivilDayOf(day)));
  }

  /** A time of day is its hours, minutes, seconds and milliseconds since midnight. */
  lemma TimeExactly(time: int)
    ensures var c := CivilTimeOf(time);
            && c.date == CivilDayOf(time / 86_400_000)
            && c.hour * 3_600_000 + c.minute * 60_000 + c.second * 1_000 + c.milli == time % 86_400_000
            && c.hour < 24 && c.minute < 60 && c.second < 60 && c.milli < 1_000
  {
    var ms: nat := time % MS_PER_DAY;
    SplitDay(ms);
  }
}
