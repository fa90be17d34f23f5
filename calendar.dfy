/**
 * Calendar arithmetic in local time, as the date library used by the
 * download and contribution code performs it: Gregorian leap years,
 * 28 to 31 day months, month steps that clamp the day of month, and
 * instants made of a calendar day plus a millisecond within that day.
 */
module Calendar {

  /** Gregorian leap-year rule (proleptic; `%` is Euclidean, which is right for negative years too). */
  predicate IsLeapYear(year: int) {
    year % 4 == 0 && (year % 100 != 0 || year % 400 == 0)
  }

  function DaysInMonth(year: int, month: int): (n: int)
    requires 1 <= month <= 12
    ensures 28 <= n <= 31
    ensures n == 29 <==> month == 2 && IsLeapYear(year)
    ensures n == 28 <==> month == 2 && !IsLeapYear(year)
  {
    if month == 2 then (if IsLeapYear(year) then 29 else 28)
    else if month == 4 || month == 6 || month == 9 || month == 11 then 30
    else 31
  }

  /** Days in the first `months` months of `year`. */
  function DaysBeforeMonth(year: int, months: int): int
    requires 0 <= months <= 12
  {
    if months == 0 then 0 else DaysBeforeMonth(year, months - 1) + DaysInMonth(year, months)
  }

  /** The month lengths add up to the length of a Gregorian year. */
  lemma {:induction false} YearLength(year: int)
    ensures DaysBeforeMonth(year, 12) == if IsLeapYear(year) then 366 else 365
  {
    var feb := DaysInMonth(year, 2);
    assert DaysBeforeMonth(year, 1) == 31;
    assert DaysBeforeMonth(year, 2) == 31 + feb;
    assert DaysBeforeMonth(year, 3) == 62 + feb;
    assert DaysBeforeMonth(year, 4) == 92 + feb;
    assert DaysBeforeMonth(year, 5) == 123 + feb;
    assert DaysBeforeMonth(year, 6) == 153 + feb;
    assert DaysBeforeMonth(year, 7) == 184 + feb;
    assert DaysBeforeMonth(year, 8) == 215 + feb;
    assert DaysBeforeMonth(year, 9) == 245 + feb;
    assert DaysBeforeMonth(year, 10) == 276 + feb;
    assert DaysBeforeMonth(year, 11) == 306 + feb;
    assert DaysBeforeMonth(year, 12) == 337 + feb;
  }

  // ---------------------------------------------------------------------
  // Months
  // ---------------------------------------------------------------------

  /** A calendar month: the value the code formats as `yyyy-MM`. */
  datatype YearMonth = YearMonth(year: int, month: int)

  predicate ValidMonth(ym: YearMonth) {
    1 <= ym.month <= 12
  }

  /** Months elapsed since January of year 0; a bijection onto the integers. */
  function MonthIndex(ym: YearMonth): int {
    ym.year * 12 + (ym.month - 1)
  }

  function MonthAt(index: int): (ym: YearMonth)
    ensures ValidMonth(ym) && MonthIndex(ym) == index
  {
    YearMonth(index / 12, index % 12 + 1)
  }

  lemma MonthIndexInjective(a: YearMonth, b: YearMonth)
    requires ValidMonth(a) && ValidMonth(b)
    requires MonthIndex(a) == MonthIndex(b)
    ensures a == b
  {
    MonthBeforeIsLexicographic(a, b);
    MonthBeforeIsLexicographic(b, a);
  }

  /** Strictly earlier month. */
  predicate MonthBefore(a: YearMonth, b: YearMonth) {
    MonthIndex(a) < MonthIndex(b)
  }

  /** On valid months, `MonthBefore` is the lexicographic (year, month) order. */
  lemma MonthBeforeIsLexicographic(a: YearMonth, b: YearMonth)
    requires ValidMonth(a) && ValidMonth(b)
    ensures MonthBefore(a, b) <==> a.year < b.year || (a.year == b.year && a.month < b.month)
  {
    if a.year < b.year {
      assert MonthIndex(a) <= a.year * 12 + 11 < b.year * 12 <= MonthIndex(b);
    } else if b.year < a.year {
      assert MonthIndex(b) <= b.year * 12 + 11 < a.year * 12 <= MonthIndex(a);
    }
  }

  /** The month `n` months before `ym` (after it when `n` is negative). */
  function MonthsBefore(ym: YearMonth, n: int): (r: YearMonth)
    ensures ValidMonth(r) && MonthIndex(r) == MonthIndex(ym) - n
  {
    MonthAt(MonthIndex(ym) - n)
  }

  /** The month immediately before `ym`, computed field by field. */
  function PreviousMonth(ym: YearMonth): (r: YearMonth)
    requires ValidMonth(ym)
    ensures ValidMonth(r)
    ensures r == MonthsBefore(ym, 1)
  {
    var r := if ym.month == 1 then YearMonth(ym.year - 1, 12) else YearMonth(ym.year, ym.month - 1);
    MonthIndexInjective(r, MonthsBefore(ym, 1));
    r
  }

  /** Stepping back `n` months and then one more is stepping back `n + 1`. */
  lemma MonthsBeforeStep(ym: YearMonth, n: int)
    ensures MonthsBefore(MonthsBefore(ym, n), 1) == MonthsBefore(ym, n + 1)
  {
    MonthIndexInjective(MonthsBefore(MonthsBefore(ym, n), 1), MonthsBefore(ym, n + 1));
  }

  // ---------------------------------------------------------------------
  // Days
  // ---------------------------------------------------------------------

  /** A calendar day, the part of a time stamp that `yyyy-MM-dd` formats. */
  datatype Date = Date(year: int, month: int, day: int)

  predicate ValidDate(d: Date) {
    1 <= d.month <= 12 && 1 <= d.day <= DaysInMonth(d.year, d.month)
  }

  function MonthOf(d: Date): YearMonth {
    YearMonth(d.year, d.month)
  }

  /** Day 1 of a month (`startOfMonth`). */
  function FirstDay(ym: YearMonth): (d: Date)
    requires ValidMonth(ym)
    ensures ValidDate(d) && MonthOf(d) == ym && d.day == 1
  {
    Date(ym.year, ym.month, 1)
  }

  /** The last day of a month (`endOfMonth`), at its real 28 to 31 day length. */
  function LastDay(ym: YearMonth): (d: Date)
    requires ValidMonth(ym)
    ensures ValidDate(d) && MonthOf(d) == ym
    ensures forall e :: ValidDate(e) && MonthOf(e) == ym ==> e.day <= d.day
  {
    Date(ym.year, ym.month, DaysInMonth(ym.year, ym.month))
  }

  /** Chronological order on days (the lexicographic order on year, month, day). */
  predicate DateBefore(a: Date, b: Date) {
    a.year < b.year || (a.year == b.year && (a.month < b.month || (a.month == b.month && a.day < b.day)))
  }

  predicate DateAtMost(a: Date, b: Date) {
    a == b || DateBefore(a, b)
  }

  /** A day that is not later than another lies in a month that is not later either. */
  lemma DateAtMostMonth(a: Date, b: Date)
    requires ValidDate(a) && ValidDate(b) && DateAtMost(a, b)
    ensures MonthIndex(MonthOf(a)) <= MonthIndex(MonthOf(b))
  {
    MonthBeforeIsLexicographic(MonthOf(a), MonthOf(b));
    if MonthOf(a) != MonthOf(b) {
      assert MonthBefore(MonthOf(a), MonthOf(b));
    }
  }

  /**
   * `subMonths(d, n)`: the same day `n` months earlier, clamped to the
   * length of the target month (31 March minus one month is 28 or 29 February).
   */
  function SubMonths(d: Date, n: int): (r: Date)
    requires ValidDate(d)
    ensures ValidDate(r) && MonthOf(r) == MonthsBefore(MonthOf(d), n)
    ensures r.day == if d.day <= DaysInMonth(r.year, r.month) then d.day else DaysInMonth(r.year, r.month)
  {
    var t := MonthsBefore(MonthOf(d), n);
    var last := DaysInMonth(t.year, t.month);
    Date(t.year, t.month, if d.day <= last then d.day else last)
  }

  /** `subDays(d, 1)`: the previous calendar day. */
  function PrevDay(d: Date): (r: Date)
    requires ValidDate(d)
    ensures ValidDate(r) && DateBefore(r, d)
    ensures forall e :: ValidDate(e) ==> !(DateBefore(r, e) && DateBefore(e, d))
  {
    if d.day > 1 then Date(d.year, d.month, d.day - 1)
    else LastDay(PreviousMonth(MonthOf(d)))
  }

  /** The next calendar day. */
  function NextDay(d: Date): (r: Date)
    requires ValidDate(d)
    ensures ValidDate(r) && DateBefore(d, r)
    ensures forall e :: ValidDate(e) ==> !(DateBefore(d, e) && DateBefore(e, r))
  {
    if d.day < DaysInMonth(d.year, d.month) then Date(d.year, d.month, d.day + 1)
    else if d.month < 12 then Date(d.year, d.month + 1, 1)
    else Date(d.year + 1, 1, 1)
  }

  /** `NextDay` undoes `PrevDay`. */
  lemma NextDayOfPrevDay(d: Date)
    requires ValidDate(d)
    ensures NextDay(PrevDay(d)) == d
  {
  }

  /** The day after the last day of a month is the first day of the next month. */
  lemma NextDayOfLastDay(ym: YearMonth)
    requires ValidMonth(ym)
    ensures NextDay(LastDay(ym)) == FirstDay(MonthsBefore(ym, -1))
  {
    MonthIndexInjective(MonthOf(NextDay(LastDay(ym))), MonthsBefore(ym, -1));
  }

  /** The day before the first of a month is the last day of the previous month. */
  lemma PrevDayOfFirstDay(ym: YearMonth)
    requires ValidMonth(ym)
    ensures PrevDay(FirstDay(ym)) == LastDay(MonthsBefore(ym, 1))
  {
  }

  // ---------------------------------------------------------------------
  // Instants
  // ---------------------------------------------------------------------

  const MsPerDay: int := 86400000

  /** A local time stamp: a calendar day and the milliseconds elapsed since its midnight. */
  datatype Instant = Instant(date: Date, ms: int)

  predicate ValidInstant(t: Instant) {
    ValidDate(t.date) && 0 <= t.ms < MsPerDay
  }

  predicate InstantBefore(a: Instant, b: Instant) {
    DateBefore(a.date, b.date) || (a.date == b.date && a.ms < b.ms)
  }

  predicate InstantAtMost(a: Instant, b: Instant) {
    a == b || InstantBefore(a, b)
  }

  /** `startOfMonth(t)`: midnight on day 1 of the month of `t`. */
  function StartOfMonthInstant(t: Instant): (r: Instant)
    requires ValidInstant(t)
    ensures ValidInstant(r) && r.date == FirstDay(MonthOf(t.date)) && r.ms == 0
  {
    Instant(FirstDay(MonthOf(t.date)), 0)
  }

  /** `endOfDay(t)`: the last millisecond of the day of `t`. */
  function EndOfDay(t: Instant): (r: Instant)
    requires ValidInstant(t)
    ensures ValidInstant(r) && r.date == t.date
    ensures forall u :: ValidInstant(u) && u.date == t.date ==> u.ms <= r.ms
  {
    Instant(t.date, MsPerDay - 1)
  }

  /** `subDays(t, 1)`: the same time of day, one calendar day earlier. */
  function SubDayInstant(t: Instant): (r: Instant)
    requires ValidInstant(t)
    ensures ValidInstant(r) && r.date == PrevDay(t.date) && r.ms == t.ms
  {
    Instant(PrevDay(t.date), t.ms)
  }

  /** `subMonths(t, n)`: the same time of day, `n` months earlier, day clamped. */
  function SubMonthsInstant(t: Instant, n: int): (r: Instant)
    requires ValidInstant(t)
    ensures ValidInstant(r) && r.date == SubMonths(t.date, n) && r.ms == t.ms
  {
    Instant(SubMonths(t.date, n), t.ms)
  }

  /** The instant one millisecond later. */
  function NextInstant(t: Instant): (r: Instant)
    requires ValidInstant(t)
    ensures ValidInstant(r) && InstantBefore(t, r)
    ensures forall u :: ValidInstant(u) ==> !(InstantBefore(t, u) && InstantBefore(u, r))
  {
    if t.ms + 1 < MsPerDay then Instant(t.date, t.ms + 1) else Instant(NextDay(t.date), 0)
  }

  // ---------------------------------------------------------------------
  // Monthly series
  // ---------------------------------------------------------------------

  /** One point of a monthly series: `{ count, date }` with `date` standing for `yyyy-MM`. */
  datatype MonthlyCount = MonthlyCount(count: int, date: YearMonth)

  /** The sum of the counts of a series. */
  function SumCounts(s: seq<MonthlyCount>): int {
    if s == [] then 0 else SumCounts(s[..|s| - 1]) + s[|s| - 1].count
  }
}
