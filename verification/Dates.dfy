/**
 Civil dates without a clock: month shifting, day clamping and day counts. A date also has
 a day number, and the field-by-field comparison of the source is proved to be the order of
 day numbers, so the rest of the engine may reason about either.
 */
module Dates {

  datatype Civil = Civil(y: int, m: int, d: int)

  /** The unset date; every set date follows it. */
  const UNSET: Civil := Civil(0, 0, 0)

  /** A date that exists, or the unset one. */
  type Date = c: Civil | c == UNSET || Exists(c) witness UNSET

  predicate Exists(c: Civil) {
    1 <= c.y && 1 <= c.m <= 12 && 1 <= c.d <= DaysInMonth(c.y, c.m)
  }

  predicate IsSet(d: Date) {
    d != UNSET
  }

  predicate IsLeap(y: int) {
    (y % 4 == 0 && y % 100 != 0) || y % 400 == 0
  }

  function DaysInMonth(y: int, m: int): (n: int)
    ensures 28 <= n <= 31
  {
    if m == 2 then (if IsLeap(y) then 29 else 28)
    else if m == 4 || m == 6 || m == 9 || m == 11 then 30
    else 31
  }

  // ---------- Order ----------

  /** Field by field: year, then month, then day. */
  function Compare(a: Date, b: Date): int {
    if a.y != b.y then (if a.y < b.y then -1 else 1)
    else if a.m != b.m then (if a.m < b.m then -1 else 1)
    else if a.d != b.d then (if a.d < b.d then -1 else 1)
    else 0
  }

  predicate Before(a: Date, b: Date)
    ensures Before(a, b) <==> DayNumber(a) < DayNumber(b)
  {
    CompareIsDayOrder(a, b);
    Compare(a, b) < 0
  }

  predicate After(a: Date, b: Date)
    ensures After(a, b) <==> DayNumber(a) > DayNumber(b)
  {
    CompareIsDayOrder(a, b);
    Compare(a, b) > 0
  }

  /** Months since the start of the calendar: the key a date shares with its whole month. */
  function YearMonth(d: Date): int {
    12 * d.y + d.m - 1
  }

  // ---------- Day numbers ----------

  /** Days before the first of the month with index `t`, counted month by month. */
  function MonthStart(t: int): (n: int)
    ensures t >= 12 ==> n >= 28 * (t - 12)
    decreases t
  {
    if t <= 12 then 0
    else MonthStart(t - 1) + DaysInMonth((t - 1) / 12, (t - 1) % 12 + 1)
  }

  /** The ordinal of a date; 0 for the unset date, 1 for the first of January of year 1. */
  function DayNumber(d: Date): (n: nat)
    ensures n == 0 <==> d == UNSET
  {
    if d == UNSET then 0 else MonthStart(YearMonth(d)) + d.d
  }

  lemma {:induction false} MonthStartIsMonotone(t: int, t': int)
    requires 12 <= t < t'
    ensures MonthStart(t) + DaysInMonth(t / 12, t % 12 + 1) <= MonthStart(t')
    decreases t' - t
  {
    if t + 1 < t' {
      MonthStartIsMonotone(t, t' - 1);
    }
  }

  /** Comparing fields is comparing day numbers, in both directions. */
  lemma CompareIsDayOrder(a: Date, b: Date)
    ensures Compare(a, b) < 0 <==> DayNumber(a) < DayNumber(b)
    ensures Compare(a, b) > 0 <==> DayNumber(a) > DayNumber(b)
    ensures a == b <==> DayNumber(a) == DayNumber(b)
  {
    if a != UNSET && b != UNSET {
      var s, t := YearMonth(a), YearMonth(b);
      assert s / 12 == a.y && s % 12 + 1 == a.m;
      assert t / 12 == b.y && t % 12 + 1 == b.m;
      if s < t {
        MonthStartIsMonotone(s, t);
      } else if t < s {
        MonthStartIsMonotone(t, s);
      }
    }
  }

  /** Days from `a` to `b`, negative when `b` comes first. */
  function DaysBetween(a: Date, b: Date): (n: int)
    requires IsSet(a) && IsSet(b)
    ensures Before(a, b) <==> n > 0
    ensures After(a, b) <==> n < 0
    ensures a == b <==> n == 0
  {
    CompareIsDayOrder(a, b);
    DayNumber(b) - DayNumber(a)
  }

  function NextDay(d: Date): (r: Date)
    requires IsSet(d)
    ensures IsSet(r)
  {
    if d.d < DaysInMonth(d.y, d.m) then Civil(d.y, d.m, d.d + 1)
    else if d.m < 12 then Civil(d.y, d.m + 1, 1)
    else Civil(d.y + 1, 1, 1)
  }

  lemma NextDayIsOneLater(d: Date)
    requires IsSet(d)
    ensures DayNumber(NextDay(d)) == DayNumber(d) + 1
  {
    var t := YearMonth(d);
    assert t / 12 == d.y && t % 12 + 1 == d.m;
    if d.d == DaysInMonth(d.y, d.m) {
      assert YearMonth(NextDay(d)) == t + 1;
      assert MonthStart(t + 1) == MonthStart(t) + DaysInMonth(d.y, d.m);
    }
  }

  /** Days before a month of a year of 365 days. */
  const MONTHS_BEFORE: seq<int> := [0, 31, 59, 90, 120, 151, 181, 212, 243, 273, 304, 334]

  /** The Gregorian count: a leap day every fourth year, but not in centuries, except every fourth of them. */
  lemma {:induction false} YearsStart(y: int)
    requires y >= 1
    ensures MonthStart(12 * y) == 365 * (y - 1) + (y - 1) / 4 - (y - 1) / 100 + (y - 1) / 400
    decreases y
  {
    if y > 1 {
      YearsStart(y - 1);
      YearPasses(y - 1);
      LeapDays(y - 1);
    }
  }

  lemma LeapDays(y: int)
    requires y >= 1
    ensures (y / 4 - (y - 1) / 4) - (y / 100 - (y - 1) / 100) + (y / 400 - (y - 1) / 400) == if IsLeap(y) then 1 else 0
  {
    assert y / 4 - (y - 1) / 4 == if y % 4 == 0 then 1 else 0;
    assert y / 100 - (y - 1) / 100 == if y % 100 == 0 then 1 else 0;
    assert y / 400 - (y - 1) / 400 == if y % 400 == 0 then 1 else 0;
    assert (y % 400 == 0 ==> y % 100 == 0) && (y % 100 == 0 ==> y % 4 == 0);
  }

  lemma {:induction false} MonthsPass(y: int, m: nat)
    requires y >= 1 && m < 12
    ensures MonthStart(12 * y + m) == MonthStart(12 * y) + MONTHS_BEFORE[m] + if m >= 2 && IsLeap(y) then 1 else 0
    decreases m
  {
    hide IsLeap;
    if m > 0 {
      MonthsPass(y, m - 1);
      assert (12 * y + m - 1) / 12 == y && (12 * y + m - 1) % 12 == m - 1;
    }
  }

  lemma YearPasses(y: int)
    requires y >= 1
    ensures MonthStart(12 * (y + 1)) == MonthStart(12 * y) + 365 + if IsLeap(y) then 1 else 0
  {
    hide IsLeap;
    MonthsPass(y, 11);
    assert (12 * y + 11) / 12 == y && (12 * y + 11) % 12 == 11;
  }

  /** Day numbers are those of the Gregorian calendar: whole years, whole months, days. */
  lemma DayNumbersAreGregorian(d: Date)
    requires IsSet(d)
    ensures var years := d.y - 1;
            DayNumber(d) == 365 * years + years / 4 - years / 100 + years / 400
                            + MONTHS_BEFORE[d.m - 1] + (if d.m > 2 && IsLeap(d.y) then 1 else 0) + d.d
  {
    hide MonthStart, IsLeap;
    YearsStart(d.y);
    MonthsPass(d.y, d.m - 1);
    assert YearMonth(d) == 12 * d.y + (d.m - 1);
  }

  // ---------- Month arithmetic ----------

  /** The day of the month with index `t`, clamped to the month's length and to at least 1. */
  function Clamp(t: int, day: int): (r: Date)
    requires t >= 12
    ensures IsSet(r) && YearMonth(r) == t
    ensures r.d <= (if day < 1 then 1 else day)
    ensures 1 <= day <= 28 ==> r.d == day
  {
    var y, m := t / 12, t % 12 + 1;
    var least := if day < 1 then 1 else day;
    Civil(y, m, if least > DaysInMonth(y, m) then DaysInMonth(y, m) else least)
  }

  /** A month that lacks the day has its last day instead: the next day is in another month. */
  lemma ClampedToTheLastDay(t: int, day: int)
    requires t >= 12
    ensures Clamp(t, day).d == (if day < 1 then 1 else day) || YearMonth(NextDay(Clamp(t, day))) == t + 1
  {
  }

  /** `n` calendar months later, the day clamped to the target month. */
  function AddMonths(d: Date, n: int): (r: Date)
    requires IsSet(d) && YearMonth(d) + n >= 12
    ensures IsSet(r) && YearMonth(r) == YearMonth(d) + n
  {
    Clamp(YearMonth(d) + n, d.d)
  }

  function OnDayOfMonth(d: Date, day: int): (r: Date)
    requires IsSet(d)
    ensures IsSet(r) && YearMonth(r) == YearMonth(d)
    ensures r == Clamp(YearMonth(d), day)
  {
    Clamp(YearMonth(d), day)
  }

  /** The nth date of a schedule that carries its contractual day through short months. */
  function Occurrence(start: Date, day: int, n: nat): (r: Date)
    requires IsSet(start)
    ensures IsSet(r) && YearMonth(r) == YearMonth(start) + n
    ensures r == Clamp(YearMonth(start) + n, day)
  {
    Clamp(YearMonth(start) + n, day)
  }

  /** A later month is a later date, whatever the days. */
  lemma LaterMonthIsAfter(a: Date, b: Date)
    requires IsSet(a) && IsSet(b) && YearMonth(a) < YearMonth(b)
    ensures Before(a, b) && DayNumber(a) < DayNumber(b)
  {
    CompareIsDayOrder(a, b);
  }

  lemma NoEarlierMonth(a: Date, b: Date)
    requires IsSet(a) && IsSet(b) && !Before(b, a)
    ensures YearMonth(a) <= YearMonth(b)
  {
    if YearMonth(b) < YearMonth(a) {
      LaterMonthIsAfter(b, a);
    }
  }

  /** Within one month the clamped day is monotone in the requested day. */
  lemma SameMonthOrder(a: Date, b: Date)
    requires IsSet(a) && IsSet(b) && YearMonth(a) == YearMonth(b)
    ensures a.y == b.y && a.m == b.m
    ensures Before(a, b) <==> a.d < b.d
  {
    assert YearMonth(a) / 12 == a.y && YearMonth(b) / 12 == b.y;
  }

  /** A schedule's dates strictly increase, and all follow its start from n = 1 on. */
  lemma OccurrencesIncrease(start: Date, day: int, n: nat, k: nat)
    requires IsSet(start) && n < k
    ensures Before(Occurrence(start, day, n), Occurrence(start, day, k))
    ensures Before(start, Occurrence(start, day, k))
  {
    LaterMonthIsAfter(Occurrence(start, day, n), Occurrence(start, day, k));
    LaterMonthIsAfter(start, Occurrence(start, day, k));
  }

  // ---------- Monthly periods ----------

  /** The start of the monthly period containing `on`, for a period day clamped per month. */
  function PeriodStart(cycleDay: int, on: Date): (r: Date)
    requires IsSet(on) && YearMonth(on) > 12
    ensures IsSet(r) && YearMonth(on) - 1 <= YearMonth(r) <= YearMonth(on)
    ensures r == Clamp(YearMonth(r), PeriodDay(cycleDay))
  {
    var start := OnDayOfMonth(on, PeriodDay(cycleDay));
    if After(start, on) then OnDayOfMonth(AddMonths(on, -1), PeriodDay(cycleDay)) else start
  }

  function PeriodDay(cycleDay: int): int {
    if cycleDay == 0 then 1 else cycleDay
  }

  function PeriodEnd(cycleDay: int, on: Date): (r: Date)
    requires IsSet(on) && YearMonth(on) > 12
    ensures IsSet(r)
  {
    OnDayOfMonth(AddMonths(PeriodStart(cycleDay, on), 1), PeriodDay(cycleDay))
  }

  /** A period contains its date, and ends where the period of its end date starts. */
  lemma PeriodContains(cycleDay: int, on: Date)
    requires IsSet(on) && YearMonth(on) > 12
    ensures !After(PeriodStart(cycleDay, on), on) && Before(on, PeriodEnd(cycleDay, on))
    ensures Before(PeriodStart(cycleDay, on), PeriodEnd(cycleDay, on))
    ensures PeriodStart(cycleDay, PeriodEnd(cycleDay, on)) == PeriodEnd(cycleDay, on)
  {
    var day := PeriodDay(cycleDay);
    var start, end := PeriodStart(cycleDay, on), PeriodEnd(cycleDay, on);
    var here := OnDayOfMonth(on, day);
    assert YearMonth(end) == YearMonth(start) + 1;
    LaterMonthIsAfter(start, end);
    if After(here, on) {
      SameMonthOrder(on, end);
      SameMonthOrder(on, here);
      LaterMonthIsAfter(start, on);
      CompareIsDayOrder(start, on);
      CompareIsDayOrder(on, start);
      assert end == here;
      CompareIsDayOrder(here, on);
      CompareIsDayOrder(on, here);
    } else {
      LaterMonthIsAfter(on, end);
    }
  }

  /**
   Periods tile the calendar under clamping: every date of [start, end) has that same start
   and that same end, and no date outside does.
   */
  lemma PeriodsTile(cycleDay: int, on: Date, d: Date)
    requires IsSet(on) && YearMonth(on) > 12 && IsSet(d) && YearMonth(d) > 12
    ensures (!Before(d, PeriodStart(cycleDay, on)) && Before(d, PeriodEnd(cycleDay, on)))
            <==> PeriodStart(cycleDay, d) == PeriodStart(cycleDay, on)
    ensures PeriodStart(cycleDay, d) == PeriodStart(cycleDay, on) ==>
              PeriodEnd(cycleDay, d) == PeriodEnd(cycleDay, on)
  {
    PeriodContains(cycleDay, on);
    PeriodContains(cycleDay, d);
    var s, e := PeriodStart(cycleDay, on), PeriodEnd(cycleDay, on);
    var s', e' := PeriodStart(cycleDay, d), PeriodEnd(cycleDay, d);
    CompareIsDayOrder(d, s);
    CompareIsDayOrder(d, e);
    CompareIsDayOrder(s', d);
    CompareIsDayOrder(d, e');
    if YearMonth(s) < YearMonth(s') {
      NoEarlierThanEnd(cycleDay, s, s');
    } else if YearMonth(s') < YearMonth(s) {
      NoEarlierThanEnd(cycleDay, s', s);
    }
  }

  /** Two period starts in different months are at least one whole period apart. */
  lemma NoEarlierThanEnd(cycleDay: int, s: Date, s': Date)
    requires IsSet(s) && IsSet(s') && YearMonth(s) < YearMonth(s')
    requires s == Clamp(YearMonth(s), PeriodDay(cycleDay)) && s' == Clamp(YearMonth(s'), PeriodDay(cycleDay))
    ensures DayNumber(OnDayOfMonth(AddMonths(s, 1), PeriodDay(cycleDay))) <= DayNumber(s')
  {
    var e := OnDayOfMonth(AddMonths(s, 1), PeriodDay(cycleDay));
    if YearMonth(e) < YearMonth(s') {
      LaterMonthIsAfter(e, s');
    }
  }

  // ---------- Income windows ----------

  /** A pay day's income on `income`, a due on `due` inside its window, and the due a month later still before the next income. */
  predicate ShareAWindow(income: Date, payDay: int, due: Date, paymentDay: int)
    requires IsSet(income) && IsSet(due)
  {
    && income == OnDayOfMonth(income, payDay) && due == OnDayOfMonth(due, paymentDay) && !Before(due, income)
    && Before(Occurrence(due, paymentDay, 1), OnDayOfMonth(AddMonths(income, 1), payDay))
  }

  /** A due day at or past the pay day, or one that every month has, keeps the due a month later out of the window. */
  lemma OneDuePerWindow(income: Date, payDay: int, due: Date, paymentDay: int)
    requires IsSet(income) && IsSet(due) && 1 <= payDay <= 31 && !(28 <= paymentDay < payDay)
    ensures !ShareAWindow(income, payDay, due, paymentDay)
  {
    if income == OnDayOfMonth(income, payDay) && due == OnDayOfMonth(due, paymentDay) && !Before(due, income) {
      var next := OnDayOfMonth(AddMonths(income, 1), payDay);
      var later := Occurrence(due, paymentDay, 1);
      if YearMonth(due) < YearMonth(income) {
        LaterMonthIsAfter(due, income);
      } else if YearMonth(due) == YearMonth(income) {
        SameMonthOrder(due, income);
        SameMonthOrder(later, next);
      } else {
        LaterMonthIsAfter(next, later);
      }
    }
  }

  /** At the end of a short February the clamped days coincide, and in March they part. */
  lemma FebruaryShares(payDay: int, paymentDay: int) returns (income: Date)
    requires 28 <= paymentDay < payDay <= 31
    ensures IsSet(income) && ShareAWindow(income, payDay, income, paymentDay)
  {
    income := Civil(2023, 2, 28);
    assert OnDayOfMonth(income, paymentDay) == income == OnDayOfMonth(income, payDay);
    var first, next := Occurrence(income, paymentDay, 1), OnDayOfMonth(AddMonths(income, 1), payDay);
    assert first == Civil(2023, 3, paymentDay) && next == Civil(2023, 3, payDay);
    SameMonthOrder(first, next);
  }

  /**
   Two dues of one schedule can share an income window if and only if the payment day lies
   before the pay day and is one that some month lacks or ends on.
   */
  lemma TwoDuesShareAWindowExactlyWhen(payDay: int, paymentDay: int)
    requires 1 <= payDay <= 31
    ensures (exists income: Date, due: Date ::
               IsSet(income) && IsSet(due) && ShareAWindow(income, payDay, due, paymentDay))
            <==> 28 <= paymentDay < payDay
  {
    hide DayNumber, Clamp, Compare, ShareAWindow;
    if 28 <= paymentDay < payDay {
      var income := FebruaryShares(payDay, paymentDay);
    } else {
      forall income: Date, due: Date | IsSet(income) && IsSet(due)
        ensures !ShareAWindow(income, payDay, due, paymentDay)
      {
        OneDuePerWindow(income, payDay, due, paymentDay);
      }
    }
  }
}
