/**
 The simulator's state as values: loans, routed buckets, sums over them, and the facts about
 those sums that every event of a run relies on.
 */
module SimState {
  import opened Dates
  import opened Contracts
  import opened Portfolio
  import Amortisation
  import ProjectionMemo

  /** One loan's running figures. `due` and `required` are its current obligation. */
  datatype LoanState = LoanState(
    effect: PrepaymentEffect, timing: Timing,
    balance: int, accrued: nat, from: Date, carried: nat,
    due: Date, required: nat, pending: nat,
    allowance: map<int, int>, closed: bool, closedOn: Date)

  /** Money isolated for one destination until its gates open. */
  datatype CashBucket = CashBucket(target: string, remaining: nat, until: Date, minimum: int, released: bool, wake: Date)

  /** One reporting cycle; optional payments are counted without their fees. */
  datatype MonthState = MonthState(on: Date, required: int, extra: int, fees: int, interest: int, owed: int, cash: int,
                                   household: int)

  const EMPTY_MONTH: MonthState := MonthState(UNSET, 0, 0, 0, 0, 0, 0, 0)

  // ---------- Sums ----------

  function TotalBalance(loans: seq<LoanState>): int {
    if loans == [] then 0 else TotalBalance(loans[..|loans| - 1]) + loans[|loans| - 1].balance
  }

  function OpenBalance(loans: seq<LoanState>): int {
    if loans == [] then 0
    else OpenBalance(loans[..|loans| - 1]) + if loans[|loans| - 1].closed then 0 else loans[|loans| - 1].balance
  }

  function OpeningBalance(ps: seq<Position>): int {
    if ps == [] then 0 else OpeningBalance(ps[..|ps| - 1]) + ps[|ps| - 1].balance
  }

  function Restricted(buckets: seq<CashBucket>): nat {
    if buckets == [] then 0 else Restricted(buckets[..|buckets| - 1]) + buckets[|buckets| - 1].remaining
  }

  function TimelinePaid(timeline: seq<MonthState>): int {
    if timeline == [] then 0
    else
      var m := timeline[|timeline| - 1];
      TimelinePaid(timeline[..|timeline| - 1]) + m.required + m.extra + m.fees
  }

  lemma {:induction false} TotalBalanceUpdate(loans: seq<LoanState>, i: nat, l: LoanState)
    requires i < |loans|
    ensures TotalBalance(loans[i := l]) == TotalBalance(loans) - loans[i].balance + l.balance
  {
    var n := |loans| - 1;
    if i < n {
      assert loans[i := l][..n] == loans[..n][i := l];
      TotalBalanceUpdate(loans[..n], i, l);
    } else {
      assert loans[i := l][..n] == loans[..n];
    }
  }

  lemma {:induction false} RestrictedUpdate(buckets: seq<CashBucket>, i: nat, b: CashBucket)
    requires i < |buckets|
    ensures Restricted(buckets[i := b]) == Restricted(buckets) - buckets[i].remaining + b.remaining
  {
    var n := |buckets| - 1;
    if i < n {
      assert buckets[i := b][..n] == buckets[..n][i := b];
      RestrictedUpdate(buckets[..n], i, b);
    } else {
      assert buckets[i := b][..n] == buckets[..n];
    }
  }

  lemma RestrictedAppend(buckets: seq<CashBucket>, b: CashBucket)
    ensures Restricted(buckets + [b]) == Restricted(buckets) + b.remaining
  {
    assert (buckets + [b])[..|buckets|] == buckets;
  }

  lemma TimelineAppend(timeline: seq<MonthState>, m: MonthState)
    ensures TimelinePaid(timeline + [m]) == TimelinePaid(timeline) + m.required + m.extra + m.fees
  {
    assert (timeline + [m])[..|timeline|] == timeline;
  }

  /** Bucket money does not depend on the order the buckets are kept in. */
  lemma {:induction false} RestrictedIsOrderless(a: seq<CashBucket>, b: seq<CashBucket>)
    requires multiset(a) == multiset(b)
    ensures Restricted(a) == Restricted(b)
    decreases |a|
  {
    if b != [] {
      assert b[0] in multiset(b);
    }
    if a != [] {
      var n := |a| - 1;
      var x := a[n];
      assert a == a[..n] + [x];
      assert x in multiset(b);
      var k :| 0 <= k < |b| && b[k] == x;
      var rest := b[..k] + b[k + 1..];
      assert b == b[..k] + [x] + b[k + 1..];
      assert multiset(a[..n]) == multiset(a) - multiset{x};
      assert multiset(rest) == multiset(b) - multiset{x};
      RestrictedIsOrderless(a[..n], rest);
      RestrictedRemove(b, k);
    }
  }

  lemma {:induction false} RestrictedRemove(b: seq<CashBucket>, k: nat)
    requires k < |b|
    ensures Restricted(b) == Restricted(b[..k] + b[k + 1..]) + b[k].remaining
  {
    var n := |b| - 1;
    if k == n {
      assert b[..k] + b[k + 1..] == b[..n];
    } else {
      var rest := b[..k] + b[k + 1..];
      assert rest[..|rest| - 1] == b[..n][..k] + b[..n][k + 1..];
      RestrictedRemove(b[..n], k);
    }
  }

  // ---------- Reservations ----------

  /** Due before the next income: before its date, or in its month when there is no pay day. */
  predicate InWindow(l: LoanState, nextIncome: Date, incomeYM: int) {
    if IsSet(nextIncome) then Before(l.due, nextIncome) else YearMonth(l.due) == incomeYM
  }

  /** What one loan holds back from optional payments. */
  function Hold(l: LoanState, nextIncome: Date, incomeYM: int): nat {
    if l.closed then 0 else (if InWindow(l, nextIncome, incomeYM) then l.required else 0) + l.pending
  }

  function Reservations(loans: seq<LoanState>, nextIncome: Date, incomeYM: int): nat {
    if loans == [] then 0
    else Reservations(loans[..|loans| - 1], nextIncome, incomeYM) + Hold(loans[|loans| - 1], nextIncome, incomeYM)
  }

  lemma {:induction false} ReservationsUpdate(loans: seq<LoanState>, i: nat, l: LoanState, nextIncome: Date, incomeYM: int)
    requires i < |loans|
    ensures Reservations(loans[i := l], nextIncome, incomeYM)
            == Reservations(loans, nextIncome, incomeYM) - Hold(loans[i], nextIncome, incomeYM) + Hold(l, nextIncome, incomeYM)
    ensures Hold(loans[i], nextIncome, incomeYM) <= Reservations(loans, nextIncome, incomeYM)
  {
    hide Hold;
    var n := |loans| - 1;
    if i < n {
      assert loans[i := l][..n] == loans[..n][i := l];
      ReservationsUpdate(loans[..n], i, l, nextIncome, incomeYM);
    } else {
      assert loans[i := l][..n] == loans[..n];
    }
  }

  /** What one loan holds back from spending permission. */
  function Claim(l: LoanState, on: Date, end: Date): nat {
    if l.closed then 0 else (if !Before(l.due, on) && Before(l.due, end) then l.required else 0) + l.pending
  }

  function Claims(loans: seq<LoanState>, on: Date, end: Date): nat {
    if loans == [] then 0 else Claims(loans[..|loans| - 1], on, end) + Claim(loans[|loans| - 1], on, end)
  }

  lemma {:induction false} ClaimsUpdate(loans: seq<LoanState>, i: nat, l: LoanState, on: Date, end: Date)
    requires i < |loans|
    ensures Claims(loans[i := l], on, end) == Claims(loans, on, end) - Claim(loans[i], on, end) + Claim(l, on, end)
  {
    hide Claim;
    var n := |loans| - 1;
    if i < n {
      assert loans[i := l][..n] == loans[..n][i := l];
      ClaimsUpdate(loans[..n], i, l, on, end);
    } else {
      assert loans[i := l][..n] == loans[..n];
    }
  }

  // ---------- One loan's consistency ----------

  function LastDate(c: Contract): Date
    requires Amortisation.PaymentDates(c).Ok?
  {
    var dates := Amortisation.PaymentDates(c).value;
    dates[|dates| - 1]
  }

  /**
   A loan in a run: an open one owes a non-negative balance, is accrued no further than its
   due date, and that date is the next one of its calendar; a closed one owes nothing and
   was closed no later than its last contractual date.
   */
  ghost predicate LoanOk(p: Position, l: LoanState) {
    && (p.balance > 0 ==> Amortisation.PaymentDates(p.contract).Ok?)
    && (!l.closed ==> p.balance > 0 && OpenOk(p.contract, l))
    && (p.balance <= 0 ==> l.balance == p.balance)
    && (l.closed && p.balance > 0 ==>
          l.balance == 0 && l.accrued == 0 && !After(l.closedOn, LastDate(p.contract)))
  }

  /** A date on the contract's payment day, as its month clamps it. */
  predicate OnItsDay(c: Contract, d: Date)
    requires IsSet(d)
  {
    d == OnDayOfMonth(d, Amortisation.ContractDay(c))
  }

  ghost predicate OpenOk(c: Contract, l: LoanState)
    requires Amortisation.PaymentDates(c).Ok?
  {
    && l.balance >= 0 && IsSet(l.from) && IsSet(l.due) && YearMonth(l.due) > 12
    && !After(l.from, l.due) && !After(l.due, LastDate(c)) && OnItsDay(c, l.due)
    && (Before(l.from, l.due) ==>
          Amortisation.DatesAhead(c, l.from).Ok? && Amortisation.DatesAhead(c, l.from).value[0] == l.due)
  }

  /** Interest booked up to a date, in one rounded piece. */
  function Accrued(p: Position, l: LoanState, on: Date): LoanState
    requires IsSet(l.from) && IsSet(on)
  {
    if !After(on, l.from) || l.balance <= 0 then l
    else l.(accrued := l.accrued + p.contract.Interest(l.balance, DaysBetween(l.from, on)), from := on)
  }

  // ---------- Progress ----------

  /** Days left of a source of events before the horizon; none once it lies beyond. */
  function DaysLeft(horizon: int, d: Date): nat {
    if IsSet(d) && DayNumber(d) <= horizon then horizon + 1 - DayNumber(d) else 0
  }

  function LoanDaysLeft(horizon: int, loans: seq<LoanState>): nat {
    if loans == [] then 0
    else
      var l := loans[|loans| - 1];
      LoanDaysLeft(horizon, loans[..|loans| - 1]) + if l.closed then 0 else DaysLeft(horizon, l.due)
  }

  function WakeDaysLeft(horizon: int, buckets: seq<CashBucket>): nat {
    if buckets == [] then 0
    else WakeDaysLeft(horizon, buckets[..|buckets| - 1]) + DaysLeft(horizon, buckets[|buckets| - 1].wake)
  }

  /**
   How far a loan is from moving past its due date once that date is reached. An emptied
   balance with interest left, or promised money that is no longer there, can make a second
   due event on the same day.
   */
  function Stage(l: LoanState): nat {
    (if l.from == l.due then 0 else if l.balance > 0 then 1 else 2) + (if l.pending > 0 then 1 else 0)
  }

  /** Stages of the open loans due on one day. */
  function Stages(day: int, loans: seq<LoanState>): nat {
    if loans == [] then 0
    else
      var l := loans[|loans| - 1];
      Stages(day, loans[..|loans| - 1]) + if !l.closed && DayNumber(l.due) == day then Stage(l) else 0
  }

  /** The day of the earliest open due date; 0 when none is open. */
  function EarliestDue(loans: seq<LoanState>): nat {
    if loans == [] then 0
    else
      var before := EarliestDue(loans[..|loans| - 1]);
      var l := loans[|loans| - 1];
      if l.closed then before
      else if before == 0 || DayNumber(l.due) < before then DayNumber(l.due) else before
  }

  lemma {:induction false} EarliestDueIs(loans: seq<LoanState>, day: nat, i: nat)
    requires i < |loans| && !loans[i].closed && DayNumber(loans[i].due) == day && day > 0
    requires forall j :: 0 <= j < |loans| && !loans[j].closed ==> DayNumber(loans[j].due) >= day
    ensures EarliestDue(loans) == day
  {
    hide DayNumber;
    var n := |loans| - 1;
    if i < n {
      EarliestDueIs(loans[..n], day, i);
    } else {
      EarliestIsAtLeast(loans[..n], day);
    }
  }

  lemma {:induction false} EarliestIsAtLeast(loans: seq<LoanState>, day: nat)
    requires day > 0
    requires forall j :: 0 <= j < |loans| && !loans[j].closed ==> DayNumber(loans[j].due) >= day
    ensures EarliestDue(loans) == 0 || EarliestDue(loans) >= day
  {
    hide DayNumber;
    if loans != [] {
      EarliestIsAtLeast(loans[..|loans| - 1], day);
    }
  }

  /** What one day may do to a loan: close it, accrue it to the day, move a date that is reached. */
  predicate Moves(l: LoanState, l': LoanState, day: int) {
    && (l.closed ==> l'.closed)
    && (!l'.closed ==>
          && (l'.from == l.from || DayNumber(l'.from) == day)
          && (l'.due == l.due || (DayNumber(l.due) == day && DayNumber(l'.due) > day)))
  }

  /** A move that brings no loan due that day further from moving on. */
  predicate Drifts(l: LoanState, l': LoanState, day: int) {
    Moves(l, l', day) && (!l'.closed && l'.due == l.due && DayNumber(l.due) == day ==> Stage(l') <= Stage(l))
  }

  predicate AllMove(loans: seq<LoanState>, loans': seq<LoanState>, day: int) {
    |loans| == |loans'| && forall i :: 0 <= i < |loans| ==> Moves(loans[i], loans'[i], day)
  }

  predicate AllDrift(loans: seq<LoanState>, loans': seq<LoanState>, day: int) {
    |loans| == |loans'| && forall i :: 0 <= i < |loans| ==> Drifts(loans[i], loans'[i], day)
  }

  lemma DriftIsMove(a: seq<LoanState>, b: seq<LoanState>, day: int)
    requires AllDrift(a, b, day)
    ensures AllMove(a, b, day)
  {
    hide DayNumber, Stage, Moves;
  }

  lemma MoveOfOne(a: seq<LoanState>, b: seq<LoanState>, i: nat, day: int)
    requires AllMove(a, b, day) && i < |a|
    ensures Moves(a[i], b[i], day)
  {
    hide Moves;
  }

  lemma DriftsOn(a: LoanState, b: LoanState, c: LoanState, day: int)
    requires Drifts(a, b, day) && Drifts(b, c, day)
    ensures Drifts(a, c, day)
  {
    hide DayNumber;
  }

  lemma DriftOfOne(a: seq<LoanState>, b: seq<LoanState>, i: nat, day: int)
    requires AllDrift(a, b, day) && i < |a|
    ensures Drifts(a[i], b[i], day)
  {
    hide Drifts;
  }

  lemma AllMoveIsTransitive(a: seq<LoanState>, b: seq<LoanState>, c: seq<LoanState>, day: int)
    requires AllMove(a, b, day) && AllMove(b, c, day)
    ensures AllMove(a, c, day)
  {
    hide DayNumber;
    forall i | 0 <= i < |a| ensures Moves(a[i], c[i], day) {
      assert Moves(a[i], b[i], day) && Moves(b[i], c[i], day);
    }
  }

  lemma AllDriftIsTransitive(a: seq<LoanState>, b: seq<LoanState>, c: seq<LoanState>, day: int)
    requires AllDrift(a, b, day) && AllDrift(b, c, day)
    ensures AllDrift(a, c, day)
  {
    hide DayNumber, Stage;
    forall i | 0 <= i < |a| ensures Drifts(a[i], c[i], day) {
      assert Drifts(a[i], b[i], day) && Drifts(b[i], c[i], day);
    }
  }

  /** Moving never lengthens the run ahead. */
  lemma {:induction false} MovesKeepDaysLeft(horizon: int, a: seq<LoanState>, b: seq<LoanState>, day: int)
    requires AllMove(a, b, day) && day > 0
    ensures LoanDaysLeft(horizon, b) <= LoanDaysLeft(horizon, a)
  {
    hide DayNumber, DaysLeft, Moves;
    if a != [] {
      var n := |a| - 1;
      MoveKeepsOne(horizon, a[n], b[n], day);
      MovesKeepDaysLeft(horizon, a[..n], b[..n], day);
    }
  }

  lemma MoveKeepsOne(horizon: int, l: LoanState, l': LoanState, day: int)
    requires Moves(l, l', day) && day > 0
    ensures (if l'.closed then 0 else DaysLeft(horizon, l'.due)) <= (if l.closed then 0 else DaysLeft(horizon, l.due))
  {
    hide DayNumber;
  }

  /** A loan that moved on from its due date leaves strictly fewer days. */
  lemma {:induction false} MovedOn(horizon: int, a: seq<LoanState>, b: seq<LoanState>, day: int, i: nat)
    requires AllMove(a, b, day) && i < |a| && !a[i].closed && DayNumber(a[i].due) == day <= horizon && day > 0
    requires b[i].closed || DayNumber(b[i].due) > day
    ensures LoanDaysLeft(horizon, b) < LoanDaysLeft(horizon, a)
  {
    hide DayNumber, Moves;
    var n := |a| - 1;
    MoveKeepsOne(horizon, a[n], b[n], day);
    if i < n {
      MovedOn(horizon, a[..n], b[..n], day, i);
    } else {
      MovesKeepDaysLeft(horizon, a[..n], b[..n], day);
    }
  }

  /** Where no loan due that day moved on, drifting lowers the sum of stages with the stage of one loan. */
  lemma {:induction false} StageFell(a: seq<LoanState>, b: seq<LoanState>, day: int, i: int)
    requires AllDrift(a, b, day) && i < |a|
    requires i >= 0 ==> !a[i].closed && !b[i].closed && DayNumber(a[i].due) == DayNumber(b[i].due) == day
                        && Stage(b[i]) < Stage(a[i])
    ensures Stages(day, b) <= Stages(day, a) && (i >= 0 ==> Stages(day, b) < Stages(day, a))
  {
    hide DayNumber, Stage, Moves;
    if a != [] {
      var n := |a| - 1;
      DriftKeepsStage(a[n], b[n], day);
      StageFell(a[..n], b[..n], day, if i < n then i else -1);
    }
  }

  lemma DriftKeepsStage(l: LoanState, l': LoanState, day: int)
    requires Drifts(l, l', day)
    ensures (if !l'.closed && DayNumber(l'.due) == day then Stage(l') else 0)
            <= (if !l.closed && DayNumber(l.due) == day then Stage(l) else 0)
  {
    hide DayNumber, Stage;
    if !l'.closed && DayNumber(l'.due) == day {
      CompareIsDayOrder(l'.due, l.due);
    }
  }

  // ---------- Steps of one loan ----------

  ghost predicate LoansOk(ps: seq<Position>, loans: seq<LoanState>) {
    |ps| == |loans| && forall i :: 0 <= i < |loans| ==> LoanOk(ps[i], loans[i])
  }

  ghost predicate DuesFrom(loans: seq<LoanState>, day: int) {
    forall i :: 0 <= i < |loans| && !loans[i].closed ==> DayNumber(loans[i].due) >= day
  }

  lemma {:induction false} PassedStays(c: Contract, dates: seq<Date>, from: Date, on: Date)
    requires IsSet(from) && !After(from, on)
    requires var r := Amortisation.Remaining(c, dates, from); r != [] && Before(on, r[0])
    ensures Amortisation.Remaining(c, dates, on) == Amortisation.Remaining(c, dates, from)
  {
    hide DayNumber;
    if dates != [] && Amortisation.Passed(c, dates[0], from) {
      PassedStays(c, dates[1..], from, on);
    }
  }

  /** Moving the anchor up to, but not onto, the next date leaves that date next. */
  lemma NextDateStays(c: Contract, from: Date, on: Date)
    requires Amortisation.DatesAhead(c, from).Ok? && IsSet(from) && !After(from, on)
    requires Before(on, Amortisation.DatesAhead(c, from).value[0])
    ensures Amortisation.DatesAhead(c, on) == Amortisation.DatesAhead(c, from)
  {
    hide DayNumber, Amortisation.Remaining, Amortisation.PaymentDates;
    PassedStays(c, Amortisation.PaymentDates(c).value, from, on);
  }

  lemma {:induction false} EarlierKeepsDates(c: Contract, dates: seq<Date>, from: Date, on: Date)
    requires IsSet(from) && !After(from, on)
    ensures |Amortisation.Remaining(c, dates, on)| <= |Amortisation.Remaining(c, dates, from)|
  {
    hide DayNumber;
    if dates != [] && Amortisation.Passed(c, dates[0], on) {
      EarlierKeepsDates(c, dates[1..], from, on);
      Amortisation.RemainingIsASuffix(c, dates[1..], from);
    }
  }

  /** Dates ahead of a later day are ahead of an earlier one. */
  lemma EarlierHasDates(c: Contract, from: Date, on: Date)
    requires IsSet(from) && !After(from, on) && Amortisation.DatesAhead(c, on).Ok?
    ensures Amortisation.DatesAhead(c, from).Ok?
  {
    hide DayNumber, Amortisation.Remaining, Amortisation.PaymentDates;
    EarlierKeepsDates(c, Amortisation.PaymentDates(c).value, from, on);
  }

  /** The next date is after the anchor and not past the last contractual date. */
  lemma NextDateIsInCalendar(c: Contract, from: Date)
    requires IsSet(from) && Amortisation.DatesAhead(c, from).Ok?
    ensures Amortisation.PaymentDates(c).Ok?
    ensures var due := Amortisation.DatesAhead(c, from).value[0];
            IsSet(due) && Before(from, due) && !After(due, LastDate(c)) && YearMonth(due) > 12 && OnItsDay(c, due)
  {
    hide DayNumber, Amortisation.Remaining, Amortisation.PaymentDates, Clamp, Compare;
    Amortisation.DatesAheadAreAhead(c, from);
    Amortisation.PaymentDatesAreTheOccurrences(c);
    var all, dates := Amortisation.PaymentDates(c).value, Amortisation.DatesAhead(c, from).value;
    var k := |all| - |dates|;
    assert dates[0] == all[k] == Occurrence(c.start, Amortisation.ContractDay(c), k + 1);
    if k < |all| - 1 {
      OccurrencesIncrease(c.start, Amortisation.ContractDay(c), k + 1, |all|);
    }
  }

  /** Booking interest keeps a loan consistent and can only lower its stage. */
  lemma AccrualKeepsLoan(p: Position, l: LoanState, on: Date)
    requires LoanOk(p, l) && !l.closed && IsSet(on) && !After(on, l.due)
    ensures LoanOk(p, Accrued(p, l, on)) && Drifts(l, Accrued(p, l, on), DayNumber(on))
    ensures var l' := Accrued(p, l, on);
            && !l'.closed && l'.balance == l.balance && l'.due == l.due && l'.required == l.required
            && l'.carried == l.carried && l'.pending == l.pending && (l'.balance > 0 ==> !Before(l'.from, on))
            && (l'.from == l.from || l'.from == on)
            && !After(l'.from, l'.due)
  {
    hide DayNumber, Contract.Interest, Amortisation.DatesAhead, LastDate, DaysBetween;
    var l' := Accrued(p, l, on);
    if l' != l {
      if Before(on, l.due) {
        NextDateStays(p.contract, l.from, on);
      } else {
        CompareIsDayOrder(on, l.due);
      }
    }
  }

  /** Interest booked on whatever balance there is; nothing happens to an empty or closed loan. */
  function BookedTo(p: Position, l: LoanState, on: Date): LoanState
    requires IsSet(on) && (l.balance > 0 ==> IsSet(l.from))
  {
    if l.balance <= 0 then l else Accrued(p, l, on)
  }

  /** A loan after its due payment: interest first, then principal; when nothing is left it is retired. */
  function Paid(l: LoanState, required: nat, on: Date): LoanState {
    var paid := l.(balance := l.balance - (required - l.accrued), accrued := 0);
    if paid.balance <= 0 then Retired(paid, on) else paid
  }

  /** A due payment keeps a loan consistent; with part of the debt left, its date and promises stay. */
  lemma PaymentKeepsLoan(p: Position, l: LoanState, required: nat, on: Date)
    requires LoanOk(p, l) && p.balance > 0 && IsSet(on) && l.balance >= 0 && required <= l.balance + l.accrued
    requires if l.closed then !After(on, LastDate(p.contract)) else !After(on, l.due)
    ensures LoanOk(p, Paid(l, required, on)) && Drifts(l, Paid(l, required, on), DayNumber(on))
    ensures Paid(l, required, on).closed <==> l.closed || required == l.balance + l.accrued
  {
    hide DayNumber, LastDate, Amortisation.DatesAhead;
  }

  /** A loan after an optional payment was credited and, when it closes the loan, retired. */
  function Prepaid(l: LoanState, on: Date, year: int, principal: nat, closes: bool): LoanState {
    var used := if year in l.allowance then l.allowance[year] else 0;
    var credited := l.(allowance := l.allowance[year := used + principal], balance := l.balance - principal);
    if closes then Retired(credited.(accrued := 0), on) else credited
  }

  function Retired(l: LoanState, on: Date): LoanState {
    l.(closed := true, closedOn := on, balance := 0)
  }

  lemma PrepaymentKeepsLoan(p: Position, l: LoanState, on: Date, year: int, principal: nat, closes: bool)
    requires LoanOk(p, l) && !l.closed && IsSet(on) && !After(on, l.due)
    requires principal <= l.balance && (closes ==> principal == l.balance)
    requires l.balance > 0 ==> !Before(l.from, on)
    ensures LoanOk(p, Prepaid(l, on, year, principal, closes))
    ensures Drifts(l, Prepaid(l, on, year, principal, closes), DayNumber(on))
  {
    hide DayNumber, Amortisation.DatesAhead, LastDate;
    CompareIsDayOrder(l.from, l.due);
    CompareIsDayOrder(on, l.due);
  }

  /** Money promised to a due date is no part of a loan's consistency. */
  lemma PendingKeepsLoan(p: Position, l: LoanState, pending: nat, day: int)
    requires LoanOk(p, l)
    ensures LoanOk(p, l.(pending := pending)) && Moves(l, l.(pending := pending), day)
    ensures pending <= l.pending ==> Drifts(l, l.(pending := pending), day)
  {
    hide DayNumber, LastDate, Amortisation.DatesAhead;
  }

  /** A loan with a fresh obligation; the instalment is fixed the first time it is known. */
  function Refreshed(l: LoanState, o: Amortisation.Obligation): LoanState
    requires o.payment >= 0 && o.instalment >= 0
  {
    l.(carried := if l.carried == 0 then o.instalment else l.carried, due := o.due, required := o.payment)
  }

  function TermsOf(l: LoanState): ProjectionMemo.Terms {
    ProjectionMemo.Terms(l.balance, l.from, l.effect, l.carried)
  }

  /** A projection asked for while dates are ahead names the next one and a non-negative payment. */
  lemma ObligationIsNext(c: Contract, l: LoanState)
    requires IsSet(l.from) && Amortisation.DatesAhead(c, l.from).Ok?
    requires ProjectionMemo.NextFor(c, TermsOf(l)).Ok?
    ensures var o := ProjectionMemo.NextFor(c, TermsOf(l)).value;
            o.due == Amortisation.DatesAhead(c, l.from).value[0] && o.payment >= 0 && o.instalment >= 0
  {
    hide DayNumber, Amortisation.DatesAhead, Amortisation.Next;
    if !ProjectionMemo.Fixed(c, TermsOf(l)) {
      Amortisation.NextIsAhead(c, l.balance, l.from);
    }
  }

  /** A first projection exists only while a date is ahead. */
  lemma ObligationNeedsADate(c: Contract, t: ProjectionMemo.Terms)
    requires IsSet(t.from) && ProjectionMemo.NextFor(c, t).Ok?
    requires !ProjectionMemo.Fixed(c, t) || Amortisation.DatesAhead(c, t.from).Ok?
    ensures Amortisation.DatesAhead(c, t.from).Ok?
  {
    hide DayNumber, Amortisation.DatesAhead, Amortisation.Next;
    if !ProjectionMemo.Fixed(c, t) {
      Amortisation.NextIsAhead(c, t.balance, t.from);
    }
  }

  lemma RefreshKeepsLoan(p: Position, l: LoanState)
    requires p.balance > 0 && !l.closed && l.balance >= 0
    requires IsSet(l.from) && Amortisation.DatesAhead(p.contract, l.from).Ok?
    requires ProjectionMemo.NextFor(p.contract, TermsOf(l)).Ok?
    ensures var o := ProjectionMemo.NextFor(p.contract, TermsOf(l)).value;
            && o.payment >= 0 && o.instalment >= 0
            && LoanOk(p, Refreshed(l, o))
            && o.due == Amortisation.DatesAhead(p.contract, l.from).value[0] && Before(l.from, o.due)
  {
    hide DayNumber, Amortisation.DatesAhead, LastDate, ProjectionMemo.NextFor;
    ObligationIsNext(p.contract, l);
    NextDateIsInCalendar(p.contract, l.from);
  }

  /** A fresh obligation moves a loan off a date it has been accrued to, and otherwise names the same date. */
  lemma RefreshMoves(p: Position, l: LoanState, on: Date)
    requires p.balance > 0 && LoanOk(p, l) && !l.closed && IsSet(on) && !After(on, l.due) && !After(l.from, on)
    requires Amortisation.DatesAhead(p.contract, l.from).Ok?
    requires ProjectionMemo.NextFor(p.contract, TermsOf(l)).Ok?
    ensures var o := ProjectionMemo.NextFor(p.contract, TermsOf(l)).value;
            && o.payment >= 0 && o.instalment >= 0
            && Drifts(l, Refreshed(l, o), DayNumber(on))
            && (l.from == on ==> After(o.due, on))
            && (Before(l.from, l.due) ==> o.due == l.due)
  {
    hide DayNumber, Amortisation.DatesAhead, LastDate, ProjectionMemo.NextFor;
    RefreshKeepsLoan(p, l);
    CompareIsDayOrder(l.due, on);
    CompareIsDayOrder(l.from, l.due);
    CompareIsDayOrder(l.from, on);
  }

  // ---------- Changing one loan ----------

  /** What replacing one loan does to every sum over the loans. */
  lemma SwapLoan(loans: seq<LoanState>, i: nat, l: LoanState, nextIncome: Date, incomeYM: int)
    requires i < |loans|
    ensures TotalBalance(loans[i := l]) == TotalBalance(loans) - loans[i].balance + l.balance
    ensures Reservations(loans[i := l], nextIncome, incomeYM)
            == Reservations(loans, nextIncome, incomeYM) - Hold(loans[i], nextIncome, incomeYM) + Hold(l, nextIncome, incomeYM)
  {
    TotalBalanceUpdate(loans, i, l);
    ReservationsUpdate(loans, i, l, nextIncome, incomeYM);
  }

  lemma NothingDrifts(loans: seq<LoanState>, day: int)
    ensures AllDrift(loans, loans, day)
  {
  }

  lemma OneMoves(loans: seq<LoanState>, i: nat, l: LoanState, day: int)
    requires i < |loans| && Moves(loans[i], l, day)
    ensures AllMove(loans, loans[i := l], day)
  {
    hide DayNumber;
  }

  lemma OneDrifts(loans: seq<LoanState>, i: nat, l: LoanState, day: int)
    requires i < |loans| && Drifts(loans[i], l, day)
    ensures AllDrift(loans, loans[i := l], day)
  {
    hide DayNumber, Stage;
  }

  lemma MovesKeepDues(loans: seq<LoanState>, loans': seq<LoanState>, day: int)
    requires AllMove(loans, loans', day) && DuesFrom(loans, day)
    ensures DuesFrom(loans', day)
  {
    hide DayNumber;
    forall i | 0 <= i < |loans'| && !loans'[i].closed
      ensures DayNumber(loans'[i].due) >= day
    {
      assert Moves(loans[i], loans'[i], day);
    }
  }

  // ---------- What is left to do ----------

  /** The earliest due date waits for income: no income has come in its month. */
  predicate Waits(loans: seq<LoanState>, incomeYM: int) {
    exists i :: 0 <= i < |loans| && !loans[i].closed && DayNumber(loans[i].due) == EarliestDue(loans)
      && YearMonth(loans[i].due) != incomeYM
  }

  /** What is left of a run, most significant part first. */
  datatype Work = Work(lumps: nat, days: nat, waiting: nat, stages: nat) {
    predicate Below(w: Work) {
      lumps < w.lumps || (lumps == w.lumps && (days < w.days || (days == w.days &&
        (waiting < w.waiting || (waiting == w.waiting && stages < w.stages)))))
    }
  }

  function LoanWork(horizon: int, loans: seq<LoanState>, incomeYM: int): (w: Work)
    ensures w.lumps == 0
  {
    Work(0, LoanDaysLeft(horizon, loans), if Waits(loans, incomeYM) then 1 else 0, Stages(EarliestDue(loans), loans))
  }

  /** Settling the earliest due leaves less to do, even where the same due date comes up again. */
  lemma DueLowersWork(horizon: int, a: seq<LoanState>, b: seq<LoanState>, i: nat, on: Date, ym: int, ym': int)
    requires IsSet(on) && i < |a| && !a[i].closed && a[i].due == on && DayNumber(on) <= horizon
    requires DuesFrom(a, DayNumber(on)) && DuesFrom(b, DayNumber(on)) && AllMove(a, b, DayNumber(on))
    requires b[i].closed || After(b[i].due, on) || (ym != YearMonth(on) == ym')
             || (ym == ym' && AllDrift(a, b, DayNumber(on)) && Stage(b[i]) < Stage(a[i]))
    ensures LoanWork(horizon, b, ym').Below(LoanWork(horizon, a, ym))
  {
    hide DayNumber, Moves, Stage, Stages, LoanDaysLeft, EarliestDue, AllDrift;
    var day := DayNumber(on);
    if b[i].closed || After(b[i].due, on) {
      MovedOn(horizon, a, b, day, i);
    } else {
      MovesKeepDaysLeft(horizon, a, b, day);
      CompareIsDayOrder(b[i].due, on);
      EarliestDueIs(a, day, i);
      EarliestDueIs(b, day, i);
      WaitsOnDay(a, i, on, ym);
      WaitsOnDay(b, i, on, ym');
      if ym == ym' {
        StageFell(a, b, day, i);
      }
    }
  }

  lemma WaitsOnDay(loans: seq<LoanState>, i: nat, on: Date, ym: int)
    requires i < |loans| && !loans[i].closed && loans[i].due == on && EarliestDue(loans) == DayNumber(on)
    ensures Waits(loans, ym) <==> YearMonth(on) != ym
  {
    hide DayNumber, EarliestDue;
    forall j | 0 <= j < |loans| && DayNumber(loans[j].due) == DayNumber(on)
      ensures loans[j].due == on
    {
      CompareIsDayOrder(loans[j].due, on);
    }
  }

  // ---------- Wakes ----------

  /** A bucket's next reconsideration only moves later or away. */
  predicate WakeMoves(b: CashBucket, b': CashBucket) {
    !IsSet(b'.wake) || (IsSet(b.wake) && !Before(b'.wake, b.wake))
  }

  predicate WakesMove(bs: seq<CashBucket>, bs': seq<CashBucket>) {
    |bs| == |bs'| && forall k :: 0 <= k < |bs| ==> WakeMoves(bs[k], bs'[k])
  }

  lemma NothingMoves(loans: seq<LoanState>, buckets: seq<CashBucket>, day: int)
    ensures AllMove(loans, loans, day) && WakesMove(buckets, buckets)
  {
  }

  lemma WakesMoveIsTransitive(a: seq<CashBucket>, b: seq<CashBucket>, c: seq<CashBucket>)
    requires WakesMove(a, b) && WakesMove(b, c)
    ensures WakesMove(a, c)
  {
    hide DayNumber;
    forall k | 0 <= k < |a| ensures WakeMoves(a[k], c[k]) {
      assert WakeMoves(a[k], b[k]) && WakeMoves(b[k], c[k]);
    }
  }

  lemma WakesHaveCounterparts(bs: seq<CashBucket>, bs': seq<CashBucket>)
    requires WakesMove(bs, bs')
    ensures |bs| == |bs'|
  {
  }

  lemma {:induction false} WakesMoveKeepsDaysLeft(horizon: int, bs: seq<CashBucket>, bs': seq<CashBucket>)
    requires WakesMove(bs, bs')
    ensures WakeDaysLeft(horizon, bs') <= WakeDaysLeft(horizon, bs)
  {
    hide DayNumber;
    if bs != [] {
      var n := |bs| - 1;
      assert WakeMoves(bs[n], bs'[n]);
      WakesMoveKeepsDaysLeft(horizon, bs[..n], bs'[..n]);
    }
  }

  /** Once a bucket's wake has been dealt with, strictly fewer days are left. */
  lemma {:induction false} WakeMovesOn(horizon: int, bs: seq<CashBucket>, bs': seq<CashBucket>, k: nat)
    requires WakesMove(bs, bs') && k < |bs|
    requires IsSet(bs[k].wake) && DayNumber(bs[k].wake) <= horizon
    requires !IsSet(bs'[k].wake) || After(bs'[k].wake, bs[k].wake)
    ensures WakeDaysLeft(horizon, bs') < WakeDaysLeft(horizon, bs)
  {
    hide DayNumber;
    var n := |bs| - 1;
    assert WakeMoves(bs[n], bs'[n]);
    if k < n {
      WakeMovesOn(horizon, bs[..n], bs'[..n], k);
    } else {
      WakesMoveKeepsDaysLeft(horizon, bs[..n], bs'[..n]);
    }
  }
}
