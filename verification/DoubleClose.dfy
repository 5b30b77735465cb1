/**
 A due date can close its loan twice. Where there is no pay day, the first due of a month brings
 the month's income, and reconsidering routed cash then may pay the loan off before its own due
 is settled; settling asks nothing of it and retires it a second time. Under a kept rollover the
 budget then gives up the loan's instalment twice. This module proves exactly when, and shows a
 family of accepted inputs, and a run of one of them, where it happens.
 */
module DoubleClose {
  import opened Dates
  import opened Contracts
  import opened Portfolio
  import opened SimState
  import opened Routing
  import opened Fees
  import opened LoanDues
  import opened Flow
  import Amortisation
  import opened Examples
  import PlainRun
  import ProjectionMemo

  // ---------- Routed cash before a due is settled ----------

  /** What a bucket could spend on a loan. */
  function Offerable(w: World, s: Snap, k: nat, on: Date): int
    requires k < |s.buckets| && IsDay(on)
  {
    var money := s.buckets[k].remaining;
    var surplus := SurplusIn(w, s.(cash := s.cash + money), on);
    if surplus > money then money else surplus
  }

  /** At its turn a bucket is for this loan, may be spent, and covers the loan's pay-off. */
  predicate PaysOff(w: World, s: Snap, k: nat, i: nat, on: Date)
    requires Over(w, s) && k < |s.buckets| && i < |s.loans| && IsDay(on)
  {
    var b, p := Reconsidered(s.buckets[k], on), w.input.loans[i];
    var kept := s.(buckets := s.buckets[k := b]);
    && Spendable(b, on) && b.target != "" && !w.policy.requiredOnly && LoanNamed(w.input.loans, b.target, 0) == i
    && Offerable(w, kept, k, on) > 0
    && var q := QuoteOf(p, AccruedTo(p, s.loans[i], on), on, Offerable(w, kept, k, on));
       q.Ok? && q.value.closes && 0 < q.value.outflow
  }

  /** One bucket's turn closes a loan due that day exactly when the bucket pays it off. */
  lemma TurnClosesExactlyWhen(w: World, s: Snap, k: nat, i: nat, on: Date)
    requires Over(w, s) && k < |s.buckets| && i < |s.loans| && IsDay(on)
    requires s.err.None? && !s.loans[i].closed && s.loans[i].due == on && s.loans[i].balance >= 0
    ensures var one := RoutedOne(w, s, k, on, -1);
            && (one.loans[i].closed <==> PaysOff(w, s, k, i, on))
            && Unasked(s.loans[i], one.loans[i]) && one.loans[i].balance >= 0
            && (one.loans[i].closed ==> one.loans[i].balance == 0 == one.loans[i].accrued)
  {
    hide SurplusIn, QuoteFor, AllowanceUsed, Reconsidered, Spendable, Before;
    var b := Reconsidered(s.buckets[k], on);
    var kept := s.(buckets := s.buckets[k := b]);
    if Spendable(b, on) && b.target != "" && !w.policy.requiredOnly {
      var j := LoanNamed(w.input.loans, b.target, 0);
      if j >= 0 && !s.loans[j].closed {
        DueIsNotBefore(on);
        SpendingIs(w, kept, k, j, on, i);
      }
    }
  }

  lemma DueIsNotBefore(on: Date)
    ensures !Before(on, on)
  {
  }

  /** Spending a bucket on one loan closes that loan exactly when its quote does, and leaves every other. */
  lemma SpendingIs(w: World, s: Snap, k: nat, j: nat, on: Date, i: nat)
    requires Over(w, s) && k < |s.buckets| && j < |s.loans| && i < |s.loans| && IsDay(on) && !s.loans[j].closed
    requires s.err.None? && s.loans[i].due == on && s.loans[i].balance >= 0
    ensures var r := RoutedTo(w, s, k, j, on, -1);
            && r.loans[i].due == on && r.loans[i].carried == s.loans[i].carried && r.loans[i].required == s.loans[i].required
            && (i != j ==> r.loans[i] == s.loans[i])
            && (i == j ==>
                  var available := Offerable(w, s, k, on);
                  var q := QuoteOf(w.input.loans[i], AccruedTo(w.input.loans[i], s.loans[i], on), on, available);
                  && (r.loans[i].closed <==> available > 0 && q.Ok? && q.value.closes && 0 < q.value.outflow)
                  && r.loans[i].balance >= 0 && (r.loans[i].closed ==> r.loans[i].balance == 0 == r.loans[i].accrued))
  {
    hide SurplusIn, QuoteFor, AllowanceUsed, ContractYear, AccruedTo, QuoteOf, BucketSpent, Prepaid, Before;
    var p, l, available := w.input.loans[j], s.loans[j], Offerable(w, s, k, on);
    DueIsNotBefore(on);
    BookingKeepsDates(p, l, on);
    if available > 0 {
      QuoteIsWithin(p, AccruedTo(p, l, on), on, available);
      var (asked, q) := Quoted(w, s, j, on, available);
      if asked.err.None? && 0 < q.outflow <= asked.buckets[k].remaining {
        SpentLoan(w, asked, k, j, on, q, j as int != -1 && l.timing == OnReceipt && Before(on, l.due));
        PrepaidIs(asked.loans[j], on, ContractYear(p.contract, on), q.principal, q.closes);
      }
    }
  }

  lemma BookingKeepsDates(p: Position, l: LoanState, on: Date)
    requires IsSet(on)
    ensures var l' := AccruedTo(p, l, on);
            && l'.due == l.due && l'.carried == l.carried && l'.required == l.required && l'.balance == l.balance
            && l'.closed == l.closed && l'.timing == l.timing
  {
  }

  lemma QuoteIsWithin(p: Position, l: LoanState, on: Date, available: nat)
    ensures QuoteOf(p, l, on, available).Ok? ==>
              var q := QuoteOf(p, l, on, available).value;
              q.outflow <= available && (q.principal <= l.balance || l.balance < 0) && (l.balance < 0 ==> q == NOTHING)
  {
    hide QuoteFor, AllowanceUsed;
    if l.balance >= 0 {
      QuoteStaysWithinAllowance(p.contract, on, l.balance, l.accrued, AllowanceUsed(p, l, on), available);
    }
  }

  lemma PrepaidLoan(w: World, s: Snap, i: nat, on: Date, q: Quote, early: bool)
    requires Over(w, s) && i < |s.loans|
    ensures Prepaying(w, s, i, on, q, early).loans
            == s.loans[i := Prepaid(s.loans[i], on, ContractYear(w.input.loans[i].contract, on), q.principal, q.closes)]
  {
    hide ContractYear, ResultCredited, MonthCredited, Cleared, BudgetAfter, Freed, Counted;
  }

  lemma SpentLoan(w: World, s: Snap, k: nat, i: nat, on: Date, q: Quote, early: bool)
    requires Over(w, s) && i < |s.loans| && k < |s.buckets| && q.outflow <= s.buckets[k].remaining
    ensures BucketSpent(w, s, k, i, on, -1, q, early).loans
            == s.loans[i := Prepaid(s.loans[i], on, ContractYear(w.input.loans[i].contract, on), q.principal, q.closes)]
  {
    hide ContractYear, Prepaying, Prepaid;
    PrepaidLoan(w, Moved(s, k, q.outflow), i, on, q, early);
  }

  lemma PrepaidIs(l: LoanState, on: Date, year: int, principal: nat, closes: bool)
    ensures var l' := Prepaid(l, on, year, principal, closes);
            && (l'.closed <==> l.closed || closes) && l'.due == l.due && l'.carried == l.carried && l'.required == l.required
            && (if closes then l'.balance == 0 == l'.accrued else l'.balance == l.balance - principal)
  {
  }

  /** Some bucket, when its turn comes, pays the loan off. */
  predicate PaidOffFrom(w: World, s: Snap, k: nat, i: nat, on: Date)
    requires Over(w, s) && k <= |s.buckets| && i < |s.loans| && IsDay(on)
    decreases |s.buckets| - k
  {
    k < |s.buckets| &&
    (PaysOff(w, s, k, i, on) ||
     (var one := RoutedOne(w, s, k, on, -1);
      one.err.None? && PaidOffFrom(w, one, k + 1, i, on)))
  }

  /** What a loan would still ask for and free; what closing it twice turns on. */
  predicate Unasked(l: LoanState, l': LoanState) {
    l'.due == l.due && l'.carried == l.carried && l'.required == l.required
  }

  /** A closed loan is left as it is by every bucket. */
  lemma TurnKeepsClosed(w: World, s: Snap, k: nat, i: nat, on: Date)
    requires Over(w, s) && k < |s.buckets| && i < |s.loans| && IsDay(on)
    requires s.err.None? && s.loans[i].closed && s.loans[i].due == on && s.loans[i].balance >= 0
    ensures RoutedOne(w, s, k, on, -1).loans[i] == s.loans[i]
  {
    hide RoutedTo, Reconsidered, Spendable, Offerable, QuoteOf, AccruedTo;
    var b := Reconsidered(s.buckets[k], on);
    var j := LoanNamed(w.input.loans, b.target, 0);
    if j >= 0 && !s.loans[j].closed {
      SpendingIs(w, s.(buckets := s.buckets[k := b]), k, j, on, i);
    }
  }

  lemma {:induction false} WalkKeepsClosed(w: World, s: Snap, k: nat, i: nat, on: Date)
    requires Over(w, s) && k <= |s.buckets| && i < |s.loans| && IsDay(on)
    requires s.err.None? && s.loans[i].closed && s.loans[i].due == on && s.loans[i].balance >= 0
    ensures RoutedFrom(w, s, k, on, -1).loans[i] == s.loans[i]
    decreases |s.buckets| - k
  {
    hide RoutedOne;
    if k < |s.buckets| {
      TurnKeepsClosed(w, s, k, i, on);
      var one := RoutedOne(w, s, k, on, -1);
      if one.err.None? {
        WalkKeepsClosed(w, one, k + 1, i, on);
      }
    }
  }

  lemma {:induction false} WalkClosesExactlyWhen(w: World, s: Snap, k: nat, i: nat, on: Date)
    requires Over(w, s) && k <= |s.buckets| && i < |s.loans| && IsDay(on)
    requires s.err.None? && !s.loans[i].closed && s.loans[i].due == on && s.loans[i].balance >= 0
    ensures var r := RoutedFrom(w, s, k, on, -1);
            && (r.loans[i].closed <==> PaidOffFrom(w, s, k, i, on)) && Unasked(s.loans[i], r.loans[i])
            && r.loans[i].balance >= 0 && (r.loans[i].closed ==> r.loans[i].balance == 0 == r.loans[i].accrued)
    decreases |s.buckets| - k
  {
    hide RoutedOne, PaysOff;
    if k < |s.buckets| {
      TurnClosesExactlyWhen(w, s, k, i, on);
      var one := RoutedOne(w, s, k, on, -1);
      if one.err.None? {
        if one.loans[i].closed {
          WalkKeepsClosed(w, one, k + 1, i, on);
        } else {
          WalkClosesExactlyWhen(w, one, k + 1, i, on);
        }
      }
    }
  }

  // ---------- Arriving at a due ----------

  /** Offering free cash leaves a loan due that day open, and what it asks for alone. */
  lemma {:induction false} OffersKeepOpen(w: World, s: Snap, on: Date, surplus: int, k: nat, i: nat)
    requires Over(w, s) && IsDay(on) && k <= |w.policy.order| && i < |s.loans|
    requires s.loans[i].due == on && s.loans[i].balance >= 0 && s.err.None?
    ensures var l, l' := s.loans[i], OfferedFrom(w, s, on, surplus, k).loans[i];
            && Unasked(l, l') && l'.closed == l.closed && l'.balance == l.balance && (l.closed ==> l' == l)
    decreases |w.policy.order| - k
  {
    hide Offered, Unasked;
    UnaskedStays(s.loans[i], s.loans[i], s.loans[i]);
    if k < |w.policy.order| {
      var j := w.policy.order[k];
      if 0 <= j < |s.loans| && !s.loans[j].closed && !w.input.loans[j].optionalExcluded && surplus > 0 {
        OfferKeepsOpen(w, s, j, on, surplus, i);
        var (one, left) := Offered(w, s, j, on, surplus);
        if one.err.None? {
          UnaskedStays(s.loans[i], one.loans[i], one.loans[i]);
          OffersKeepOpen(w, one, on, left, k + 1, i);
          UnaskedStays(s.loans[i], one.loans[i], OfferedFrom(w, one, on, left, k + 1).loans[i]);
        }
      } else {
        OffersKeepOpen(w, s, on, surplus, k + 1, i);
      }
    }
  }

  lemma UnaskedStays(a: LoanState, b: LoanState, c: LoanState)
    ensures Unasked(a, a) && (Unasked(a, b) && Unasked(b, c) ==> Unasked(a, c)) && (Unasked(a, b) ==> b.due == a.due)
  {
  }

  lemma OfferKeepsOpen(w: World, s: Snap, j: nat, on: Date, surplus: int, i: nat)
    requires Over(w, s) && IsDay(on) && i < |s.loans| && j < |s.loans| && !s.loans[j].closed
    requires s.loans[i].due == on && s.loans[i].balance >= 0 && s.err.None?
    ensures var l, l' := s.loans[i], Offered(w, s, j, on, surplus).0.loans[i];
            && Unasked(l, l') && l'.closed == l.closed && l'.balance == l.balance && (l.closed ==> l' == l)
  {
    hide Prepaid, QuoteOf, Prepaying, AccruedTo, HeldBack;
    DueIsNotBefore(on);
    BookingKeepsDates(w.input.loans[j], s.loans[j], on);
    var (asked, q) := Quoted(w, s, j, on, surplus);
    PrepaidLoan(w, asked, j, on, q, true);
  }

  /**
   Where a due's arrival goes through, the loan is closed before its own due is settled if and
   only if the arrival brings an income and some routed bucket, at its turn, pays the loan off.
   */
  lemma ArrivalClosesExactlyWhen(w: World, s: Snap, i: nat, on: Date)
    requires Over(w, s) && IsDay(on) && i < |s.loans| && s.err.None? && !s.loans[i].closed
    requires s.loans[i].due == on && s.loans[i].balance >= 0 && DueArrived(w, s, on).err.None?
    ensures var l := DueArrived(w, s, on).loans[i];
            && (l.closed <==> w.input.cash.payDay == 0 && YearMonth(on) != s.incomeYM && PaidOffFrom(w, IncomeTaken(w, s, on), 0, i, on))
            && Unasked(s.loans[i], l) && (l.closed ==> l.balance == 0 == l.accrued)
  {
    hide PaidOffFrom, RoutedFrom, OfferedFrom, SurplusIn, IncomeTaken;
    if w.input.cash.payDay == 0 && YearMonth(on) != s.incomeYM {
      IncomeKeepsLoans(w, s, on);
      var taken := IncomeTaken(w, s, on);
      WalkClosesExactlyWhen(w, taken, 0, i, on);
      var routed := RoutedFrom(w, taken, 0, on, -1);
      if routed.err.None? {
        OffersKeepOpen(w, routed, on, SurplusIn(w, routed, on), 0, i);
        UnaskedStays(taken.loans[i], routed.loans[i], Allocated(w, taken, on).loans[i]);
      }
    }
  }

  lemma IncomeKeepsLoans(w: World, s: Snap, on: Date)
    requires IsSet(on)
    ensures IncomeTaken(w, s, on).loans == s.loans
  {
    hide OpenBalance, Restricted;
  }

  // ---------- Settling it again ----------

  /** Settling the due of a closed loan asks for nothing and retires the loan again. */
  lemma ClosedIsShutAgain(w: World, s: Snap, i: nat, on: Date)
    requires Over(w, s) && IsDay(on) && i < |s.loans| && s.err.None? && s.loans[i].closed
    requires Amortisation.PaymentDates(w.input.loans[i].contract).Ok?
    requires s.loans[i].balance == 0 == s.loans[i].accrued && s.cash >= 0 && (w.input.Separate() ==> s.periodLeft >= 0)
    ensures var r := DueSettled(w, s, i, on);
            && r.err.None? && r.cash == s.cash && r.buckets == s.buckets && r.res.totalPaid == s.res.totalPaid && r.loans == s.loans[i := r.loans[i]] && r.loans[i].closed
            && r.budget == BudgetAfter(w, s.budget, Freed(s.loans[i]))
  {
    hide BudgetAfter;
    NothingRequired(w.input.loans[i], s.loans[i], on);
  }

  lemma NothingRequired(p: Position, l: LoanState, on: Date)
    requires IsDay(on) && l.closed && l.balance == 0 == l.accrued
    ensures BookedOn(p, l, on) == l && AskedToday(p.contract, l, on) == 0
  {
    hide Amortisation.DatesAhead;
  }

  /**
   Settling a due lowers the budget for a loan that the due's own arrival had closed, and whose
   instalment the budget had then given up already, if and only if the arrival brings an income,
   some bucket pays the loan off at its turn, the rollover keeps freed instalments, and there is
   an instalment and a budget left to lower.
   */
  lemma BudgetFallsTwiceExactlyWhen(w: World, s: Snap, i: nat, on: Date)
    requires Over(w, s) && IsDay(on) && i < |s.loans| && s.err.None? && !s.loans[i].closed
    requires s.loans[i].due == on && s.loans[i].balance >= 0 && (w.input.Separate() ==> w.input.cash.payDay != 0)
    requires Amortisation.PaymentDates(w.input.loans[i].contract).Ok?
    requires var arrived := DueArrived(w, s, on); arrived.err.None? && arrived.cash >= 0 && arrived.budget >= 0
    ensures var arrived := DueArrived(w, s, on);
            arrived.loans[i].closed && DueSettled(w, arrived, i, on).budget < arrived.budget
            <==>
            && w.input.cash.payDay == 0 && YearMonth(on) != s.incomeYM && PaidOffFrom(w, IncomeTaken(w, s, on), 0, i, on)
            && w.policy.rollover == KeepFreed && Freed(s.loans[i]) > 0 && arrived.budget > 0
  {
    hide DueArrived, PaidOffFrom, IncomeTaken, DueSettled;
    ArrivalClosesExactlyWhen(w, s, i, on);
    var arrived := DueArrived(w, s, on);
    if arrived.loans[i].closed {
      ClosedIsShutAgain(w, arrived, i, on);
    }
  }

  // ---------- Runs where it happens ----------

  /** A plain loan a run can take up, whose first due lies within the horizon. */
  ghost predicate Giftable(p: Position) {
    && p.id != "" && IsDay(p.from) && p.balance > 0 && p.excess == ReducePrincipal && !p.optionalExcluded
    && PlainTerms(p.contract) && Whole(p.balance, p.contract.rounding.unit)
    && ResolvedEffect(p.contract, ShortenTerm) == ShortenTerm && TakenUp(p, OnDue, ShortenTerm).Some?
    && !After(TakenUp(p, OnDue, ShortenTerm).value.due, AddMonths(p.from, DEFAULT_HORIZON))
  }

  /** The loan with a monthly budget and no pay day, and opening cash for all of its debt earmarked for it. */
  function Gifted(p: Position, monthly: nat): Input {
    var gift := CashEvent("gift", Some(CashRouting(p.id, [], UNSET, 0)), true, p.from, p.balance, false);
    Input(p.from, CashPlan(UNSET, None, monthly, 0, p.balance, 0, [gift], map[]), [p], 0)
  }

  const KEEPING: Policy := Policy("", false, [0], [OnDue], [ShortenTerm], KeepFreed, 0)

  lemma GiftIsAccepted(p: Position, monthly: nat)
    requires Giftable(p)
    ensures Accepted(Gifted(p, monthly)) && Covers(KEEPING, 1) && Canonical(Gifted(p, monthly), KEEPING) == KEEPING
  {
    hide PlainTerms, TakenUp, DayNumber;
    var in_ := Gifted(p, monthly);
    var gift := in_.cash.lumps[0];
    assert TargetAccepts(in_.loans, p.id, gift.amount) by {
      assert in_.loans[0].id == p.id;
    }
    assert FromOpening(in_.cash.lumps[..0]) == 0;
    assert FromOpening(in_.cash.lumps) == p.balance;
    assert Canonical(in_, KEEPING).effect == [ShortenTerm];
  }

  /** The state such a run starts from: its loan taken up, and the gift waiting in a bucket. */
  function Waiting(p: Position, monthly: nat, l: LoanState): Snap
    requires p.balance >= 0
  {
    Snap([l], 0, monthly, [CashBucket(p.id, p.balance, UNSET, 0, false, p.from)], true, [], NO_RESULT, EMPTY_MONTH, 0, UNSET,
         UNSET, 0, 0, UNSET, UNSET, 0, 0, Unstated, 0, UNSET, None, ProjectionMemo.Forgetful)
  }

  lemma StartsWaiting(p: Position, monthly: nat)
    requires Giftable(p)
    ensures Started(WorldOf(Gifted(p, monthly), KEEPING), ProjectionMemo.Forgetful)
            == Waiting(p, monthly, TakenUp(p, OnDue, ShortenTerm).value)
  {
    hide TakenUp, Renewed, PlainTerms, SortBuckets;
    GiftIsAccepted(p, monthly);
    var in_ := Gifted(p, monthly);
    var w := World(in_, KEEPING);
    var blank := Blank(w, ProjectionMemo.Forgetful);
    var start := Starting(p, OnDue, ShortenTerm);
    assert blank.loans + [start] == [start];
    var added := blank.(loans := [start]);
    PlainRun.TakenUpIs(w, added, OnDue, ShortenTerm);
    var l := TakenUp(p, OnDue, ShortenTerm).value;
    assert LoanTaken(w, blank) == added.(loans := [l]);
    assert LoansTaken(w, blank) == added.(loans := [l]);
    var gift, bucket := in_.cash.lumps[0], CashBucket(p.id, p.balance, UNSET, 0, false, p.from);
    assert PartsIn([], Parts(gift), gift.routing.value, p.from) == [bucket] by {
      assert PartIn([], CashSplit(p.id, p.balance), gift.routing.value, p.from, 0) == [bucket];
      assert Parts(gift)[1..] == [];
    }
    OneIsSorted(bucket);
    assert in_.cash.lumps[..0] == [];
    assert LumpsTaken(added.(loans := [l]), []) == added.(loans := [l]);
  }

  lemma OneIsSorted(b: CashBucket)
    ensures SortBuckets([b]) == [b]
  {
    SortKeepsBuckets([b]);
    assert |SortBuckets([b])| == 1;
    assert SortBuckets([b])[0] in multiset(SortBuckets([b]));
  }

  /** The gift's own day releases it; its loan is paid on due dates, so it is kept for the due. */
  function Kept(p: Position, monthly: nat, l: LoanState): Snap
    requires p.balance >= 0
  {
    Opened(Waiting(p, monthly, l), p.from).(buckets := [CashBucket(p.id, p.balance, UNSET, 0, true, UNSET)])
  }

  lemma GiftIsKept(p: Position, monthly: nat)
    requires Giftable(p)
    ensures var l := TakenUp(p, OnDue, ShortenTerm).value;
            Next(World(Gifted(p, monthly), KEEPING), Waiting(p, monthly, l)) == Kept(p, monthly, l)
  {
    hide TakenUp, PlainTerms, PlainLoan, Before, After, Whole, Compare;
    var w, l := World(Gifted(p, monthly), KEEPING), TakenUp(p, OnDue, ShortenTerm).value;
    PlainTakenUp(p, ShortenTerm);
    PlainFacts(p, l);
    GiftDueIsAhead(p, l);
    var s := Waiting(p, monthly, l);
    GiftWakesFirst(p, monthly, l);
    var begun := Opened(s, p.from);
    var kept := begun.(buckets := [CashBucket(p.id, p.balance, UNSET, 0, true, UNSET)]);
    DueIsNotBefore(p.from);
    assert LoanNamed(w.input.loans, p.id, 0) == 0;
    assert RoutedOne(w, begun, 0, p.from, -1) == kept;
    assert RoutedFrom(w, kept, 1, p.from, -1) == kept;
    PlainRun.OneHolds(kept.loans, UNSET, 0);
  }

  lemma GiftDueIsAhead(p: Position, l: LoanState)
    requires PlainLoan(p, l) && l.from == p.from
    ensures Before(p.from, l.due) && IsDay(l.due) && YearMonth(l.due) > 12 && Amortisation.PaymentDates(p.contract).Ok?
  {
    hide Amortisation.DatesAhead, Amortisation.PaymentDates, DayNumber;
    NextDateIsInCalendar(p.contract, l.from);
  }

  lemma GiftWakesFirst(p: Position, monthly: nat, l: LoanState)
    requires p.balance >= 0 && IsDay(p.from) && IsSet(l.due) && Before(p.from, l.due) && !l.closed
    ensures Picked(Waiting(p, monthly, l)) == Some((RouteEvent, p.from))
    ensures Picked(Kept(p, monthly, l)) == Some((DueEvent(0), l.due))
    ensures !After(p.from, AddMonths(p.from, DEFAULT_HORIZON))
  {
    hide DayNumber, Clamp;
    LaterMonthIsAfter(p.from, AddMonths(p.from, DEFAULT_HORIZON));
    var bucket := CashBucket(p.id, p.balance, UNSET, 0, false, p.from);
    assert [bucket][..0] == [] && [l][..0] == [];
    var start: Option<(Event, Date)> := None;
    assert BestWake(start, []) == None;
    assert BestWake(start, [bucket]) == Some((RouteEvent, p.from));
    var kept := CashBucket(p.id, p.balance, UNSET, 0, true, UNSET);
    assert [kept][..0] == [];
    assert BestWake(start, [kept]) == None;
    var woken := Some((RouteEvent, p.from));
    assert BestDue(woken, [l][..0]) == woken;
    assert BestDue(start, [l][..0]) == start;
  }

  /** A closing payment lowers the budget by the instalment and the pool by its outflow. */
  lemma ClosingPays(w: World, s: Snap, i: nat, on: Date, q: Quote, early: bool)
    requires Over(w, s) && i < |s.loans| && q.closes
    ensures var r := Prepaying(w, s, i, on, q, early);
            && r.budget == BudgetAfter(w, s.budget, Freed(s.loans[i])) && r.err == s.err && r.cash == s.cash - q.outflow
            && r.buckets == s.buckets && r.loans[i].closed && r.loans[i].balance == 0 == r.loans[i].accrued
            && Unasked(s.loans[i], r.loans[i]) && r.cycle == s.cycle && r.memo == s.memo
  {
    hide Cleared, BudgetAfter, Freed, ResultCredited, MonthCredited, ContractYear, Counted;
    FreedOf(s.loans[i], Credited(w, s, i, on, q, early).loans[i]);
  }

  lemma FreedOf(l: LoanState, l': LoanState)
    requires l'.carried == l.carried && l'.required == l.required
    ensures Freed(l') == Freed(l)
  {
  }

  /** The month's budget arrives at the due. */
  lemma GiftMeetsIncome(p: Position, monthly: nat, l: LoanState)
    requires Giftable(p) && l == TakenUp(p, OnDue, ShortenTerm).value && IsDay(l.due)
    ensures var w := World(Gifted(p, monthly), KEEPING);
            var s := IncomeTaken(w, Kept(p, monthly, l), l.due);
            && s.cash == monthly && s.budget == monthly && s.err.None? && s.loans == [l] && s.nextIncome == UNSET
            && s.incomeYM == YearMonth(l.due) && s.buckets == [CashBucket(p.id, p.balance, UNSET, 0, true, UNSET)] && s.cycle > 0
  {
    hide TakenUp, PlainTerms, Turned, Whole;
    TurnedKeeps(Kept(p, monthly, l), l.due);
  }

  /** The gift pays its loan off, in a state where the month's budget covers the due. */
  lemma GiftIsSpent(w: World, s: Snap, p: Position, l: LoanState, on: Date)
    requires Over(w, s) && w.input.loans == [p] && s.loans == [l] && PlainLoan(p, l) && on == l.due && IsDay(on) && p.id != ""
    requires s.err.None? && !w.input.Separate() && w.input.cash.reserveFloor == 0 && !w.policy.requiredOnly
    requires s.nextIncome == UNSET && s.incomeYM == YearMonth(on) && s.cash >= l.required && Whole(l.balance, p.contract.rounding.unit)
    requires l.balance > 0 && s.buckets == [CashBucket(p.id, l.balance, UNSET, 0, true, UNSET)]
    ensures var r := RoutedOne(w, s, 0, on, -1);
            && r.err.None? && r.cash == s.cash && r.loans[0].closed && r.loans[0].balance == 0 == r.loans[0].accrued
            && r.budget == BudgetAfter(w, s.budget, Freed(l)) && Freed(r.loans[0]) == Freed(l) && r.cycle == s.cycle
            && |r.buckets| == 1 && r.buckets[0].remaining == 0
  {
    hide PlainTerms, PlainLoan, Before, Whole, Compare, Prepaying, QuoteFor, Accrued, AllowanceUsed, BudgetAfter, Freed;
    PlainFacts(p, l);
    assert LoanNamed(w.input.loans, p.id, 0) == 0;
    DueIsNotBefore(on);
    UnsetIsNotAhead(on);
    PlainRun.OneHolds(s.loans, UNSET, YearMonth(on));
    PlainAccrual(p, l, on);
    PlainQuote(p.contract, on, l.balance, AllowanceUsed(p, l.(from := on), on), l.balance);
    assert s.loans[0 := l.(from := on)] == [l.(from := on)];
    var asked, q := s.(loans := [l.(from := on)]), Quote(l.balance, 0, 0, l.balance, true);
    assert Quoted(w, s, 0, on, l.balance) == (asked, q);
    FreedOf(l, l.(from := on));
    ClosingPays(w, Moved(asked, 0, l.balance), 0, on, q, false);
    var paid := Prepaying(w, Moved(asked, 0, l.balance), 0, on, q, false);
    FreedOf(l, paid.loans[0]);
    assert s.buckets[0 := s.buckets[0]] == s.buckets;
    assert Reconsidered(s.buckets[0], on) == s.buckets[0];
    assert RoutedTo(w, s, 0, 0, on, -1) == paid;
  }

  lemma UnsetIsNotAhead(on: Date)
    requires IsSet(on)
    ensures !Before(on, UNSET)
  {
    CompareIsDayOrder(on, UNSET);
  }

  /** On the due date the month's budget arrives first, and the gift then pays the loan off before its due is settled. */
  lemma GiftPaysOff(p: Position, monthly: nat)
    requires Giftable(p) && monthly >= p.contract.scheduledPayment
    ensures var w, l := World(Gifted(p, monthly), KEEPING), TakenUp(p, OnDue, ShortenTerm).value;
            IsDay(l.due) &&
            var arrived := DueArrived(w, Kept(p, monthly, l), l.due);
            && arrived.err.None? && arrived.loans[0].closed && arrived.cash == monthly
            && arrived.loans[0].balance == 0 == arrived.loans[0].accrued && |arrived.loans| == 1
            && arrived.budget == monthly - p.contract.scheduledPayment && Freed(arrived.loans[0]) == p.contract.scheduledPayment
            && |arrived.buckets| == 1 && arrived.buckets[0].remaining == 0
            && Amortisation.PaymentDates(p.contract).Ok?
  {
    hide TakenUp, PlainTerms, PlainLoan, Before, After, Whole, RoutedOne, IncomeTaken, SurplusIn, Amortisation.PaymentDates;
    var w, l := World(Gifted(p, monthly), KEEPING), TakenUp(p, OnDue, ShortenTerm).value;
    PlainTakenUp(p, ShortenTerm);
    PlainFacts(p, l);
    GiftDueIsAhead(p, l);
    GiftMeetsIncome(p, monthly, l);
    var taken := IncomeTaken(w, Kept(p, monthly, l), l.due);
    GiftIsSpent(w, taken, p, l, l.due);
    var paid := RoutedOne(w, taken, 0, l.due, -1);
    assert RoutedFrom(w, paid, 1, l.due, -1) == paid;
    assert OfferedFrom(w, paid, l.due, SurplusIn(w, paid, l.due), 1) == paid;
  }

  lemma TurnedKeeps(s: Snap, on: Date)
    ensures var r := Turned(s, on);
            && r.cash == s.cash && r.budget == s.budget && r.buckets == s.buckets && r.err == s.err && r.loans == s.loans
            && r.cycle > 0 && r.lumps == s.lumps && r.memo == s.memo && r.carryRule == s.carryRule
  {
    hide OpenBalance, Restricted, CycleRecorded;
  }

  /** The due then retires the loan it finds closed, and the run ends. */
  lemma GiftIsRetiredTwice(p: Position, monthly: nat)
    requires Giftable(p) && monthly >= 2 * p.contract.scheduledPayment
    ensures var w, l := World(Gifted(p, monthly), KEEPING), TakenUp(p, OnDue, ShortenTerm).value;
            IsDay(l.due) &&
            var r := DuePassed(w, Kept(p, monthly, l), 0, l.due);
            && r.err.None? && |r.loans| == 1 && r.loans[0].closed && r.budget == monthly - 2 * p.contract.scheduledPayment
  {
    hide TakenUp, PlainTerms, PlainLoan, DueArrived, DueSettled, Kept, Routed, Freed, Gifted;
    GiftPaysOff(p, monthly);
    var w, l := World(Gifted(p, monthly), KEEPING), TakenUp(p, OnDue, ShortenTerm).value;
    GiftIsPooled(p, monthly, l);
    var arrived := DueArrived(w, Kept(p, monthly, l), l.due);
    ClosedIsShutAgain(w, arrived, 0, l.due);
    NothingToSpend(w, DueSettled(w, arrived, 0, l.due), l.due);
  }

  lemma GiftIsPooled(p: Position, monthly: nat, l: LoanState)
    requires p.balance >= 0
    ensures !Gifted(p, monthly).Separate() && Gifted(p, monthly).loans == [p]
    ensures Kept(p, monthly, l).loans == [l] == Waiting(p, monthly, l).loans
    ensures !l.closed ==> !Ended(Kept(p, monthly, l)) && !Ended(Waiting(p, monthly, l))
  {
    assert Kept(p, monthly, l).loans[0] == l == Waiting(p, monthly, l).loans[0];
  }

  lemma TwoTurns(w: World, s: Snap)
    requires Over(w, s) && IsDay(w.input.valuation) && !Ended(s) && !Ended(Next(w, s))
    ensures Steps(w, s, 2) == Next(w, Next(w, s))
  {
    hide Next, Ended;
    assert Steps(w, Next(w, Next(w, s)), 0) == Next(w, Next(w, s));
    assert Steps(w, Next(w, s), 1) == Next(w, Next(w, s));
  }

  /**
   Runs that close a loan twice: the loan's whole debt waits in a bucket, its first due brings
   the month's budget, the bucket pays the loan off, and the due then retires it again. The run
   ends there, with the budget lowered by two instalments where one was freed.
   */
  lemma BudgetFallsTwiceInARun(p: Position, monthly: nat)
    requires Giftable(p) && monthly >= 2 * p.contract.scheduledPayment
    ensures Accepted(Gifted(p, monthly)) && Covers(KEEPING, 1)
    ensures var w := WorldOf(Gifted(p, monthly), KEEPING);
            var start := Started(w, ProjectionMemo.Forgetful);
            && start.err.None? && start.budget == monthly
            && Ended(Steps(w, start, 2)) && Steps(w, start, 2).err.None?
            && Steps(w, start, 2).budget == monthly - 2 * p.contract.scheduledPayment
  {
    hide TakenUp, PlainTerms, PlainLoan, Before, After, Whole, DuePassed, Next, Picked, Steps, Started;
    GiftIsAccepted(p, monthly);
    StartsWaiting(p, monthly);
    GiftIsKept(p, monthly);
    GiftIsRetiredTwice(p, monthly);
    var w, l := World(Gifted(p, monthly), KEEPING), TakenUp(p, OnDue, ShortenTerm).value;
    PlainTakenUp(p, ShortenTerm);
    PlainFacts(p, l);
    GiftIsPooled(p, monthly, l);
    TwoTurns(w, Waiting(p, monthly, l));
    GiftComesDue(p, monthly);
  }

  lemma GiftComesDue(p: Position, monthly: nat)
    requires Giftable(p)
    ensures var w, l := World(Gifted(p, monthly), KEEPING), TakenUp(p, OnDue, ShortenTerm).value;
            IsDay(l.due) && Next(w, Kept(p, monthly, l)) == DuePassed(w, Kept(p, monthly, l), 0, l.due)
  {
    hide TakenUp, PlainTerms, PlainLoan, Before, After, Whole, DuePassed, Picked, DayNumber, Clamp, Amortisation.PaymentDates,
      Amortisation.DatesAhead;
    var l := TakenUp(p, OnDue, ShortenTerm).value;
    PlainTakenUp(p, ShortenTerm);
    PlainFacts(p, l);
    GiftDueIsAhead(p, l);
    GiftWakesFirst(p, monthly, l);
  }

  lemma NothingToSpend(w: World, s: Snap, on: Date)
    requires Over(w, s) && IsDay(on) && |s.buckets| == 1 && s.buckets[0].remaining == 0 && s.err.None?
    ensures var r := Routed(w, s, on, 0); r.err.None? && r.loans == s.loans && r.budget == s.budget
  {
    hide Before, After;
    var b := Reconsidered(s.buckets[0], on);
    var kept := s.(buckets := s.buckets[0 := b]);
    assert RoutedOne(w, s, 0, on, 0) == kept;
    assert RoutedFrom(w, kept, 1, on, 0) == kept;
  }

  /** A loan of ten, due in full on one date, is such a loan. */
  lemma HouseIsGiftable()
    ensures Giftable(HOUSE) && HOUSE.contract.scheduledPayment == 10
  {
    hide Amortisation.PaymentDates, Amortisation.DatesAhead, Amortisation.Next;
    HomeProjects();
    LaterMonthIsAfter(ONE_DUE, AddMonths(HOUSE.from, DEFAULT_HORIZON));
  }
}
