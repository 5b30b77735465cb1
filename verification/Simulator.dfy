/**
 The dated portfolio simulator: one policy followed on one timeline. Events are permission
 periods, lump receipts, income, reconsidered routed cash and dues. Every event keeps the
 identities of `Valid`, so the invariant failures checked at the end of a run never occur.
 */
module Simulator {
  import opened Dates
  import opened Contracts
  import opened Portfolio
  import opened SimState
  import opened Routing
  import opened Fees
  import opened LoanDues
  import opened Flow
  import Amortisation
  import Paydown
  import Distribution
  import ProjectionMemo

  class Sim {
    const input: Input
    const policy: Policy

    var loans: seq<LoanState>
    var cash: int
    var budget: int
    var buckets: seq<CashBucket>
    var hasRouting: bool
    var lumps: seq<CashEvent>
    var res: Flow.Result
    var month: MonthState
    var cycle: nat
    var cycleIncome: Date
    var nextIncome: Date
    var incomeYM: int
    var inflow: int
    var nextPeriod: Date
    var periodStart: Date
    var periodLeft: int
    var periodSpent: int
    var carryRule: CarryRule
    var carryMinimum: int
    var carryUntil: Date
    var err: Option<Failure>

    /** The day of the event being processed. */
    ghost var clock: nat
    /** The permission granted for the current period, what was declared spent, and all paid before it. */
    ghost var limit: int
    ghost var declared: int
    ghost var paidBefore: int
    /** The days of the events processed, and whether the dues since the last income were covered by it. */
    ghost var trail: seq<nat>
    ghost var covered: bool

    // ---------- The state as a value ----------

    ghost function W(): (w: World)
      ensures w == WorldOf(input, policy) && w.input == input && w.policy.order == policy.order && w.policy.timing == policy.timing
      ensures w.policy.rollover == policy.rollover && w.policy.minPrepay == policy.minPrepay && w.policy.requiredOnly == policy.requiredOnly
    {
      WorldOf(input, policy)
    }

    ghost function Now(): (s: Snap)
      reads this
      ensures s.loans == loans && s.cash == cash && s.budget == budget && s.buckets == buckets && s.hasRouting == hasRouting
      ensures s.lumps == lumps && s.res == res && s.month == month && s.cycle == cycle && s.cycleIncome == cycleIncome
      ensures s.nextIncome == nextIncome && s.incomeYM == incomeYM && s.inflow == inflow && s.err == err
      ensures s.nextPeriod == nextPeriod && s.periodStart == periodStart && s.periodLeft == periodLeft
      ensures s.periodSpent == periodSpent && s.carryRule == carryRule && s.carryMinimum == carryMinimum
      ensures s.carryUntil == carryUntil && s.memo == ProjectionMemo.Forgetful
    {
      Snap(loans, cash, budget, buckets, hasRouting, lumps, res, month, cycle, cycleIncome, nextIncome, incomeYM, inflow,
           nextPeriod, periodStart, periodLeft, periodSpent, carryRule, carryMinimum, carryUntil, err, ProjectionMemo.Forgetful)
    }

    // ---------- Invariants ----------

    ghost predicate Valid()
      reads this
    {
      && Accepted(input) && Covers(policy, |input.loans|)
      && |loans| == |input.loans| && LoansOk(input.loans, loans)
      && Conserved() && Permitted() && Ready()
    }

    /**
     Every unit of money is somewhere: opening cash and receipts are paid out, in the pool, in
     a bucket or with the household; what was paid retired principal or was interest or fees;
     and the timeline accounts for all of it.
     */
    ghost predicate Conserved()
      reads this
    {
      && cash >= 0 && res.household >= 0 && res.totalInterest >= 0 && res.totalFees >= 0
      && input.cash.openingCash + inflow == res.totalPaid + cash + Restricted(buckets) + res.household
      && res.totalPaid == OpeningBalance(input.loans) - TotalBalance(loans) + res.totalInterest + res.totalFees
      && TimelinePaid(res.timeline) + month.required + month.extra + month.fees == res.totalPaid
      && (cycle == 0 ==> res.totalPaid == 0 && res.timeline == [])
    }

    /** Permission used and left add up to the limit in force; used is declared plus all paid since. */
    ghost predicate Permitted()
      reads this
    {
      input.Separate() ==>
        && periodLeft >= 0
        && (if IsSet(periodStart) then
              && periodSpent + periodLeft == limit
              && periodSpent == declared + (res.totalPaid - paidBefore)
            else periodSpent == 0 && periodLeft == 0)
    }

    /** Nothing that is still to happen lies before the event being processed. */
    ghost predicate Ready()
      reads this
    {
      && DuesFrom(loans, clock) && BucketsOk(buckets, clock)
      && (forall k :: 0 <= k < |lumps| ==>
            lumps[k] in input.cash.lumps && !lumps[k].fromOpening && DayNumber(lumps[k].on) >= clock)
      && (!hasRouting ==> forall k :: 0 <= k < |lumps| ==> lumps[k].routing.None?)
      && (IsSet(nextPeriod) <==> input.Separate())
      && (IsSet(nextPeriod) ==> DayNumber(nextPeriod) >= clock && YearMonth(nextPeriod) > 12)
      && (IsSet(nextIncome) <==> input.cash.payDay != 0)
      && (IsSet(nextIncome) ==> DayNumber(nextIncome) >= clock && YearMonth(nextIncome) > 12)
      && budget >= 0
    }

    /** The day an event method is called for: today, by the clock. */
    ghost predicate Today(on: Date)
      reads this
    {
      IsSet(on) && YearMonth(on) > 12 && clock == DayNumber(on)
    }

    /** Cash covers the floor, the dues of the income window and everything promised to due dates. */
    ghost predicate Protected()
      reads this
    {
      cash >= input.cash.reserveFloor + Reservations(loans, nextIncome, incomeYM)
    }

    // ---------- Setting up ----------

    /** A simulator ready for its first event, unless some loan has no projection. */
    constructor (in_: Input, p: Policy)
      requires Accepted(in_) && Covers(p, |in_.loans|)
      ensures input == in_ && policy == p && clock == 0 && trail == [] && !IsSet(periodStart) && cycle == 0 && inflow == 0
      ensures err.None? ==> Valid() && covered == Protected()
      ensures err.Some? ==> err.value.NoProjection?
      ensures IsDay(in_.valuation) && Now() == Started(W(), ProjectionMemo.Forgetful) && nextIncome == FirstIncome(input)
    {
      hide Accepted, Covers, FirstIncome, FirstMonth, FirstBudget, FirstPeriod, DayNumber, WorldOf, LoansTaken, LumpsTaken,
        W, Conserved, Permitted, Ready, Protected, LoansOk;
      ValuationIsDated(in_);
      input, policy := in_, p;
      loans, buckets, lumps, hasRouting := [], [], [], false;
      cash, inflow, budget := in_.cash.openingCash, 0, FirstBudget(in_);
      res, month, cycle, cycleIncome := NO_RESULT, EMPTY_MONTH, 0, UNSET;
      nextIncome, incomeYM, nextPeriod := FirstIncome(in_), FirstMonth(in_), FirstPeriod(in_);
      periodStart, periodLeft, periodSpent := UNSET, 0, 0;
      carryRule, carryMinimum, carryUntil := Unstated, 0, UNSET;
      err := None;
      clock, limit, declared, paidBefore, trail, covered := 0, 0, 0, 0, [], false;
      new;
      assert Now() == Blank(W(), ProjectionMemo.Forgetful);
      hide Now, Blank;
      TakeUp();
    }

    /** A blank run takes up its loans and its receipts. */
    method TakeUp()
      requires Accepted(input) && Covers(policy, |input.loans|) && loans == [] && err.None? && Fresh()
      modifies `loans, `err, `lumps, `cash, `buckets, `hasRouting, `covered
      ensures err.None? ==> Valid() && covered == Protected()
      ensures err.Some? ==> err.value.NoProjection?
      ensures Now() == Taken(W(), old(Now()))
    {
      hide Accepted, Covers, FirstIncome, FirstMonth, DayNumber, LoansTaken, LumpsTaken, W, Now, LoansOk,
        Restricted, TotalBalance, OpeningBalance, TimelinePaid, BucketsOk, Reservations, LoanTakenUp;
      EmptyTimeline();
      FundingIsAccepted(input);
      TakeLoans();
      if err.None? {
        TakeLumps();
        covered := Protected();
      }
    }

    /** Nothing has happened yet. */
    ghost predicate Fresh()
      reads this
    {
      && lumps == [] && buckets == [] && !hasRouting && cash == input.cash.openingCash && clock == 0 && inflow == 0
      && IsDay(input.valuation) && budget == FirstBudget(input) && nextIncome == FirstIncome(input) && nextPeriod == FirstPeriod(input)
      && res == NO_RESULT && month == EMPTY_MONTH && cycle == 0 && !IsSet(periodStart) && periodLeft == 0 && periodSpent == 0
    }

    function LoanTakenUp(k: nat): Option<LoanState>
      requires k < |input.loans| && k < |policy.timing| && k < |policy.effect| && IsSet(input.loans[k].from)
    {
      TakenUp(input.loans[k], policy.timing[k], ResolvedEffect(input.loans[k].contract, policy.effect[k]))
    }

    /** Every loan starts from its position; one with nothing owed is closed, any other needs an obligation. */
    method TakeLoans()
      requires Accepted(input) && Covers(policy, |input.loans|) && loans == [] && err.None?
      modifies `loans, `err
      ensures err.Some? ==> err.value.NoProjection?
      ensures err.None? ==> |loans| == |input.loans| && LoansOk(input.loans, loans)
      ensures err.None? ==> TotalBalance(loans) == OpeningBalance(input.loans)
      ensures (forall k :: 0 <= k < |input.loans| ==> IsSet(input.loans[k].from))
      ensures err.Some? <==> exists k :: 0 <= k < |input.loans| && LoanTakenUp(k).None?
      ensures err.None? ==> forall k :: 0 <= k < |loans| ==> LoanTakenUp(k) == Some(loans[k])
      ensures Now() == LoansTaken(W(), old(Now()))
    {
      hide LoanTaken, W, Now, Starting, LoanTakenUp, LoanOk, DayNumber, Accepted, ProjectionMemo.NextFor,
        Amortisation.DatesAhead, TotalBalance, OpeningBalance, ResolvedEffect;
      NothingYet();
      PositionsAreDated(input);
      for k := 0 to |input.loans|
        invariant |loans| == k && err.None?
        invariant forall j :: 0 <= j < k ==> LoanOk(input.loans[j], loans[j]) && LoanTakenUp(j) == Some(loans[j])
        invariant TotalBalance(loans) == OpeningBalance(input.loans[..k])
        invariant LoansTaken(W(), Now()) == LoansTaken(W(), old(Now()))
      {
        TakeLoan(k);
        if err.Some? {
          return;
        }
      }
      assert input.loans[..|input.loans|] == input.loans;
    }

    /** One loan starts from its position, with its first obligation unless nothing is owed. */
    method TakeLoan(k: nat)
      requires k == |loans| < |input.loans| && err.None? && Covers(policy, |input.loans|) && IsSet(input.loans[k].from)
      requires TotalBalance(loans) == OpeningBalance(input.loans[..k])
      modifies `loans, `err
      ensures err.Some? ==> err.value.NoProjection? && LoanTakenUp(k).None?
      ensures err.None? ==> |loans| == k + 1 && loans == old(loans) + [loans[k]] && LoanOk(input.loans[k], loans[k]) && LoanTakenUp(k) == Some(loans[k])
      ensures err.None? ==> TotalBalance(loans) == OpeningBalance(input.loans[..k + 1])
      ensures Now() == LoanTaken(W(), old(Now()))
    {
      hide LoanOk, DayNumber, ProjectionMemo.NextFor, Amortisation.DatesAhead, TotalBalance, OpeningBalance, ResolvedEffect, W,
        Renewed;
      var p := input.loans[k];
      var effect := ResolvedEffect(p.contract, policy.effect[k]);
      EffectIs(k);
      BalanceOneMore(input.loans, k, loans, Starting(p, policy.timing[k], effect));
      loans := loans + [Starting(p, policy.timing[k], effect)];
      ghost var taken := loans;
      if p.balance > 0 {
        Refresh(k);
        if err.None? {
          TotalBalanceUpdate(taken, k, loans[k]);
        }
      } else {
        NothingOwed(p, loans[k]);
      }
    }

    lemma EffectIs(k: nat)
      requires k < |input.loans| && Covers(policy, |input.loans|)
      ensures EffectOf(W().policy, k) == ResolvedEffect(input.loans[k].contract, policy.effect[k])
      ensures TimingOf(W().policy, k) == policy.timing[k]
    {
      hide ResolvedEffect;
    }

    /** Retained cash moves into its buckets at once; confirmed receipts wait for their dates; expected ones are ignored. */
    method TakeLumps()
      requires Accepted(input) && lumps == [] && buckets == [] && !hasRouting && cash == input.cash.openingCash && clock == 0
      modifies `lumps, `cash, `buckets, `hasRouting
      ensures cash >= 0 && cash + Restricted(buckets) == input.cash.openingCash && BucketsOk(buckets, 0)
      ensures forall k :: 0 <= k < |lumps| ==> lumps[k] in input.cash.lumps && !lumps[k].fromOpening && !lumps[k].expected
      ensures !hasRouting ==> forall k :: 0 <= k < |lumps| ==> lumps[k].routing.None?
      ensures Now() == LumpsTaken(old(Now()), input.cash.lumps)
    {
      hide Accepted, Now, ReceiptTaken, DayNumber, RoutingAccepted, BucketsOk, Restricted, FromOpening;
      var events := input.cash.lumps;
      NothingYet();
      for k := 0 to |events|
        invariant BucketsOk(buckets, 0)
        invariant cash == input.cash.openingCash - FromOpening(events[..k]) && Restricted(buckets) == FromOpening(events[..k])
        invariant forall j :: 0 <= j < |lumps| ==> lumps[j] in events && !lumps[j].fromOpening && !lumps[j].expected
        invariant !hasRouting ==> forall j :: 0 <= j < |lumps| ==> lumps[j].routing.None?
        invariant Now() == LumpsTaken(old(Now()), events[..k])
      {
        AcceptedReceipt(input, events[k]);
        OpeningOneMore(events, k);
        assert events[..k + 1][..k] == events[..k];
        TakeReceipt(events[k]);
      }
      assert events[..|events|] == events;
      RetainedFits(input);
    }

    /** One stated receipt: retained and routed, waiting, or ignored. */
    method TakeReceipt(e: CashEvent)
      requires e in input.cash.lumps && BucketsOk(buckets, clock) && Accepted(input) && clock == 0
      modifies `lumps, `cash, `buckets, `hasRouting
      ensures BucketsOk(buckets, clock) && (old(hasRouting) ==> hasRouting) && (e.routing.Some? ==> hasRouting)
      ensures cash == old(cash) - (if e.fromOpening then e.amount else 0)
      ensures Restricted(buckets) == Restricted(old(buckets)) + (if e.fromOpening then e.amount else 0)
      ensures lumps == if e.fromOpening || e.expected then old(lumps) else old(lumps) + [e]
      ensures Now() == ReceiptTaken(old(Now()), e)
    {
      hide Accepted, RoutingAccepted, BucketsOk, Restricted, DayNumber, RoutedIn;
      AcceptedReceipt(input, e);
      if e.routing.Some? {
        hasRouting := true;
      }
      if e.fromOpening {
        RetainedIsRouted(input, e);
        cash := cash - e.amount;
        AddRouted(e);
      } else if !e.expected {
        lumps := lumps + [e];
      }
    }

    // ---------- Cycles ----------

    method OpenCycle(on: Date)
      modifies `cycle, `cycleIncome, `month
      ensures cycle == old(cycle) + 1 && cycleIncome == on && month == EMPTY_MONTH.(on := on)
      ensures Now() == Opened(old(Now()), on)
    {
      cycle := cycle + 1;
      cycleIncome := on;
      month := EMPTY_MONTH.(on := on);
    }

    method CloseCycle()
      modifies `month, `res
      ensures month == old(month).(owed := OpenBalance(loans), cash := cash + Restricted(buckets))
      ensures res == old(res).(timeline := old(res.timeline) + [month], nextMonthOwed := res.nextMonthOwed,
                               peakRequired := res.peakRequired, finalRequired := res.finalRequired)
      ensures res.peakRequired >= month.required && res.peakRequired >= old(res.peakRequired)
      ensures Now() == ClosedCycle(old(Now()))
    {
      hide OpenBalance, Restricted;
      var owed := OpenTotal();
      var restricted := RestrictedCash();
      month := month.(owed := owed, cash := cash + restricted);
      var record := RecordCycle(owed);
      res := record;
    }

    /** The run's record once its open cycle is closed. */
    method RecordCycle(owed: int) returns (record: Flow.Result)
      ensures record == CycleRecorded(res, month, cycle, owed)
    {
      record := res.(timeline := res.timeline + [month]);
      if cycle == 1 {
        record := record.(nextMonthOwed := owed);
      }
      if month.required > record.peakRequired {
        record := record.(peakRequired := month.required);
      }
      if month.required > 0 {
        record := record.(finalRequired := month.required);
      }
    }

    method OpenTotal() returns (owed: int)
      ensures owed == OpenBalance(loans)
    {
      owed := 0;
      for i := 0 to |loans|
        invariant owed == OpenBalance(loans[..i])
      {
        assert loans[..i + 1][..i] == loans[..i];
        if !loans[i].closed {
          owed := owed + loans[i].balance;
        }
      }
      assert loans[..|loans|] == loans;
    }

    method RestrictedCash() returns (total: nat)
      ensures total == Restricted(buckets)
    {
      total := 0;
      for i := 0 to |buckets|
        invariant total == Restricted(buckets[..i])
      {
        assert buckets[..i + 1][..i] == buckets[..i];
        total := total + buckets[i].remaining;
      }
      assert buckets[..|buckets|] == buckets;
    }

    // ---------- Obligations, interest and quotes ----------

    /** Recomputes a loan's obligation from its current state. */
    method Refresh(i: nat)
      requires i < |loans| <= |input.loans| && IsSet(loans[i].from)
      requires !loans[i].closed && input.loans[i].balance > 0 && loans[i].balance >= 0
      requires !ProjectionMemo.Fixed(input.loans[i].contract, TermsOf(loans[i]))
               || Amortisation.DatesAhead(input.loans[i].contract, loans[i].from).Ok?
      modifies `loans, `err
      ensures var c, t := input.loans[i].contract, TermsOf(old(loans[i]));
              match ProjectionMemo.NextFor(c, t)
              case Ok(o) =>
                && err == old(err) && o.payment >= 0 && o.instalment >= 0 && Amortisation.DatesAhead(c, t.from).Ok?
                && loans == old(loans)[i := Refreshed(old(loans[i]), o)]
                && LoanOk(input.loans[i], loans[i]) && Before(loans[i].from, loans[i].due)
                && o.due == Amortisation.DatesAhead(c, t.from).value[0]
              case Err(_) => err.Some? && err.value.NoProjection? && loans == old(loans)
      ensures Now() == Renewed(W(), old(Now()), i)
    {
      hide Amortisation.DatesAhead, ProjectionMemo.NextFor, LoanOk, DayNumber;
      var o := ProjectionMemo.NextFor(input.loans[i].contract, TermsOf(loans[i]));
      if o.Err? {
        err := Some(NoProjection(o.refusal));
        return;
      }
      ObligationNeedsADate(input.loans[i].contract, TermsOf(loans[i]));
      RefreshKeepsLoan(input.loans[i], loans[i]);
      loans := loans[i := Refreshed(loans[i], o.value)];
    }

    /** The lender's answer for one loan; asking books interest up to the day. */
    method QuoteLoan(i: nat, on: Date, available: nat) returns (q: Quote)
      requires i < |loans| == |input.loans| && LoanOk(input.loans[i], loans[i]) && !loans[i].closed
      requires IsSet(on) && !After(on, loans[i].due) && IsSet(loans[i].from)
      modifies `loans, `err
      ensures loans == old(loans)[i := Accrued(input.loans[i], old(loans[i]), on)]
      ensures LoanOk(input.loans[i], loans[i]) && Drifts(old(loans[i]), loans[i], DayNumber(on))
      ensures SameClaims(old(loans[i]), loans[i]) && Booked(loans[i], on)
      ensures loans[i].balance == old(loans[i].balance) >= 0
      ensures loans[i].from == old(loans[i].from) || loans[i].from == on
      ensures err == old(err) || (err.Some? && err.value.NoQuote?)
      ensures err == old(err) && old(err).None? ==> Payable(q, loans[i], available)
      ensures (Now(), q) == Quoted(W(), old(Now()), i, on, available)
    {
      hide LoanOk, Fees.QuoteFor, Fees.PayOff, DayNumber, Drifts, Accrued;
      var p := input.loans[i];
      AccrualKeepsLoan(p, loans[i], on);
      loans := loans[i := Accrued(p, loans[i], on)];
      var l := loans[i];
      OpenBalanceIsNatural(p, l);
      var used := AllowanceUsed(p, l, on);
      QuoteStaysWithinAllowance(p.contract, on, l.balance, l.accrued, used, available);
      var r := QuoteFor(p.contract, on, l.balance, l.accrued, used, available);
      if r.Err? {
        err := Some(NoQuote(r.error));
        return NOTHING;
      }
      return r.value;
    }

    // ---------- Paying ----------

    /** Records actual outflow, fees included, against the period's permission. */
    method SpendPermission(outflow: int)
      modifies `periodSpent, `periodLeft
      ensures periodSpent == old(periodSpent) + Counted(W(), outflow) && periodLeft == old(periodLeft) - Counted(W(), outflow)
    {
      if input.Separate() {
        periodSpent := periodSpent + outflow;
        periodLeft := periodLeft - outflow;
      }
    }

    method AllClosed() returns (all: bool)
      ensures all <==> forall i :: 0 <= i < |loans| ==> loans[i].closed
    {
      for i := 0 to |loans|
        invariant forall k :: 0 <= k < i ==> loans[k].closed
      {
        if !loans[i].closed {
          return false;
        }
      }
      return true;
    }

    lemma FreedStays(l: LoanState, l': LoanState)
      requires l'.carried == l.carried && l'.required == l.required
      ensures Freed(l') == Freed(l)
    {
    }

    /** Retires a loan and records what its end means for the run. */
    method Close(i: nat, on: Date)
      requires i < |loans| == |input.loans|
      modifies `loans, `res, `budget
      ensures loans == old(loans)[i := Retired(old(loans[i]), on)]
      ensures res == Cleared(old(res), i, on, Freed(old(loans[i])), loans, cycle)
      ensures budget == BudgetAfter(W(), old(budget), Freed(old(loans[i])))
      ensures Now() == Shut(W(), old(Now()), i, on)
    {
      hide Cleared, BudgetAfter, Freed, Retired, W;
      var freed := Freed(loans[i]);
      loans := loans[i := Retired(loans[i], on)];
      var record := RecordClose(i, on, freed);
      var left := BudgetLeft(freed);
      res, budget := record, left;
    }

    /** The run's record once a loan closed. */
    method RecordClose(i: nat, on: Date, freed: nat) returns (record: Flow.Result)
      requires i < |loans|
      ensures record == Cleared(res, i, on, freed, loans, cycle)
    {
      record := res;
      if record.firstClear.None? {
        record := record.(firstClear := Some(i), firstClearOn := on, firstFreed := freed);
      }
      if After(on, record.payoff) {
        record := record.(payoff := on);
      }
      var all := AllClosed();
      if all {
        record := record.(months := cycle);
      }
    }

    /** The budget once an instalment is freed: a kept rollover lowers it, where release is not confirmed money only. */
    method BudgetLeft(freed: nat) returns (left: int)
      ensures left == BudgetAfter(W(), budget, freed)
    {
      hide Canonical;
      left := budget;
      if policy.rollover == KeepFreed && (!input.Separate() || !input.cash.spending.value.confirmedReleaseOnly) {
        left := left - freed;
        if left < 0 {
          left := 0;
        }
      }
    }

    /** Applies a quoted optional payment. */
    method Prepay(i: nat, on: Date, q: Quote, early: bool)
      requires i < |loans| == |input.loans| && Payable(q, loans[i], q.outflow) && q.outflow <= cash
      modifies `loans, `cash, `res, `month, `budget, `periodSpent, `periodLeft
      ensures cash == old(cash) - q.outflow
      ensures loans == old(loans)[i := Prepaid(old(loans[i]), on, ContractYear(input.loans[i].contract, on), q.principal, q.closes)]
      ensures month == old(month).(extra := old(month.extra) + q.outflow - q.fee, fees := old(month.fees) + q.fee,
                                   interest := old(month.interest) + q.interest)
      ensures res.totalPaid == old(res.totalPaid) + q.outflow && res.totalFees == old(res.totalFees) + q.fee
      ensures res.totalInterest == old(res.totalInterest) + q.interest && res.prepayments == old(res.prepayments) + 1
      ensures res.timeline == old(res.timeline) && res.household == old(res.household)
      ensures input.Separate() ==>
                periodSpent == old(periodSpent) + q.outflow && periodLeft == old(periodLeft) - q.outflow
      ensures !input.Separate() ==> periodSpent == old(periodSpent) && periodLeft == old(periodLeft)
      ensures old(Conserved()) && cycle > 0 ==> Conserved()
      ensures old(Permitted()) && (input.Separate() ==> q.outflow <= old(periodLeft)) ==> Permitted()
      ensures budget == if q.closes then BudgetAfter(W(), old(budget), Freed(old(loans[i]))) else old(budget)
      ensures Now() == Prepaying(W(), old(Now()), i, on, q, early)
    {
      hide TotalBalance, OpeningBalance, Restricted, TimelinePaid, ContractYear, Freed, Cleared, BudgetAfter, Credited, Shut,
        W, Now;
      var l := loans[i];
      var year := ContractYear(input.loans[i].contract, on);
      FreedStays(l, Prepaid(l, on, year, q.principal, false).(accrued := 0));
      TotalBalanceUpdate(loans, i, Prepaid(l, on, year, q.principal, q.closes));
      CreditPayment(i, on, q, early);
      if q.closes {
        Close(i, on);
      }
      assert loans == old(loans)[i := Prepaid(l, on, year, q.principal, q.closes)];
    }

    /** What an optional payment takes and credits, before the loan it may close is retired. */
    method CreditPayment(i: nat, on: Date, q: Quote, early: bool)
      requires i < |loans| == |input.loans|
      modifies `loans, `cash, `res, `month, `periodSpent, `periodLeft
      ensures cash == old(cash) - q.outflow && res == ResultCredited(old(res), q, early) && month == MonthCredited(old(month), q)
      ensures periodSpent == old(periodSpent) + Counted(W(), q.outflow) && periodLeft == old(periodLeft) - Counted(W(), q.outflow)
      ensures loans == old(loans)[i := LoanCredited(input.loans[i].contract, old(loans[i]), on, q)]
      ensures Now() == Credited(W(), old(Now()), i, on, q, early)
    {
      hide LoanCredited, ResultCredited, MonthCredited, W, Counted;
      SpendPermission(q.outflow);
      cash := cash - q.outflow;
      res := ResultCredited(res, q, early);
      month := MonthCredited(month, q);
      loans := loans[i := LoanCredited(input.loans[i].contract, loans[i], on, q)];
    }

    // ---------- What optional payments may use ----------

    /** Cash beyond the floor, the dues of the income window and the promises made. */
    ghost function Spare(): int
      reads this
    {
      cash - input.cash.reserveFloor - Reservations(loans, nextIncome, incomeYM)
    }

    /** Permission beyond the dues left in the period and the promises made. */
    ghost function Permission(on: Date): int
      requires input.Separate() && IsSet(on) && YearMonth(on) > 12
      reads this
    {
      periodLeft - Claims(loans, on, PeriodEnd(input.cash.spending.value.cycleDay, on))
    }

    /** An amount optional payments may spend today without touching anything held back. */
    ghost predicate Affordable(amount: int, on: Date)
      requires IsSet(on) && YearMonth(on) > 12
      reads this
    {
      amount <= Spare() && (input.Separate() ==> amount <= Permission(on))
    }

    method Reserved() returns (r: int)
      ensures r == input.cash.reserveFloor + Reservations(loans, nextIncome, incomeYM)
    {
      r := input.cash.reserveFloor;
      for i := 0 to |loans|
        invariant r == input.cash.reserveFloor + Reservations(loans[..i], nextIncome, incomeYM)
      {
        assert loans[..i + 1][..i] == loans[..i];
        if !loans[i].closed {
          if (!IsSet(nextIncome) && YearMonth(loans[i].due) == incomeYM)
             || (IsSet(nextIncome) && Before(loans[i].due, nextIncome)) {
            r := r + loans[i].required;
          }
          r := r + loans[i].pending;
        }
      }
      assert loans[..|loans|] == loans;
    }

    method OptionalPermission(on: Date) returns (left: int)
      requires input.Separate() && IsSet(on) && YearMonth(on) > 12
      ensures left == Permission(on)
    {
      hide Before, PeriodEnd;
      var end := PeriodEnd(input.cash.spending.value.cycleDay, on);
      left := periodLeft;
      for i := 0 to |loans|
        invariant left == periodLeft - Claims(loans[..i], on, end)
      {
        assert loans[..i + 1][..i] == loans[..i];
        if !loans[i].closed {
          if !Before(loans[i].due, on) && Before(loans[i].due, end) {
            left := left - loans[i].required;
          }
          left := left - loans[i].pending;
        }
      }
      assert loans[..|loans|] == loans;
    }

    /** The surplus: none while cash is carried to a date, else what both cash and permission allow. */
    method OptionalCash(on: Date) returns (surplus: int)
      requires IsSet(on) && YearMonth(on) > 12
      ensures if input.Separate() && carryRule == CarryToDate && Before(on, carryUntil) then surplus == 0
              else Affordable(surplus, on) && (surplus == Spare() || (input.Separate() && surplus == Permission(on)))
      ensures surplus > 0 ==> Affordable(surplus, on)
      ensures surplus == SurplusIn(W(), Now(), on)
    {
      if input.Separate() && carryRule == CarryToDate && Before(on, carryUntil) {
        return 0;
      }
      var reserved := Reserved();
      surplus := cash - reserved;
      if input.Separate() {
        var permission := OptionalPermission(on);
        if permission < surplus {
          surplus := permission;
        }
      }
    }

    /** Asking for a quote books interest and changes nothing else a run relies on. */
    method AskQuote(i: nat, on: Date, available: nat) returns (q: Quote)
      requires Valid() && Today(on) && err.None? && i < |loans| && !loans[i].closed
      modifies `loans, `err
      ensures Valid() && AllDrift(old(loans), loans, clock)
      ensures err.Some? ==> err.value.NoQuote?
      ensures loans == old(loans)[i := Accrued(input.loans[i], old(loans[i]), on)]
      ensures IsSet(loans[i].from) && (loans[i].from == old(loans[i].from) || loans[i].from == on)
      ensures SameClaims(old(loans[i]), loans[i]) && Booked(loans[i], on) && loans[i].balance == old(loans[i].balance) >= 0
      ensures Spare() == old(Spare()) && RoomFor(i) == old(RoomFor(i))
      ensures input.Separate() ==> Permission(on) == old(Permission(on))
      ensures err.None? ==> Payable(q, loans[i], available)
      ensures (Now(), q) == Quoted(W(), old(Now()), i, on, available)
    {
      hide Now, W, Quoted, Accepted, Covers, LoanOk, DayNumber, TotalBalance, OpeningBalance, Restricted, TimelinePaid,
        Reservations, Claims, Before, After, Drifts, AllDrift, PeriodEnd, Fees.QuoteFor, AllowanceUsed, Payable;
      OpenBalanceIsNatural(input.loans[i], loans[i]);
      q := QuoteLoan(i, on, available);
      SwapLoan(old(loans), i, loans[i], nextIncome, incomeYM);
      if input.Separate() {
        ClaimsUpdate(old(loans), i, loans[i], on, PeriodEnd(input.cash.spending.value.cycleDay, on));
      }
      OneDrifts(old(loans), i, loans[i], clock);
      DriftIsMove(old(loans), loans, clock);
      MovesKeepDues(old(loans), loans, clock);
    }

    /** An optional payment keeps every identity and takes no more than itself from what is held back. */
    method PayOptional(i: nat, on: Date, q: Quote, early: bool)
      requires Valid() && Today(on) && cycle > 0 && i < |loans| && !loans[i].closed && Booked(loans[i], on)
      requires Payable(q, loans[i], q.outflow) && q.outflow <= cash && (input.Separate() ==> q.outflow <= periodLeft)
      modifies `loans, `cash, `res, `month, `budget, `periodSpent, `periodLeft
      ensures Valid()
      ensures cash == old(cash) - q.outflow
      ensures loans == old(loans)[i := Prepaid(old(loans[i]), on, ContractYear(input.loans[i].contract, on), q.principal, q.closes)]
      ensures res.timeline == old(res.timeline) && res.household == old(res.household)
      ensures res.totalPaid == old(res.totalPaid) + q.outflow
      ensures AllDrift(old(loans), loans, clock)
      ensures Spare() >= old(Spare()) - q.outflow && RoomFor(i) == old(RoomFor(i)) - q.outflow
      ensures input.Separate() ==> Permission(on) >= old(Permission(on)) - q.outflow
      ensures budget == if q.closes then BudgetAfter(W(), old(budget), Freed(old(loans[i]))) else old(budget)
      ensures Now() == Prepaying(W(), old(Now()), i, on, q, early)
    {
      hide Now, W, Prepaying, Accepted, Covers, LoanOk, DayNumber, TotalBalance, OpeningBalance, Restricted, TimelinePaid,
        Reservations, Claims, Before, After, Drifts, ContractYear, PeriodEnd, Conserved, Permitted, BudgetAfter, Freed;
      var p, l := input.loans[i], loans[i];
      assert LoanOk(p, l);
      OpenBalanceIsNatural(p, l);
      PrepaymentKeepsLoan(p, l, on, ContractYear(p.contract, on), q.principal, q.closes);
      Prepay(i, on, q, early);
      SwapLoan(old(loans), i, loans[i], nextIncome, incomeYM);
      if input.Separate() {
        ClaimsUpdate(old(loans), i, loans[i], on, PeriodEnd(input.cash.spending.value.cycleDay, on));
      }
      OneDrifts(old(loans), i, loans[i], clock);
      DriftIsMove(old(loans), loans, clock);
      MovesKeepDues(old(loans), loans, clock);
    }

    /** A fresh obligation for the loan whose due was just settled: what the others and the floor hold back stays. */
    method RefreshSettled(i: nat, on: Date)
      requires Valid() && Today(on) && err.None? && i < |loans| && !loans[i].closed && !After(loans[i].from, on)
      requires Amortisation.DatesAhead(input.loans[i].contract, on).Ok?
      modifies `loans, `err
      ensures err.Some? ==> err.value.NoProjection?
      ensures err.None? ==> Valid() && AllDrift(old(loans), loans, clock) && loans == old(loans)[i := loans[i]]
      ensures err.None? ==> SameTerms(old(loans[i]), loans[i])
      ensures err.None? && loans[i].from == on ==> After(loans[i].due, on)
      ensures err.None? && After(old(loans[i].due), on) ==> loans[i].due == old(loans[i].due)
      ensures err.None? && After(old(loans[i].due), on) && !InWindow(old(loans[i]), nextIncome, incomeYM) ==>
                Spare() >= old(Spare())
      ensures err.None? ==> RoomFor(i) == old(RoomFor(i))
      ensures Now() == Renewed(W(), old(Now()), i)
    {
      hide Now, W, Renewed, Accepted, Covers, LoanOk, DayNumber, TotalBalance, OpeningBalance, Restricted, TimelinePaid,
        Reservations, Before, After, Drifts, Amortisation.DatesAhead, ProjectionMemo.NextFor;
      assert LoanOk(input.loans[i], loans[i]);
      OpenLoanIsLive(input.loans[i], loans[i]);
      CompareIsDayOrder(on, loans[i].due);
      EarlierHasDates(input.loans[i].contract, loans[i].from, on);
      Refresh(i);
      if err.Some? {
        return;
      }
      RefreshMoves(input.loans[i], old(loans[i]), on);
      SwapLoan(old(loans), i, loans[i], nextIncome, incomeYM);
      OneDrifts(old(loans), i, loans[i], clock);
      DriftIsMove(old(loans), loans, clock);
      MovesKeepDues(old(loans), loans, clock);
    }

    /** Cash beyond what every other loan and the floor hold back. */
    ghost function RoomFor(i: nat): int
      requires i < |loans|
      reads this
    {
      Spare() + Hold(loans[i], nextIncome, incomeYM)
    }

    // ---------- Routed cash ----------

    /** What the loan whose due was just settled may still be asked: its next date is known. */
    ghost predicate Settled(dueLoan: int, on: Date)
      requires IsSet(on)
      reads this
    {
      -1 <= dueLoan < |loans| == |input.loans| &&
      (dueLoan >= 0 && !loans[dueLoan].closed ==>
         && !After(loans[dueLoan].from, on)
         && Amortisation.DatesAhead(input.loans[dueLoan].contract, on).Ok?)
    }

    /** The settled loan asks for nothing more before the next income. */
    ghost predicate OutOfWindow(dueLoan: int, on: Date)
      requires dueLoan < |loans|
      reads this
    {
      dueLoan >= 0 && !loans[dueLoan].closed ==>
        After(loans[dueLoan].due, on) && !InWindow(loans[dueLoan], nextIncome, incomeYM)
    }

    method FindLoan(id: string) returns (i: int)
      requires |loans| == |input.loans|
      ensures -1 <= i < |loans|
      ensures i >= 0 ==> input.loans[i].id == id && forall k :: 0 <= k < i ==> input.loans[k].id != id
      ensures i < 0 ==> forall k :: 0 <= k < |loans| ==> input.loans[k].id != id
    {
      for k := 0 to |loans|
        invariant forall j :: 0 <= j < k ==> input.loans[j].id != id
      {
        if input.loans[k].id == id {
          return k;
        }
      }
      return -1;
    }

    /** Batching: a partial payment below the policy's or the period's minimum is held back. */
    predicate TooSmall(q: Quote)
      reads this
    {
      !q.closes &&
      ((input.Separate() && carryRule == BatchUntil && q.principal < carryMinimum)
       || (policy.minPrepay > 0 && q.principal < policy.minPrepay))
    }

    /** Moves money from one bucket into the pool. */
    method PassThrough(k: nat, amount: nat)
      requires Valid() && k < |buckets| && buckets[k].released && amount <= buckets[k].remaining
      modifies `cash, `buckets
      ensures Valid() && amount <= cash && cash == old(cash) + amount && Spare() == old(Spare()) + amount
      ensures buckets == old(buckets)[k := old(buckets[k]).(remaining := old(buckets[k].remaining) - amount)]
      ensures Now() == old(Now()).(cash := cash, buckets := buckets)
    {
      hide Accepted, Covers, LoansOk, DayNumber, TotalBalance, OpeningBalance, Restricted, TimelinePaid, Reservations;
      var spent := buckets[k].(remaining := buckets[k].remaining - amount);
      RestrictedUpdate(buckets, k, spent);
      buckets := buckets[k := spent];
      cash := cash + amount;
    }

    /** Spends a quoted outflow from one bucket on its loan; the pool is only passed through. */
    method SpendBucket(k: nat, i: nat, on: Date, dueLoan: int, q: Quote, early: bool)
      requires Valid() && Today(on) && cycle > 0 && err.None? && Settled(dueLoan, on) && k < |buckets|
      requires buckets[k].released && !Before(on, buckets[k].until) && q.outflow <= buckets[k].remaining
      requires i < |loans| && !loans[i].closed && Booked(loans[i], on) && Payable(q, loans[i], q.outflow)
      requires q.outflow > 0 && (input.Separate() ==> q.outflow <= periodLeft)
      modifies `loans, `cash, `buckets, `res, `month, `budget, `periodSpent, `periodLeft, `err
      ensures err.None? ==> Valid() && Settled(dueLoan, on)
      ensures err.Some? ==> err.value.NoProjection?
      ensures res.timeline == old(res.timeline) && res.household == old(res.household)
      ensures buckets == old(buckets)[k := old(buckets[k]).(remaining := old(buckets[k].remaining) - q.outflow)]
      ensures err.None? ==> AllDrift(old(loans), loans, clock)
      ensures err.None? && old(OutOfWindow(dueLoan, on)) ==> OutOfWindow(dueLoan, on) && Spare() >= old(Spare())
      ensures Now() == BucketSpent(W(), old(Now()), k, i, on, dueLoan, q, early)
    {
      hide Accepted, Covers, LoanOk, DayNumber, Amortisation.DatesAhead, ProjectionMemo.NextFor, TotalBalance,
        OpeningBalance, Restricted, TimelinePaid, Reservations, Claims, Before, After, Drifts, ContractYear, AllDrift,
        PeriodEnd, Now, W, Prepaying, Renewed, Conserved, Permitted, Ready;
      PassThrough(k, q.outflow);
      CompareIsDayOrder(loans[i].from, on);
      PayOptional(i, on, q, early);
      if i == dueLoan && !loans[i].closed {
        ghost var paid := loans;
        RefreshSettled(i, on);
        if err.None? {
          AllDriftIsTransitive(old(loans), paid, loans, clock);
        }
      }
    }

    /** What a bucket may spend: its own money, within the reserve and permission guards that free cash has. */
    method BucketAllowance(k: nat, on: Date) returns (available: int)
      requires Valid() && Today(on) && k < |buckets|
      modifies `cash
      ensures Valid() && cash == old(cash) && Now() == old(Now()) && Spare() == old(Spare())
      ensures available <= buckets[k].remaining && (available > 0 && input.Separate() ==> available <= periodLeft)
      ensures available == var surplus := SurplusIn(W(), old(Now()).(cash := old(cash) + buckets[k].remaining), on);
                           if surplus > buckets[k].remaining then buckets[k].remaining else surplus
    {
      hide Accepted, Covers, LoansOk, DayNumber, TotalBalance, OpeningBalance, Restricted, TimelinePaid, Reservations,
        Claims, Before, PeriodEnd, SurplusIn, W;
      var money := buckets[k].remaining;
      cash := cash + money;
      available := OptionalCash(on);
      cash := cash - money;
      if available > money {
        available := money;
      }
    }

    /** Asks a loan for a quote on a bucket's behalf, under the same reserve and permission guards as free cash. */
    method RouteToLoan(k: nat, i: nat, on: Date, dueLoan: int)
      requires Valid() && Today(on) && cycle > 0 && err.None? && Settled(dueLoan, on) && k < |buckets| && i < |loans|
      requires Spendable(buckets[k], on) && !loans[i].closed
      modifies `loans, `cash, `buckets, `res, `month, `budget, `periodSpent, `periodLeft, `err
      ensures err.None? ==> Valid() && Settled(dueLoan, on)
      ensures err.Some? ==> err.value.NoQuote? || err.value.NoProjection?
      ensures res.timeline == old(res.timeline) && res.household == old(res.household)
      ensures |buckets| == |old(buckets)| && buckets == old(buckets)[k := buckets[k]]
      ensures buckets[k] == old(buckets[k]).(remaining := buckets[k].remaining)
      ensures err.None? ==> AllDrift(old(loans), loans, clock)
      ensures err.None? && old(OutOfWindow(dueLoan, on)) ==> OutOfWindow(dueLoan, on) && Spare() >= old(Spare())
      ensures Now() == RoutedTo(W(), old(Now()), k, i, on, dueLoan)
    {
      hide Accepted, Covers, LoanOk, DayNumber, Amortisation.DatesAhead, TotalBalance, OpeningBalance, Restricted, TimelinePaid,
        Reservations, Claims, Before, After, Drifts, Accrued, AllDrift, PeriodEnd, Fees.QuoteFor, AllowanceUsed, LoansOk,
        Now, W, Quoted, BucketSpent, SurplusIn, Conserved, Ready;
      NothingDrifts(loans, clock);
      var l, b := loans[i], buckets[k];
      var early := i != dueLoan && l.timing == OnReceipt && Before(on, l.due);
      if !early && i != dueLoan && Before(on, l.due) {
        return;
      }
      var available := BucketAllowance(k, on);
      if available <= 0 {
        return;
      }
      var q := AskQuote(i, on, available);
      if err.Some? || q.outflow <= 0 || TooSmall(q) {
        return;
      }
      ghost var quoted := loans;
      SpendBucket(k, i, on, dueLoan, q, early);
      if err.None? {
        AllDriftIsTransitive(old(loans), quoted, loans, clock);
      }
    }

    /** Tests a bucket's gates on a day. */
    method Reconsider(k: nat, on: Date) returns (b: CashBucket)
      requires Valid() && Today(on) && k < |buckets|
      modifies `buckets
      ensures Valid() && Spare() == old(Spare())
      ensures b == Reconsidered(old(buckets[k]), on) && buckets == old(buckets)[k := b]
      ensures WakeMoves(old(buckets[k]), b) && (IsSet(b.wake) ==> After(b.wake, on)) && b.remaining == old(buckets[k].remaining)
      ensures Now() == old(Now()).(buckets := buckets)
    {
      hide Accepted, Covers, LoansOk, DayNumber, TotalBalance, OpeningBalance, Restricted, TimelinePaid, Reservations,
        Before, After, Reconsidered;
      b := Reconsidered(buckets[k], on);
      ReconsideringIsSafe(buckets[k], on);
      RestrictedUpdate(buckets, k, b);
      buckets := buckets[k := b];
    }

    /** Reconsiders one bucket: keeps it, releases it to the pool, or spends it on its loan. */
    method RouteOne(k: nat, on: Date, dueLoan: int)
      requires Valid() && Today(on) && cycle > 0 && err.None? && Settled(dueLoan, on) && k < |buckets|
      modifies `loans, `cash, `buckets, `res, `month, `budget, `periodSpent, `periodLeft, `err
      ensures err.None? ==> Valid() && Settled(dueLoan, on)
      ensures err.Some? ==> err.value.NoQuote? || err.value.NoProjection?
      ensures res.timeline == old(res.timeline) && res.household == old(res.household)
      ensures |buckets| == |old(buckets)| && buckets == old(buckets)[k := buckets[k]]
      ensures WakeMoves(old(buckets[k]), buckets[k]) && (IsSet(buckets[k].wake) ==> After(buckets[k].wake, on))
      ensures err.None? ==> AllDrift(old(loans), loans, clock)
      ensures err.None? && old(OutOfWindow(dueLoan, on)) ==> OutOfWindow(dueLoan, on) && Spare() >= old(Spare())
      ensures Now() == RoutedOne(W(), old(Now()), k, on, dueLoan)
    {
      hide Accepted, Covers, LoanOk, DayNumber, Amortisation.DatesAhead, TotalBalance, OpeningBalance, Restricted, TimelinePaid,
        Reservations, Before, After, Drifts, Reconsidered, AllDrift, Now, W, RoutedTo, Conserved, Permitted, Ready;
      var b := Reconsider(k, on);
      NothingDrifts(loans, clock);
      if !Spendable(b, on) {
        return;
      }
      if b.target == "" {
        PassThrough(k, b.remaining);
        return;
      }
      if policy.requiredOnly {
        return;
      }
      var i := FindLoan(b.target);
      if i < 0 || loans[i].closed {
        return;
      }
      RouteToLoan(k, i, on, dueLoan);
    }

    /** Reconsiders every bucket in its stable order; an error leaves the rest untouched. */
    method RouteCash(on: Date, dueLoan: int)
      requires Valid() && Today(on) && cycle > 0 && err.None? && Settled(dueLoan, on)
      modifies `loans, `cash, `buckets, `res, `month, `budget, `periodSpent, `periodLeft, `err
      ensures err.None? ==> Valid()
      ensures err.Some? ==> err.value.NoQuote? || err.value.NoProjection?
      ensures res.timeline == old(res.timeline) && res.household == old(res.household)
      ensures err.None? ==> AllDrift(old(loans), loans, clock) && WakesMove(old(buckets), buckets) && Asleep(on)
      ensures err.None? && old(OutOfWindow(dueLoan, on)) ==> OutOfWindow(dueLoan, on) && Spare() >= old(Spare())
      ensures Now() == Routed(W(), old(Now()), on, dueLoan)
    {
      hide Accepted, Covers, LoanOk, LoansOk, DayNumber, Conserved, Permitted, Ready, Before, After, Drifts, AllDrift, Spare,
        InWindow, Amortisation.DatesAhead, WakeMoves, Now, W, RoutedOne;
      NothingDrifts(loans, clock);
      forall k | 0 <= k < |buckets| ensures WakeMoves(buckets[k], buckets[k]) {
        WakeStays(buckets[k]);
      }
      for k := 0 to |buckets|
        invariant |buckets| == |old(buckets)|
        invariant err.None? && Valid() && Settled(dueLoan, on) && AllDrift(old(loans), loans, clock)
        invariant res.timeline == old(res.timeline) && res.household == old(res.household)
        invariant forall j :: 0 <= j < |buckets| ==> WakeMoves(old(buckets)[j], buckets[j])
        invariant forall j :: k <= j < |buckets| ==> buckets[j] == old(buckets)[j]
        invariant forall j :: 0 <= j < k && IsSet(buckets[j].wake) ==> After(buckets[j].wake, on)
        invariant old(OutOfWindow(dueLoan, on)) ==> OutOfWindow(dueLoan, on) && Spare() >= old(Spare())
        invariant RoutedFrom(W(), Now(), k, on, dueLoan) == Routed(W(), old(Now()), on, dueLoan)
      {
        ghost var before := loans;
        RouteOne(k, on, dueLoan);
        if err.Some? {
          return;
        }
        AllDriftIsTransitive(old(loans), before, loans, clock);
      }
    }

    /** No bucket asks to be reconsidered on or before the day. */
    ghost predicate Asleep(on: Date)
      reads this
    {
      forall k :: 0 <= k < |buckets| && IsSet(buckets[k].wake) ==> After(buckets[k].wake, on)
    }

    // ---------- Free cash ----------

    /**
     Spends the surplus down the priority order. A loan paid on receipt is paid now; otherwise
     its share is held for its due date. What no loan absorbs stays in the pool.
     */
    method Allocate(on: Date)
      requires Valid() && Today(on) && cycle > 0 && err.None?
      modifies `loans, `cash, `buckets, `res, `month, `budget, `periodSpent, `periodLeft, `err
      ensures err.None? ==> Valid()
      ensures err.Some? ==> err.value.NoQuote? || err.value.NoProjection?
      ensures res.timeline == old(res.timeline) && res.household == old(res.household)
      ensures err.None? ==> AllMove(old(loans), loans, clock) && WakesMove(old(buckets), buckets) && Asleep(on)
      ensures err.None? && old(Protected()) ==> Protected()
      ensures Now() == Allocated(W(), old(Now()), on)
      ensures Distribution.AllocatedInOrder(W(), old(Now()), Now(), on)
    {
      hide Distribution.AllocatedInOrder, Accepted, LoanOk, LoansOk, DayNumber, Conserved, Permitted, Ready, Before, After,
        AllDrift, AllMove, WakesMove, Amortisation.DatesAhead, Payable, Fees.QuoteFor, AllowanceUsed, Reservations, Now, W,
        Routed, Offered, SurplusIn;
      SharesInOrder(on);
      RouteCash(on, -1);
      if err.None? {
        DriftIsMove(old(loans), loans, clock);
      }
      if err.Some? || policy.requiredOnly {
        return;
      }
      var surplus := OptionalCash(on);
      if surplus <= 0 {
        return;
      }
      ghost var routed := loans;
      Distribute(on, surplus);
      if err.None? {
        AllMoveIsTransitive(old(loans), routed, loans, clock);
      }
    }

    /** What allocating leaves is the surplus shared in the policy's order. */
    lemma SharesInOrder(on: Date)
      requires Valid() && Today(on)
      ensures Over(W(), Now()) && IsDay(on)
      ensures Distribution.AllocatedInOrder(W(), Now(), Allocated(W(), Now(), on), on)
    {
      hide LoansOk, DayNumber, Conserved, Permitted, Ready, Distribution.AllocatedInOrder, Allocated;
      Distribution.AllocatingSharesInOrder(W(), Now(), on);
    }

    /** Offers a surplus to the open loans in the priority order. */
    method Distribute(on: Date, surplus: nat)
      requires Valid() && Today(on) && cycle > 0 && err.None? && surplus > 0 && Affordable(surplus, on)
      modifies `loans, `cash, `res, `month, `budget, `periodSpent, `periodLeft, `err
      ensures err.None? ==> Valid() && Protected() && AllMove(old(loans), loans, clock)
      ensures err.Some? ==> err.value.NoQuote?
      ensures res.timeline == old(res.timeline) && res.household == old(res.household)
      ensures Now() == OfferedFrom(W(), old(Now()), on, surplus, 0)
    {
      hide Accepted, LoanOk, LoansOk, DayNumber, Conserved, Permitted, Ready, Before, After, AllDrift, AllMove,
        Payable, Fees.QuoteFor, AllowanceUsed, Reservations, Now, W, Offered;
      NothingDrifts(loans, clock);
      DriftIsMove(loans, loans, clock);
      var left := surplus;
      for k := 0 to |policy.order|
        invariant err.None? && Valid() && Covers(policy, |input.loans|)
        invariant AllMove(old(loans), loans, clock)
        invariant res.timeline == old(res.timeline) && res.household == old(res.household)
        invariant left >= 0 && Affordable(left, on)
        invariant OfferedFrom(W(), Now(), on, left, k) == OfferedFrom(W(), old(Now()), on, surplus, 0)
      {
        var i := policy.order[k];
        if !loans[i].closed && !input.loans[i].optionalExcluded && left > 0 {
          ghost var before := loans;
          left := Offer(i, on, left);
          if err.Some? {
            return;
          }
          AllMoveIsTransitive(old(loans), before, loans, clock);
        }
      }
    }

    /** What is affordable is in the pool, and within the permission left. */
    lemma AffordableIsInHand(amount: int, on: Date)
      requires Valid() && IsSet(on) && YearMonth(on) > 12 && Affordable(amount, on)
      ensures amount <= cash && (input.Separate() ==> amount <= periodLeft)
    {
      hide Accepted, LoansOk, Conserved, Permitted, Ready, PeriodEnd, Reservations, Claims;
      FloorIsNatural(input);
    }

    /** Holds money for a loan's due date, where it cannot be promised twice. */
    method HoldForDue(i: nat, on: Date, amount: nat)
      requires Valid() && Today(on) && i < |loans| && !loans[i].closed
      modifies `loans
      ensures Valid() && AllMove(old(loans), loans, clock)
      ensures loans == old(loans)[i := old(loans[i]).(pending := old(loans[i]).pending + amount)]
      ensures Spare() == old(Spare()) - amount
      ensures input.Separate() ==> Permission(on) == old(Permission(on)) - amount
    {
      hide Accepted, Covers, DayNumber, TotalBalance, OpeningBalance, Restricted, TimelinePaid, Reservations, Claims,
        Before, After, PeriodEnd, AllMove, LoanOk, Moves;
      var l := loans[i].(pending := loans[i].pending + amount);
      PendingKeepsLoan(input.loans[i], loans[i], loans[i].pending + amount, clock);
      SwapLoan(loans, i, l, nextIncome, incomeYM);
      if input.Separate() {
        ClaimsUpdate(loans, i, l, on, PeriodEnd(input.cash.spending.value.cycleDay, on));
      }
      OneMoves(loans, i, l, clock);
      MovesKeepDues(loans, loans[i := l], clock);
      loans := loans[i := l];
    }

    /** A lender that credits early payments, a policy that pays on receipt, and a due date still ahead. */
    predicate PaidOnReceipt(i: nat, l: LoanState, on: Date)
      requires i < |input.loans|
    {
      l.timing == OnReceipt && input.loans[i].excess == ReducePrincipal && Before(on, l.due)
    }

    /** Offers a surplus to one loan: pays it, holds it for the due date, or leaves it. */
    method Offer(i: nat, on: Date, surplus: nat) returns (left: nat)
      requires Valid() && Today(on) && cycle > 0 && err.None? && i < |loans| && !loans[i].closed && Affordable(surplus, on)
      modifies `loans, `cash, `res, `month, `budget, `periodSpent, `periodLeft, `err
      ensures err.Some? ==> err.value.NoQuote?
      ensures err.None? ==> Valid() && AllMove(old(loans), loans, clock) && Affordable(left, on)
      ensures res.timeline == old(res.timeline) && res.household == old(res.household)
      ensures (Now(), left) == Offered(W(), old(Now()), i, on, surplus)
    {
      hide Now, W, Quoted, Prepaying, Accepted, Covers, LoanOk, LoansOk, DayNumber, Conserved, Permitted, Ready, Before,
        After, AllDrift, AllMove, Fees.QuoteFor, AllowanceUsed, Accrued, Prepaid, ContractYear;
      OpenLoan(i);
      var q := AskQuote(i, on, surplus);
      DriftIsMove(old(loans), loans, clock);
      if err.Some? || q.outflow <= 0 || TooSmall(q) {
        return surplus;
      }
      ghost var quoted := loans;
      if PaidOnReceipt(i, loans[i], on) {
        AffordableIsInHand(q.outflow, on);
        PayOptional(i, on, q, true);
        DriftIsMove(quoted, loans, clock);
      } else {
        HoldForDue(i, on, q.outflow);
      }
      AllMoveIsTransitive(old(loans), quoted, loans, clock);
      return surplus - q.outflow;
    }

    // ---------- Receipts ----------

    lemma LoanIsOk(i: nat)
      requires Valid() && i < |loans|
      ensures LoanOk(input.loans[i], loans[i])
    {
    }

    lemma OpenLoan(i: nat)
      requires Valid() && i < |loans| && !loans[i].closed
      ensures LoanOk(input.loans[i], loans[i]) && input.loans[i].balance > 0
      ensures loans[i].balance >= 0 && IsSet(loans[i].from) && IsSet(loans[i].due) && DayNumber(loans[i].due) >= clock
    {
      OpenLoanIsLive(input.loans[i], loans[i]);
    }

    /** A credit to the pool. */
    method TakeIn(amount: int)
      requires Valid() && amount >= 0
      modifies `cash, `inflow
      ensures Valid() && cash == old(cash) + amount && inflow == old(inflow) + amount
      ensures Now() == old(Now()).(cash := cash, inflow := inflow)
    {
      hide Accepted, Covers, LoansOk, DayNumber, Restricted, TotalBalance, OpeningBalance, TimelinePaid, DuesFrom, BucketsOk;
      cash := cash + amount;
      inflow := inflow + amount;
    }

    /** Adds one part of a receipt to the bucket it matches, or opens a bucket for it. */
    method AddPart(part: CashSplit, r: CashRouting, on: Date)
      requires part.amount > 0 && BucketsOk(buckets, clock)
      requires IsSet(on) && YearMonth(on) > 12 && DayNumber(on) >= clock
      requires IsSet(r.holdUntil) ==> !Before(r.holdUntil, on)
      modifies `buckets
      ensures BucketsOk(buckets, clock)
      ensures Restricted(buckets) == Restricted(old(buckets)) + part.amount
      ensures buckets == PartIn(old(buckets), part, r, on, 0)
    {
      hide DayNumber, Restricted;
      for k := 0 to |buckets|
        invariant buckets == old(buckets)
        invariant PartIn(buckets, part, r, on, k) == PartIn(buckets, part, r, on, 0)
      {
        var b := buckets[k];
        if Merges(b, part.loanId, r.holdUntil, r.holdMinimum) {
          var more := b.(remaining := b.remaining + part.amount);
          assert BucketOk(b, clock);
          RestrictedUpdate(buckets, k, more);
          buckets := buckets[k := more];
          return;
        }
      }
      var b := CashBucket(part.loanId, part.amount, r.holdUntil, r.holdMinimum, false, on);
      if IsSet(r.holdUntil) {
        NoEarlierMonth(on, r.holdUntil);
      }
      assert BucketOk(b, clock);
      RestrictedAppend(buckets, b);
      buckets := buckets + [b];
    }

    /** The first cycle opens with the first event that needs one. */
    method EnsureCycle(on: Date)
      requires Valid() && Today(on)
      modifies `cycle, `cycleIncome, `month
      ensures Valid() && cycle > 0
      ensures old(cycle) > 0 ==> cycle == old(cycle) && cycleIncome == old(cycleIncome) && month == old(month)
      ensures old(cycle) == 0 ==> cycle == 1 && cycleIncome == on && month == EMPTY_MONTH.(on := on)
      ensures Now() == WithCycle(old(Now()), on)
    {
      hide Accepted, Covers, LoansOk, DayNumber, Restricted, TotalBalance, OpeningBalance, DuesFrom, BucketsOk;
      if cycle == 0 {
        OpenCycle(on);
      }
    }

    /** Splits a routed receipt over its buckets and restores their stable order. */
    method AddRouted(e: CashEvent)
      requires e.routing.Some? && RoutingAccepted(input, e) && BucketsOk(buckets, clock)
      requires IsSet(e.on) && YearMonth(e.on) > 12 && DayNumber(e.on) >= clock
      modifies `buckets
      ensures BucketsOk(buckets, clock)
      ensures Restricted(buckets) == Restricted(old(buckets)) + e.amount
      ensures exists unsorted :: buckets == SortBuckets(unsorted)
      ensures buckets == RoutedIn(old(buckets), e)
    {
      hide DayNumber, BucketsOk, Restricted, TargetAccepts;
      var parts := Parts(e);
      PartsAddUp(input, e);
      for k := 0 to |parts|
        invariant BucketsOk(buckets, clock)
        invariant Restricted(buckets) + SplitTotal(parts[k..]) == Restricted(old(buckets)) + e.amount
        invariant PartsIn(buckets, parts[k..], e.routing.value, e.on) == PartsIn(old(buckets), parts, e.routing.value, e.on)
      {
        assert parts[k..][0] == parts[k] && parts[k..][1..] == parts[k + 1..];
        AddPart(parts[k], e.routing.value, e.on);
      }
      SortKeepsBuckets(buckets);
      SortKeepsBucketsOk(buckets, clock);
      buckets := SortBuckets(buckets);
    }

    /** Takes in every confirmed receipt of the day before anything is allocated. */
    method ReceiveRoutedDate(on: Date)
      requires Valid() && Today(on) && err.None? && cycle > 0 && exists k :: 0 <= k < |lumps| && lumps[k].on == on
      modifies `lumps, `inflow, `cash, `buckets
      ensures Valid() && |lumps| < |old(lumps)|
      ensures forall k :: 0 <= k < |lumps| ==> lumps[k].on != on
      ensures inflow - old(inflow) == cash - old(cash) + Restricted(buckets) - old(Restricted(buckets))
      ensures inflow == old(inflow) + Received(old(lumps), on) && cash >= old(cash)
      ensures Now() == ReceivedFrom(old(Now()), old(lumps), on, 0, [])
    {
      hide Accepted, Covers, LoansOk, DayNumber, Restricted, TotalBalance, OpeningBalance, TimelinePaid, DuesFrom, BucketsOk,
        RoutingAccepted, Received, Now, ReceivedOne, Conserved, Permitted, Ready;
      var all := lumps;
      var remaining: seq<CashEvent> := [];
      ReceivedNothing(on);
      for k := 0 to |all|
        invariant lumps == all == old(lumps)
        invariant Valid()
        invariant StillWaiting(remaining) && forall j :: 0 <= j < |remaining| ==> remaining[j].on != on
        invariant |remaining| <= k && ((exists j :: 0 <= j < k && all[j].on == on) ==> |remaining| < k)
        invariant inflow - old(inflow) == cash - old(cash) + Restricted(buckets) - old(Restricted(buckets))
        invariant inflow == old(inflow) + Received(all[..k], on) && cash >= old(cash)
        invariant ReceivedFrom(Now(), all, on, k, remaining) == ReceivedFrom(old(Now()), all, on, 0, [])
      {
        var e := all[k];
        ReceivedOneMore(all, k, on);
        WaitingLonger(remaining, k);
        if e.on != on {
          remaining := remaining + [e];
        } else {
          ReceiveOne(e);
        }
      }
      assert all[..|all|] == all;
      KeepWaiting(remaining);
    }

    /** Receipts that may still be taken in. */
    ghost predicate StillWaiting(events: seq<CashEvent>)
      reads this
    {
      forall j :: 0 <= j < |events| ==>
        && events[j] in input.cash.lumps && !events[j].fromOpening && DayNumber(events[j].on) >= clock
        && (!hasRouting ==> events[j].routing.None?)
    }

    lemma WaitingLonger(events: seq<CashEvent>, k: nat)
      requires Valid() && k < |lumps| && StillWaiting(events)
      ensures lumps[k] in input.cash.lumps && StillWaiting(events + [lumps[k]])
    {
      hide Accepted, LoansOk, Conserved, Permitted, DayNumber;
    }

    method KeepWaiting(remaining: seq<CashEvent>)
      requires Valid() && StillWaiting(remaining)
      modifies `lumps
      ensures Valid() && Now() == old(Now()).(lumps := remaining)
    {
      hide Accepted, Covers, LoansOk, DayNumber, Restricted, TotalBalance, OpeningBalance, TimelinePaid, DuesFrom, BucketsOk;
      lumps := remaining;
    }

    /** One receipt of the day, to the pool or to its buckets. */
    method ReceiveOne(e: CashEvent)
      requires Valid() && Today(e.on) && e in input.cash.lumps
      modifies `inflow, `cash, `buckets
      ensures Valid() && inflow == old(inflow) + e.amount && cash >= old(cash)
      ensures inflow - old(inflow) == cash - old(cash) + Restricted(buckets) - old(Restricted(buckets))
      ensures Now() == ReceivedOne(old(Now()), e)
    {
      hide Accepted, Covers, LoansOk, DayNumber, Restricted, TotalBalance, OpeningBalance, TimelinePaid, DuesFrom, BucketsOk,
        RoutingAccepted, RoutedIn, W;
      AcceptedReceipt(input, e);
      inflow := inflow + e.amount;
      if e.routing.None? {
        cash := cash + e.amount;
      } else {
        AddRouted(e);
      }
      assert Conserved() && Permitted() && Ready();
    }

    method DropLump(k: nat)
      requires Valid() && k < |lumps|
      modifies `lumps
      ensures Valid() && lumps == old(lumps)[..k] + old(lumps)[k + 1..]
      ensures Now() == old(Now()).(lumps := lumps)
    {
      hide Accepted, Covers, LoansOk, DayNumber, Restricted, TotalBalance, OpeningBalance, TimelinePaid, DuesFrom, BucketsOk;
      lumps := lumps[..k] + lumps[k + 1..];
    }

    /** One receipt: pooled and allocated at once, or, where any receipt is routed, with its whole day. */
    method Lump(k: nat, on: Date)
      requires Valid() && Today(on) && err.None? && k < |lumps| && lumps[k].on == on
      modifies `lumps, `inflow, `cycle, `cycleIncome, `month, `loans, `cash, `buckets, `res, `budget, `periodSpent, `periodLeft, `err
      ensures err.None? ==> Valid() && cycle > 0 && |lumps| < |old(lumps)|
      ensures err.Some? ==> err.value.NoQuote? || err.value.NoProjection?
      ensures inflow == old(inflow) + if hasRouting then Received(old(lumps), on) else old(lumps)[k].amount
      ensures err.None? ==> AllMove(old(loans), loans, clock)
      ensures err.None? && old(Protected()) ==> Protected()
      ensures Now() == LumpTaken(W(), old(Now()), k, on)
    {
      hide Distribution.AllocatedInOrder, Accepted, Covers, LoansOk, DayNumber, Conserved, Permitted, RoutingAccepted,
        Received, Reservations, AllMove, Now, W, Allocated, LumpReceived, Ready;
      Receive(k, on);
      Allocate(on);
    }

    /** Takes in one receipt, or the whole day's where any receipt is routed. */
    method Receive(k: nat, on: Date)
      requires Valid() && Today(on) && err.None? && k < |lumps| && lumps[k].on == on
      modifies `lumps, `inflow, `cycle, `cycleIncome, `month, `cash, `buckets
      ensures Valid() && cycle > 0 && |lumps| < |old(lumps)|
      ensures inflow == old(inflow) + if hasRouting then Received(old(lumps), on) else old(lumps)[k].amount
      ensures cash >= old(cash)
      ensures Now() == LumpReceived(old(Now()), k, on)
    {
      hide Accepted, Covers, LoansOk, DayNumber, Conserved, Permitted, RoutingAccepted, Received, Reservations,
        Now, W, ReceivedFrom, WithCycle;
      EnsureCycle(on);
      if hasRouting {
        assert lumps[k].on == on;
        ReceiveRoutedDate(on);
      } else {
        var e := lumps[k];
        AcceptedReceipt(input, e);
        DropLump(k);
        TakeIn(e.amount);
      }
    }

    // ---------- Income ----------

    /** Ends the current cycle and opens the next; the timeline keeps every payment. */
    method NextCycle(on: Date)
      requires Valid() && Today(on) && cycle > 0
      modifies `cycle, `cycleIncome, `month, `res
      ensures Valid() && cycle == old(cycle) + 1 && cycleIncome == on && month == EMPTY_MONTH.(on := on)
      ensures |res.timeline| == |old(res.timeline)| + 1 && res.timeline[..|old(res.timeline)|] == old(res.timeline)
      ensures res.totalPaid == old(res.totalPaid) && res.household == old(res.household)
      ensures Now() == Turned(old(Now()), on)
    {
      hide Accepted, Covers, LoansOk, DayNumber, Restricted, TotalBalance, OpeningBalance, TimelinePaid, DuesFrom, BucketsOk,
        OpenBalance;
      CloseCycle();
      TimelineAppend(old(res.timeline), month);
      OpenCycle(on);
    }

    /** What a cycle's income brings: the month's stated override, else the declared funding or the running budget. */
    function Credit(on: Date): (c: int)
      reads this
    {
      var key := YearMonth(on);
      if key in input.cash.monthlyOverrides then input.cash.monthlyOverrides[key]
      else if input.Separate() then input.cash.monthly
      else budget
    }

    function IncomeAfter(on: Date): (d: Date)
      requires IsSet(on)
      ensures input.cash.payDay != 0 ==> IsSet(d) && YearMonth(d) == YearMonth(on) + 1 && After(d, on)
      ensures input.cash.payDay == 0 ==> d == UNSET
    {
      if input.cash.payDay == 0 then UNSET
      else
        var d := OnDayOfMonth(AddMonths(on, 1), input.cash.payDay);
        LaterMonthIsAfter(on, d);
        d
    }

    lemma CreditIsNatural(on: Date)
      requires Valid()
      ensures Credit(on) >= 0
    {
    }

    /** Credits a cycle's income, opening its cycle unless one is open for the day, and allocates it. */
    method Income(on: Date)
      requires Valid() && Today(on) && err.None?
      modifies `cycle, `cycleIncome, `month, `res, `cash, `inflow, `nextIncome, `incomeYM,
               `loans, `buckets, `budget, `periodSpent, `periodLeft, `err
      ensures err.None? ==> Valid() && cycle > 0
      ensures err.Some? ==> err.value.NoQuote? || err.value.NoProjection?
      ensures inflow == old(inflow) + old(Credit(on)) && nextIncome == IncomeAfter(on) && incomeYM == YearMonth(on)
      ensures inflow - old(inflow) == if YearMonth(on) in input.cash.monthlyOverrides then input.cash.monthlyOverrides[YearMonth(on)]
                                      else if input.Separate() then input.cash.monthly
                                      else old(budget)
      ensures input.cash.payDay != 0 ==>
                && IsSet(nextIncome) && YearMonth(nextIncome) == YearMonth(on) + 1
                && (nextIncome.d == input.cash.payDay || YearMonth(NextDay(nextIncome)) == YearMonth(nextIncome) + 1)
      ensures err.None? ==> AllMove(old(loans), loans, clock) && WakesMove(old(buckets), buckets) && Asleep(on)
      ensures Now() == Earned(W(), old(Now()), on)
    {
      hide Distribution.AllocatedInOrder, Accepted, Covers, LoansOk, DayNumber, Conserved, Permitted, Ready, WakesMove,
        AllMove, Reservations, Now, W, Allocated, IncomeTaken, Credit, IncomeAfter, NextDay;
      IncomeIs(on);
      TakeIncome(on);
      Allocate(on);
    }

    /** What an income brings, and the pay day it schedules: the day itself, or the last of a month that lacks it. */
    lemma IncomeIs(on: Date)
      requires Valid() && Today(on)
      ensures Credit(on) == if YearMonth(on) in input.cash.monthlyOverrides then input.cash.monthlyOverrides[YearMonth(on)]
                            else if input.Separate() then input.cash.monthly
                            else budget
      ensures input.cash.payDay != 0 ==>
                IncomeAfter(on).d == input.cash.payDay || YearMonth(NextDay(IncomeAfter(on))) == YearMonth(IncomeAfter(on)) + 1
    {
      hide LoansOk, Conserved, Permitted, Ready, DayNumber, NextDay, Clamp;
      if input.cash.payDay != 0 {
        PayDayIsADay(input);
        ClampedToTheLastDay(YearMonth(AddMonths(on, 1)), input.cash.payDay);
      }
    }

    /** Opens the cycle of an income, credits it and schedules the next. */
    method TakeIncome(on: Date)
      requires Valid() && Today(on)
      modifies `cycle, `cycleIncome, `month, `res, `cash, `inflow, `nextIncome, `incomeYM
      ensures Valid() && cycle > 0
      ensures inflow == old(inflow) + old(Credit(on)) && nextIncome == IncomeAfter(on) && incomeYM == YearMonth(on)
      ensures Now() == IncomeTaken(W(), old(Now()), on)
    {
      hide Accepted, Covers, LoansOk, DayNumber, Conserved, Permitted, Ready, Reservations, Now, W, Turned, OnDayOfMonth,
        AddMonths;
      var credit := Credit(on);
      CreditIsNatural(on);
      BeginCycle(on);
      TakeIn(credit);
      ScheduleIncome(on);
    }

    /** An income opens its cycle, unless one is open for the day or cycles follow permission periods. */
    method BeginCycle(on: Date)
      requires Valid() && Today(on)
      modifies `cycle, `cycleIncome, `month, `res
      ensures Valid() && cycle > 0
      ensures Now() == CycleBegun(W(), old(Now()), on)
    {
      hide Accepted, Covers, LoansOk, DayNumber, Conserved, Permitted, Ready, Now, W, Turned;
      if cycle == 0 {
        EnsureCycle(on);
      } else if !input.Separate() && cycleIncome != on {
        NextCycle(on);
      }
    }

    method ScheduleIncome(on: Date)
      requires Valid() && Today(on)
      modifies `nextIncome, `incomeYM
      ensures Valid() && nextIncome == IncomeAfter(on) && incomeYM == YearMonth(on)
      ensures Now() == old(Now()).(nextIncome := nextIncome, incomeYM := incomeYM)
    {
      hide Accepted, Covers, LoansOk, DayNumber, Restricted, TotalBalance, OpeningBalance, TimelinePaid, DuesFrom, BucketsOk,
        IncomeAfter;
      nextIncome := IncomeAfter(on);
      incomeYM := YearMonth(on);
    }

    // ---------- Dues ----------

    method BookInterest(i: nat, on: Date)
      requires Valid() && Today(on) && i < |loans| && input.loans[i].balance > 0
      requires !loans[i].closed ==> !After(on, loans[i].due)
      modifies `loans
      ensures Valid() && AllDrift(old(loans), loans, clock)
      ensures old(loans[i]).balance >= 0 && (old(loans[i]).balance > 0 ==> IsSet(old(loans[i]).from))
      ensures loans == old(loans)[i := BookedTo(input.loans[i], old(loans[i]), on)]
      ensures SameClaims(old(loans[i]), loans[i]) && Spare() == old(Spare()) && RoomFor(i) == old(RoomFor(i))
      ensures loans[i].balance == old(loans[i]).balance && loans[i].carried == old(loans[i]).carried
      ensures loans[i].from == old(loans[i]).from || loans[i].from == on
      ensures !loans[i].closed ==> IsSet(loans[i].from) && Booked(loans[i], on)
      ensures old(loans[i]).closed ==> loans == old(loans)
      ensures Now() == InterestBooked(W(), old(Now()), i, on)
    {
      hide Accepted, Covers, LoanOk, DayNumber, TotalBalance, OpeningBalance, Restricted, TimelinePaid, Reservations,
        Before, After, Drifts, AllDrift, Accrued;
      NothingDrifts(loans, clock);
      ClosedBalance(input.loans[i], loans[i]);
      if !loans[i].closed {
        OpenLoan(i);
        AccrualKeepsLoan(input.loans[i], loans[i], on);
        ghost var l := loans[i];
        if loans[i].balance > 0 {
          loans := loans[i := Accrued(input.loans[i], loans[i], on)];
        }
        SwapLoan(old(loans), i, loans[i], nextIncome, incomeYM);
        OneDrifts(old(loans), i, loans[i], clock);
        DriftIsMove(old(loans), loans, clock);
        MovesKeepDues(old(loans), loans, clock);
      }
    }

    /** What a due date costs a loan once its interest is booked. */
    ghost function DueAmount(i: nat, on: Date): (r: nat)
      requires IsSet(on) && i < |loans| == |input.loans| && loans[i].balance >= 0
      requires loans[i].balance > 0 ==> IsSet(loans[i].from)
      reads this
    {
      RequiredToday(input.loans[i].contract, BookedTo(input.loans[i], loans[i], on), on)
    }

    /** Why a due cannot be paid: permission is tried before cash, and the shortfall is exact. */
    ghost function Shortage(i: nat, on: Date): (f: Option<Failure>)
      requires IsSet(on) && i < |loans| == |input.loans| && loans[i].balance >= 0
      requires loans[i].balance > 0 ==> IsSet(loans[i].from)
      reads this
      ensures f.Some? ==> f.value.ShortOfCash? || f.value.OverLimit?
    {
      var required := DueAmount(i, on);
      if input.Separate() && periodLeft < required then Some(OverLimit(on, required - periodLeft))
      else if cash < required then Some(ShortOfCash(on, i, required - cash))
      else None
    }

    /** Pays a due from the pool, or fails naming the exact shortfall of permission or of cash. */
    method PayRequired(i: nat, on: Date)
      requires Valid() && Today(on) && cycle > 0 && err.None? && i < |loans| && input.loans[i].balance > 0
      requires !loans[i].closed ==> !After(on, loans[i].due)
      requires Amortisation.PaymentDates(input.loans[i].contract).Ok? && !After(on, LastDate(input.loans[i].contract))
      modifies `loans, `cash, `res, `month, `budget, `periodSpent, `periodLeft, `err
      ensures old(loans[i]).balance >= 0 && (old(loans[i]).balance > 0 ==> IsSet(old(loans[i]).from))
      ensures err == old(Shortage(i, on))
      ensures err.None? ==> cash == old(cash) - old(DueAmount(i, on))
      ensures err.None? ==>
                loans == old(loans)[i := Paid(BookedTo(input.loans[i], old(loans[i]), on), old(DueAmount(i, on)), on)]
      ensures err.None? ==> res.totalPaid == old(res.totalPaid) + old(DueAmount(i, on))
      ensures err.None? ==>
                res.totalInterest == old(res.totalInterest) + BookedTo(input.loans[i], old(loans[i]), on).accrued
      ensures err.None? ==> res.totalFees == old(res.totalFees)
      ensures err.None? ==> month.required == old(month.required) + old(DueAmount(i, on))
      ensures err.None? ==> RoomFor(i) == old(RoomFor(i)) - old(DueAmount(i, on))
      ensures err.None? ==> Valid() && AllDrift(old(loans), loans, clock)
      ensures res.timeline == old(res.timeline) && res.household == old(res.household)
      ensures err.Some? ==> budget == old(budget)
      ensures err.None? ==>
                var l := BookedTo(input.loans[i], old(loans[i]), on);
                budget == if old(DueAmount(i, on)) == l.balance + l.accrued then BudgetAfter(W(), old(budget), Freed(old(loans[i])))
                          else old(budget)
      ensures Now() == DueMet(W(), old(Now()), i, on)
    {
      hide Now, W, InterestBooked, DueTaken, Accepted, Covers, LoanOk, LoansOk, DayNumber, Conserved, Permitted, Ready,
        Before, After, Drifts, AllDrift, BookedTo, Paid, RoomFor, Spare, BudgetAfter, Freed, RequiredToday, LastDate,
        Amortisation.PaymentDates, Booked;
      BookInterest(i, on);
      FreedStays(old(loans[i]), loans[i]);
      ghost var booked := loans;
      var l := loans[i];
      var required := RequiredToday(input.loans[i].contract, l, on);
      if input.Separate() && periodLeft < required {
        err := Some(OverLimit(on, required - periodLeft));
        return;
      }
      if cash < required {
        err := Some(ShortOfCash(on, i, required - cash));
        return;
      }
      PayDue(i, on, required);
      AllDriftIsTransitive(old(loans), booked, loans, clock);
    }

    /** Takes a due payment out of permission and cash, interest first, and closes a loan with nothing left. */
    method TakePayment(i: nat, on: Date, required: nat)
      requires i < |loans| == |input.loans| && required <= loans[i].balance + loans[i].accrued
      modifies `loans, `cash, `res, `month, `budget, `periodSpent, `periodLeft
      ensures loans == old(loans)[i := Paid(old(loans[i]), required, on)]
      ensures cash == old(cash) - required
      ensures month == old(month).(interest := old(month.interest) + old(loans[i].accrued),
                                   required := old(month.required) + required)
      ensures res.totalPaid == old(res.totalPaid) + required && res.totalFees == old(res.totalFees)
      ensures res.totalInterest == old(res.totalInterest) + old(loans[i].accrued)
      ensures res.timeline == old(res.timeline) && res.household == old(res.household)
      ensures input.Separate() ==> periodSpent == old(periodSpent) + required && periodLeft == old(periodLeft) - required
      ensures !input.Separate() ==> periodSpent == old(periodSpent) && periodLeft == old(periodLeft)
      ensures old(Conserved()) && cycle > 0 && required <= old(cash) ==> Conserved()
      ensures old(Permitted()) && (input.Separate() ==> required <= old(periodLeft)) ==> Permitted()
      ensures budget == (if required == old(loans[i].balance + loans[i].accrued)
                         then BudgetAfter(W(), old(budget), Freed(old(loans[i]))) else old(budget))
      ensures Now() == DueTaken(W(), old(Now()), i, on, required)
    {
      hide TotalBalance, OpeningBalance, Restricted, TimelinePaid, Cleared, BudgetAfter, DueCredited, Shut, W, Now, Freed;
      var l := loans[i];
      TotalBalanceUpdate(loans, i, Paid(l, required, on));
      CreditDue(i, required);
      FreedStays(l, loans[i]);
      if loans[i].balance <= 0 {
        Close(i, on);
      }
      assert loans == old(loans)[i := Paid(l, required, on)];
    }

    /** What a due payment takes and credits, interest first, before a loan with nothing left is retired. */
    method CreditDue(i: nat, required: nat)
      requires i < |loans| == |input.loans|
      modifies `loans, `cash, `res, `month, `periodSpent, `periodLeft
      ensures cash == old(cash) - required
      ensures loans == old(loans)[i := old(loans[i]).(balance := old(loans[i].balance) - (required - old(loans[i].accrued)), accrued := 0)]
      ensures res == old(res).(totalInterest := old(res.totalInterest) + old(loans[i].accrued), totalPaid := old(res.totalPaid) + required)
      ensures month == old(month).(interest := old(month.interest) + old(loans[i].accrued), required := old(month.required) + required)
      ensures periodSpent == old(periodSpent) + Counted(W(), required) && periodLeft == old(periodLeft) - Counted(W(), required)
      ensures Now() == DueCredited(W(), old(Now()), i, required)
    {
      hide W, Counted;
      var l := loans[i];
      SpendPermission(required);
      cash := cash - required;
      loans := loans[i := l.(balance := l.balance - (required - l.accrued), accrued := 0)];
      res := res.(totalInterest := res.totalInterest + l.accrued, totalPaid := res.totalPaid + required);
      month := month.(interest := month.interest + l.accrued, required := month.required + required);
    }

    /** The due payment itself, once permission and cash are known to cover it. */
    method PayDue(i: nat, on: Date, required: nat)
      requires Valid() && Today(on) && cycle > 0 && i < |loans| && input.loans[i].balance > 0 && loans[i].balance >= 0
      requires Amortisation.PaymentDates(input.loans[i].contract).Ok? && !After(on, LastDate(input.loans[i].contract))
      requires !loans[i].closed ==> !After(on, loans[i].due)
      requires required <= loans[i].balance + loans[i].accrued
      requires required <= cash && (input.Separate() ==> required <= periodLeft)
      modifies `loans, `cash, `res, `month, `budget, `periodSpent, `periodLeft
      ensures Valid() && AllDrift(old(loans), loans, clock)
      ensures loans == old(loans)[i := Paid(old(loans[i]), required, on)]
      ensures cash == old(cash) - required && RoomFor(i) == old(RoomFor(i)) - required
      ensures res.totalPaid == old(res.totalPaid) + required
      ensures res.totalInterest == old(res.totalInterest) + old(loans[i].accrued)
      ensures res.totalFees == old(res.totalFees)
      ensures month.required == old(month.required) + required
      ensures res.timeline == old(res.timeline) && res.household == old(res.household)
      ensures budget == (if required == old(loans[i].balance + loans[i].accrued)
                         then BudgetAfter(W(), old(budget), Freed(old(loans[i]))) else old(budget))
      ensures Now() == DueTaken(W(), old(Now()), i, on, required)
    {
      hide Now, W, DueTaken, Accepted, Covers, DayNumber, TotalBalance, OpeningBalance, Restricted, TimelinePaid, Reservations,
        Before, After, Drifts, AllDrift, Hold, Freed, LastDate, LoanOk, Conserved, Permitted, Paid, BudgetAfter;
      var l := loans[i];
      PaymentKeepsLoan(input.loans[i], l, required, on);
      ClosedBalance(input.loans[i], l);
      SwapLoan(loans, i, Paid(l, required, on), nextIncome, incomeYM);
      OneDrifts(loans, i, Paid(l, required, on), clock);
      DriftIsMove(loans, loans[i := Paid(l, required, on)], clock);
      MovesKeepDues(loans, loans[i := Paid(l, required, on)], clock);
      TakePayment(i, on, required);
    }

    /** Takes back the money promised to a due date. */
    method TakeBack(i: nat, on: Date)
      requires Valid() && Today(on) && i < |loans| && !loans[i].closed
      modifies `loans
      ensures Valid() && AllDrift(old(loans), loans, clock)
      ensures loans == old(loans)[i := old(loans[i]).(pending := 0)]
      ensures RoomFor(i) == old(RoomFor(i)) && Spare() == old(Spare()) + old(loans[i].pending)
    {
      hide Accepted, Covers, DayNumber, TotalBalance, OpeningBalance, Restricted, TimelinePaid, Reservations,
        Before, After, AllDrift, LoanOk, Drifts;
      var l := loans[i].(pending := 0);
      PendingKeepsLoan(input.loans[i], loans[i], 0, clock);
      SwapLoan(loans, i, l, nextIncome, incomeYM);
      OneDrifts(loans, i, l, clock);
      DriftIsMove(loans, loans[i := l], clock);
      MovesKeepDues(loans, loans[i := l], clock);
      loans := loans[i := l];
    }

    /** What money promised to a due date may use when the date comes. */
    method Available(on: Date) returns (available: int)
      requires Valid() && Today(on)
      ensures input.Separate() || available == cash
      ensures available > 0 ==> available <= cash && (input.Separate() ==> available <= periodLeft)
      ensures available == if input.Separate() then SurplusIn(W(), Now(), on) else cash
    {
      hide Accepted, Covers, LoansOk, Conserved, Permitted, Ready, DayNumber, Spare, Permission;
      available := cash;
      if input.Separate() {
        available := OptionalCash(on);
        if available > 0 {
          AffordableIsInHand(available, on);
        }
      }
    }

    /** Pays up to an amount on a loan whose due is being settled. */
    method PayUpTo(i: nat, on: Date, want: nat)
      requires Valid() && Today(on) && cycle > 0 && err.None? && i < |loans| && !loans[i].closed && !After(loans[i].from, on)
      requires want <= cash && (input.Separate() ==> want <= periodLeft)
      modifies `loans, `cash, `res, `month, `budget, `periodSpent, `periodLeft, `err
      ensures err.Some? ==> err.value.NoQuote?
      ensures err.None? ==> Valid() && AllDrift(old(loans), loans, clock) && loans == old(loans)[i := loans[i]]
      ensures err.None? ==> RoomFor(i) >= old(RoomFor(i)) - want
      ensures err.None? && !loans[i].closed ==>
                && loans[i].pending == old(loans[i].pending) && loans[i].due == old(loans[i].due)
                && (loans[i].from == on || (loans[i].from == old(loans[i].from) && loans[i].balance == old(loans[i].balance)))
      ensures res.timeline == old(res.timeline) && res.household == old(res.household)
      ensures Now() == PaidTowards(W(), old(Now()), i, on, want)
    {
      hide Now, W, Quoted, Prepaying, Accepted, Covers, LoanOk, LoansOk, DayNumber, Conserved, Permitted, Ready, Before,
        After, AllDrift, Drifts, Fees.QuoteFor, AllowanceUsed, ContractYear, Spare, Hold, RoomFor, Accrued, Later;
      OpenLoan(i);
      AccrualKeepsBalance(input.loans[i], loans[i], on);
      var q := AskQuote(i, on, want);
      if err.Some? || q.outflow <= 0 {
        return;
      }
      CompareIsDayOrder(loans[i].from, on);
      ghost var quoted := loans;
      PayOptional(i, on, q, false);
      AllDriftIsTransitive(old(loans), quoted, loans, clock);
    }

    /**
     Pays what was promised to a due date, re-quoted against what is owed now. Where nothing is
     available any more the promise lapses and settling stops, without a fresh obligation.
     */
    method SettleHeld(i: nat, on: Date) returns (stop: bool)
      requires Valid() && Today(on) && cycle > 0 && err.None? && i < |loans| && !loans[i].closed && !After(loans[i].from, on)
      modifies `loans, `cash, `res, `month, `budget, `periodSpent, `periodLeft, `err
      ensures err.Some? ==> err.value.NoQuote?
      ensures err.None? ==> Valid() && AllDrift(old(loans), loans, clock) && loans == old(loans)[i := loans[i]]
      ensures err.None? ==> RoomFor(i) >= old(RoomFor(i)) - old(loans[i].pending)
      ensures err.None? && !loans[i].closed ==>
                && loans[i].pending == 0 && loans[i].due == old(loans[i].due)
                && (loans[i].from == old(loans[i].from) || loans[i].from == on)
      ensures err.None? && !stop ==> !loans[i].closed
      ensures err.None? && !loans[i].closed ==> loans[i].balance == old(loans[i].balance) || loans[i].from == on
      ensures err.None? && stop && !loans[i].closed ==>
                old(loans[i].pending) > 0 && loans[i].from == old(loans[i].from) && (input.Separate() || old(cash) <= 0)
      ensures res.timeline == old(res.timeline) && res.household == old(res.household)
      ensures (Now(), stop) == HeldPaid(W(), old(Now()), i, on)
    {
      hide Now, W, PaidTowards, SurplusIn, Accepted, Covers, LoanOk, LoansOk, DayNumber, Conserved, Permitted, Ready, Before,
        After, AllDrift, Drifts, Spare, Hold, RoomFor;
      NothingDrifts(loans, clock);
      OpenLoan(i);
      var want := loans[i].pending;
      if want <= 0 {
        return false;
      }
      TakeBack(i, on);
      ghost var freed := loans;
      var available := Available(on);
      if want > available {
        want := available;
      }
      if want <= 0 {
        return true;
      }
      PayUpTo(i, on, want);
      if err.None? {
        AllDriftIsTransitive(old(loans), freed, loans, clock);
      }
      return err.Some? || loans[i].closed;
    }

    /** What follows a due payment that left a debt: the money held for the date, then a fresh obligation. */
    method SettleRest(i: nat, on: Date)
      requires Valid() && Today(on) && cycle > 0 && err.None? && i < |loans| && !loans[i].closed && !After(loans[i].from, on)
      requires Amortisation.DatesAhead(input.loans[i].contract, on).Ok?
      modifies `loans, `cash, `res, `month, `budget, `periodSpent, `periodLeft, `err
      ensures err.Some? ==> err.value.NoQuote? || err.value.NoProjection?
      ensures err.None? ==> Valid() && AllDrift(old(loans), loans, clock) && loans == old(loans)[i := loans[i]]
      ensures err.None? ==> RoomFor(i) >= old(RoomFor(i) - loans[i].pending)
      ensures err.None? ==> Rested(old(loans[i]), loans[i], on)
      ensures err.None? && old(loans[i].from == on && (loans[i].pending == 0 || input.Separate() || cash > 0)) ==>
                loans[i].closed || After(loans[i].due, on)
      ensures res.timeline == old(res.timeline) && res.household == old(res.household)
      ensures Now() == RestMet(W(), old(Now()), i, on)
    {
      hide Now, W, Renewed, HeldPaid, Accepted, Covers, LoanOk, LoansOk, DayNumber, Conserved, Permitted, Ready, Before,
        AllDrift, Drifts, Spare, Hold, Amortisation.DatesAhead, RoomFor;
      NothingDrifts(loans, clock);
      OpenLoan(i);
      if input.Separate() {
        RefreshSettled(i, on);
        if err.Some? {
          return;
        }
      }
      ghost var refreshed := loans;
      var stop := SettleHeld(i, on);
      if err.Some? {
        return;
      }
      AllDriftIsTransitive(old(loans), refreshed, loans, clock);
      if stop {
        return;
      }
      ghost var held := loans;
      RefreshSettled(i, on);
      if err.None? {
        AllDriftIsTransitive(old(loans), held, loans, clock);
      }
    }

    /**
     Settles a loan's instalment on its date and then the money held for it. The loan closes,
     or its next obligation lies ahead, or a second due the same day has less left to do.
     */
    method SettleLoan(i: nat, on: Date)
      requires Valid() && Today(on) && cycle > 0 && err.None? && i < |loans| && Reached(input.loans[i], loans[i], on)
      modifies `loans, `cash, `res, `month, `budget, `periodSpent, `periodLeft, `err
      ensures old(loans[i]).balance >= 0 && (old(loans[i]).balance > 0 ==> IsSet(old(loans[i]).from))
      ensures old(Shortage(i, on)).Some? ==> err == old(Shortage(i, on))
      ensures old(Shortage(i, on)).None? && err.Some? ==> err.value.NoQuote? || err.value.NoProjection?
      ensures err.None? ==> Valid() && AllDrift(old(loans), loans, clock) && Settled(i, on)
      ensures err.None? ==> loans == old(loans)[i := loans[i]]
      ensures err.None? ==> RoomFor(i) >= old(RoomFor(i) - DueAmount(i, on) - loans[i].pending)
      ensures err.None? && !loans[i].closed ==>
                loans[i].pending == 0 && (After(loans[i].due, on) || Stage(loans[i]) < Stage(old(loans[i])))
      ensures err.None? && old(MovesOn(i, on)) && !loans[i].closed ==>
                && After(loans[i].due, on) && Amortisation.DatesAhead(input.loans[i].contract, on).Ok?
                && loans[i].due == Amortisation.DatesAhead(input.loans[i].contract, on).value[0]
      ensures res.timeline == old(res.timeline) && res.household == old(res.household)
      ensures Now() == DueSettled(W(), old(Now()), i, on)
    {
      hide BudgetAfter, Freed, Now, W, DueMet, RestMet, Accepted, Covers, LoanOk, LoansOk, DayNumber, Conserved, Permitted,
        Ready, Before, After, AllDrift, Drifts, Spare, Hold, BookedTo, Paid, Amortisation.DatesAhead, RoomFor, Shortage,
        RequiredToday, Rested, Stage, LastDate;
      ghost var p, l := input.loans[i], loans[i];
      LoanIsOk(i);
      PayRequired(i, on);
      if err.Some? || loans[i].closed {
        return;
      }
      ghost var paid := loans;
      PaymentLeavesDates(p, l, on);
      BookingKeepsBalance(p, l, on);
      DriftOfOne(old(loans), loans, i, clock);
      SettleOpen(i, on, l);
      if err.None? {
        AllDriftIsTransitive(old(loans), paid, loans, clock);
      }
    }

    /** What follows the due payment of a loan that stays open, against the loan as it was before its due. */
    method SettleOpen(i: nat, on: Date, ghost l: LoanState)
      requires Valid() && Today(on) && cycle > 0 && err.None? && i < |loans| && !loans[i].closed
      requires LoanOk(input.loans[i], l) && Reached(input.loans[i], l, on) && l.balance >= 0 && (l.balance > 0 ==> IsSet(l.from))
      requires BookedTo(input.loans[i], l, on).balance >= 0
      requires loans[i] == Paid(BookedTo(input.loans[i], l, on), RequiredToday(input.loans[i].contract, BookedTo(input.loans[i], l, on), on), on)
      requires Drifts(l, loans[i], clock)
      modifies `loans, `cash, `res, `month, `budget, `periodSpent, `periodLeft, `err
      ensures err.Some? ==> err.value.NoQuote? || err.value.NoProjection?
      ensures err.None? ==> Valid() && AllDrift(old(loans), loans, clock) && loans == old(loans)[i := loans[i]] && Settled(i, on)
      ensures err.None? ==> RoomFor(i) >= old(RoomFor(i)) - l.pending
      ensures err.None? && !loans[i].closed ==>
                loans[i].pending == 0 && (After(loans[i].due, on) || Stage(loans[i]) < Stage(l))
      ensures err.None? && !loans[i].closed && (l.balance > 0 || l.accrued <= l.required)
                && old(loans[i].pending == 0 || input.Separate() || cash > 0) ==>
                && After(loans[i].due, on) && Amortisation.DatesAhead(input.loans[i].contract, on).Ok?
                && loans[i].due == Amortisation.DatesAhead(input.loans[i].contract, on).value[0]
      ensures res.timeline == old(res.timeline) && res.household == old(res.household)
      ensures Now() == RestMet(W(), old(Now()), i, on)
    {
      hide Now, W, RestMet, Accepted, Covers, LoanOk, LoansOk, DayNumber, Conserved, Permitted, Ready, Before, After,
        AllDrift, Drifts, Spare, Hold, BookedTo, Paid, Amortisation.DatesAhead, RoomFor, RequiredToday, Rested, Stage,
        LastDate, Reached;
      ghost var paid := loans[i];
      PaymentLeavesDates(input.loans[i], l, on);
      SettleRest(i, on);
      if err.None? {
        LoanIsOk(i);
        DriftOfOne(old(loans), loans, i, clock);
        DriftsOn(l, paid, loans[i], clock);
        RestedMakesProgress(input.loans[i], l, paid, loans[i], on);
      }
    }

    /**
     A due that certainly moves on: its interest is booked in one piece up to today or settled
     whole, and money promised to it is still there.
     */
    ghost predicate MovesOn(i: nat, on: Date)
      requires IsSet(on) && i < |loans| == |input.loans| && loans[i].balance >= 0
      requires loans[i].balance > 0 ==> IsSet(loans[i].from)
      reads this
    {
      && (loans[i].balance > 0 || loans[i].accrued <= loans[i].required)
      && (loans[i].pending == 0 || input.Separate() || cash > DueAmount(i, on))
    }

    /**
     The assumptions under which cash put aside at an income is there at the due date: nothing
     held back is missing, the due was counted in this income's window and asks for no more
     than its instalment, and the loan's next date is counted in a later window.
     */
    ghost predicate Guarded(i: nat, on: Date)
      requires IsSet(on) && i < |loans| == |input.loans| && loans[i].balance >= 0
      requires loans[i].balance > 0 ==> IsSet(loans[i].from)
      reads this
    {
      Protected() && Fits(i, on)
    }

    ghost predicate Fits(i: nat, on: Date)
      requires IsSet(on) && i < |loans| == |input.loans| && loans[i].balance >= 0
      requires loans[i].balance > 0 ==> IsSet(loans[i].from)
      reads this
    {
      var ahead := Amortisation.DatesAhead(input.loans[i].contract, on);
      && (input.cash.payDay != 0 || YearMonth(on) == incomeYM)
      && InWindow(loans[i], nextIncome, incomeYM)
      && DueAmount(i, on) <= loans[i].required && (loans[i].balance > 0 || loans[i].accrued <= loans[i].required)
      && (ahead.Ok? ==> !InWindow(loans[i].(due := ahead.value[0]), nextIncome, incomeYM))
    }

    /** The cover a run's state gives is the one read off its value. */
    lemma CoverIs()
      ensures Protected() == Covered(W(), Now())
    {
      hide Reservations, W;
    }

    lemma FitIs(i: nat, on: Date)
      requires IsSet(on) && i < |loans| == |input.loans| && !loans[i].closed
      requires loans[i].balance >= 0 && (loans[i].balance > 0 ==> IsSet(loans[i].from))
      ensures Fits(i, on) == FitsIn(W(), Now(), i, on)
    {
      hide W, Contract.Interest, Amortisation.DatesAhead, RequiredToday, DaysBetween;
      BookingKeepsBalance(input.loans[i], loans[i], on);
    }

    /** The window of the next income began with an income, no later than today or the valuation. */
    ghost predicate Windowed()
      reads this
    {
      input.cash.payDay != 0 ==> exists income: Date :: WindowFrom(input, income, nextIncome, clock)
    }

    /**
     Unless the days are such that two dues can share a window, a due that lies neither before the
     valuation nor outside the current window fits exactly when it asks for no more than its
     instalment and leaves no interest behind. Without a pay day the window is the month of the
     last income, and every such due fits.
     */
    lemma FitsExactlyWhen(i: nat, on: Date)
      requires Valid() && Windowed() && i < |loans| && !loans[i].closed && loans[i].due == on && IsSet(on)
      requires !(28 <= Amortisation.ContractDay(input.loans[i].contract) < input.cash.payDay) && !Before(on, input.valuation)
      requires input.cash.payDay != 0 ==> Before(on, nextIncome)
      ensures FitsIn(W(), Now(), i, on) <==>
                (input.cash.payDay != 0 || YearMonth(on) == incomeYM) && AsksIn(W(), Now(), i, on)
    {
      hide Accepted, Covers, LoanOk, LoansOk, DayNumber, Conserved, Permitted, AsksIn, W, Amortisation.DatesAhead,
        Amortisation.ContractDay, Clamp;
      OpenLoan(i);
      DueIsOnItsDay(i);
      PayDayIsADay(input);
      var c := input.loans[i].contract;
      if Amortisation.DatesAhead(c, on).Ok? {
        NextDueIsAMonthLater(c, on);
        if input.cash.payDay != 0 {
          var income :| WindowFrom(input, income, nextIncome, clock);
          NextDueLeavesTheWindow(c, on, income, input.cash.payDay);
        }
      }
    }

    lemma DueIsOnItsDay(i: nat)
      requires Valid() && i < |loans| && !loans[i].closed && IsSet(loans[i].due)
      ensures loans[i].due == OnDayOfMonth(loans[i].due, Amortisation.ContractDay(input.loans[i].contract))
    {
      hide Amortisation.PaymentDates, LastDate, Amortisation.DatesAhead, Clamp;
      assert LoanOk(input.loans[i], loans[i]);
    }

    /** Under such days a turn that keeps the simpler cover keeps cover. */
    lemma KeepingIsCovering(e: Event, on: Date, kept: bool, cover: bool)
      requires Valid() && Windowed() && OneDueAWindow(input) && Coming(e, on) && (kept ==> cover)
      requires forall e', on' :: Coming(e', on') ==> NotLater(e, on, e', on')
      ensures KeptAfter(W(), Now(), kept, e, on) ==> CoverAfter(W(), Now(), cover, e, on)
    {
      hide Accepted, Covers, LoansOk, DayNumber, Conserved, Permitted, AsksIn, FitsIn, W, Happened, Covered, Windowed, Before;
      if e.DueEvent? && !Before(on, input.valuation) {
        if input.cash.payDay != 0 {
          assert NotLater(e, on, IncomeEvent, nextIncome);
          EarlierIsBefore(on, nextIncome);
        }
        FitsExactlyWhen(e.loan, on);
      }
    }

    lemma EarlierIsBefore(a: Date, b: Date)
      ensures DayNumber(a) < DayNumber(b) ==> Before(a, b)
    {
    }

    /** The first window begins a month before the first pay day that still counts, no later than the valuation. */
    lemma FirstWindow()
      requires Valid() && IsDay(input.valuation) && nextIncome == FirstIncome(input)
      ensures Windowed()
    {
      hide Accepted, Covers, LoansOk, DayNumber, Conserved, Permitted, Clamp;
      if input.cash.payDay != 0 {
        var v, day := input.valuation, input.cash.payDay;
        var now := OnDayOfMonth(v, day);
        if nextIncome == now {
          assert YearMonth(v) >= 13;
          var before := OnDayOfMonth(AddMonths(v, -1), day);
          LaterMonthIsAfter(before, v);
          NextMonthOf(before, v, day);
          assert WindowFrom(input, before, nextIncome, clock);
        } else {
          ThroughValuation(input);
          NextMonthOf(now, AddMonths(v, 1), day);
          assert WindowFrom(input, now, nextIncome, clock);
        }
      }
    }

    /** The income after one in a month is the pay day of the next month. */
    lemma NextMonthOf(a: Date, b: Date, day: int)
      requires IsSet(a) && IsSet(b) && YearMonth(b) == YearMonth(a) + 1 && day == input.cash.payDay != 0
      ensures NextPayDay(W(), a) == OnDayOfMonth(b, day)
    {
    }

    /** Under the guard a due is covered by what was held for it, and leaves everything else covered. */
    method SettleGuarded(i: nat, on: Date)
      requires Valid() && Today(on) && cycle > 0 && err.None? && i < |loans| && Reached(input.loans[i], loans[i], on)
      modifies `loans, `cash, `res, `month, `budget, `periodSpent, `periodLeft, `err
      ensures old(loans[i]).balance >= 0 && (old(loans[i]).balance > 0 ==> IsSet(old(loans[i]).from))
      ensures old(Shortage(i, on)).Some? ==> err == old(Shortage(i, on))
      ensures old(Shortage(i, on)).None? && err.Some? ==> err.value.NoQuote? || err.value.NoProjection?
      ensures err.None? ==> Valid() && AllDrift(old(loans), loans, clock) && Settled(i, on)
      ensures err.None? && !loans[i].closed ==> After(loans[i].due, on) || Stage(loans[i]) < Stage(old(loans[i]))
      ensures old(!loans[i].closed && Guarded(i, on)) ==>
                && (err.Some? ==> !err.value.ShortOfCash?)
                && (err.None? ==> OutOfWindow(i, on) && Protected())
      ensures res.timeline == old(res.timeline) && res.household == old(res.household)
      ensures Now() == DueSettled(W(), old(Now()), i, on)
    {
      hide Now, W, DueSettled, Accepted, Covers, LoanOk, DayNumber, Conserved, Permitted, Ready, Before, After, AllDrift, Drifts,
        Amortisation.DatesAhead, Stage, LastDate, Reservations, Reached, BookedTo, Paid, RequiredToday;
      ReservationsUpdate(loans, i, loans[i], nextIncome, incomeYM);
      FloorIsNatural(input);
      SettleLoan(i, on);
    }

    /** Where there is no pay day, the first due of a month brings the month's income. */
    method ArriveAtDue(i: nat, on: Date)
      requires Valid() && Today(on) && err.None? && i < |loans| && !loans[i].closed && loans[i].due == on
      modifies `cycle, `cycleIncome, `month, `res, `cash, `inflow, `nextIncome, `incomeYM,
               `loans, `buckets, `budget, `periodSpent, `periodLeft, `err
      ensures err.Some? ==> err.value.NoQuote? || err.value.NoProjection?
      ensures err.None? ==> Valid() && cycle > 0 && Reached(input.loans[i], loans[i], on)
      ensures err.None? ==> AllMove(old(loans), loans, clock) && WakesMove(old(buckets), buckets)
      ensures old(loans[i]).balance >= 0 && (old(loans[i]).balance > 0 ==> IsSet(old(loans[i]).from))
      ensures var arrives := input.cash.payDay == 0 && YearMonth(on) != old(incomeYM);
              && inflow == old(inflow) + (if arrives then old(Credit(on)) else 0)
              && incomeYM == (if arrives then YearMonth(on) else old(incomeYM)) && nextIncome == old(nextIncome)
              && (!arrives ==> err.None? && loans == old(loans))
              && (old(Guarded(i, on)) ==> !arrives && Guarded(i, on))
      ensures Now() == DueArrived(W(), old(Now()), on)
    {
      hide Now, W, Earned, WithCycle, Accepted, Covers, LoanOk, DayNumber, Conserved, Permitted, DuesFrom, BucketsOk, Before,
        After, AllMove, Moves, Amortisation.DatesAhead, LastDate, Credit, WakesMove, WakeMoves, Reached;
      ghost var p, l := input.loans[i], loans[i];
      OpenLoan(i);
      NothingMoves(loans, buckets, clock);
      if input.cash.payDay == 0 && YearMonth(on) != incomeYM {
        Income(on);
        if err.Some? {
          return;
        }
      }
      EnsureCycle(on);
      MoveOfOne(old(loans), loans, i, clock);
      StillReached(p, l, loans[i], on);
    }

    /** A due event: any income it brings, the settlement, and routed cash. */
    method Due(i: nat, on: Date)
      requires Valid() && Today(on) && err.None? && i < |loans| && !loans[i].closed && loans[i].due == on
      modifies `cycle, `cycleIncome, `month, `res, `cash, `inflow, `nextIncome, `incomeYM,
               `loans, `buckets, `budget, `periodSpent, `periodLeft, `err
      ensures old(loans[i]).balance >= 0 && (old(loans[i]).balance > 0 ==> IsSet(old(loans[i]).from))
      ensures err.Some? ==> err.value.ShortOfCash? || err.value.OverLimit? || err.value.NoQuote? || err.value.NoProjection?
      ensures err.None? ==> Valid() && cycle > 0 && AllMove(old(loans), loans, clock)
      ensures err.None? ==> WakesMove(old(buckets), buckets) && Asleep(on)
      ensures var arrives := input.cash.payDay == 0 && YearMonth(on) != old(incomeYM);
              && inflow == old(inflow) + (if arrives then old(Credit(on)) else 0)
              && incomeYM == (if arrives then YearMonth(on) else old(incomeYM)) && nextIncome == old(nextIncome)
              && (err.None? && !arrives && !loans[i].closed && !After(loans[i].due, on) ==>
                    AllDrift(old(loans), loans, clock) && Stage(loans[i]) < Stage(old(loans[i])))
      ensures old(Guarded(i, on)) ==>
                (if err.Some? then !err.value.ShortOfCash? else Protected())
      ensures Now() == DuePassed(W(), old(Now()), i, on)
    {
      hide Now, W, DueArrived, DueSettled, Routed, BookedTo, Accepted, Covers, LoanOk, LoansOk, DayNumber, Conserved,
        Permitted, Ready, Before, After, AllDrift, AllMove, Drifts, Amortisation.DatesAhead, Stage, RequiredToday,
        Reservations, Credit, WakesMove, Settled, Reached, InWindow, Asleep, Guarded;
      OpenLoan(i);
      ArriveAtDue(i, on);
      if err.Some? {
        return;
      }
      ghost var arrived, wakes := loans, buckets;
      SettleGuarded(i, on);
      if err.Some? {
        return;
      }
      ghost var settled := loans;
      if !loans[i].closed {
        OpenLoan(i);
      }
      RouteCash(on, i);
      if err.None? {
        AllDriftIsTransitive(arrived, settled, loans, clock);
        WakesMoveIsTransitive(old(buckets), wakes, buckets);
        DriftIsMove(arrived, loans, clock);
        AllMoveIsTransitive(old(loans), arrived, loans, clock);
        DriftOfOne(settled, loans, i, clock);
        if arrived[i].due == on {
          DriftKeepsProgress(arrived[i], settled[i], loans[i], on);
        }
      }
    }

    // ---------- Permission periods ----------

    /** The limit and carry terms in force, found by walking the dated changes up to the day. */
    method TermsInForce(on: Date) returns (granted: int, rule: CarryRule, minimum: int, until: Date)
      requires input.Separate() && IsSet(on) && YearMonth(on) > 12
      ensures granted == LimitOn(input.cash.spending.value, budget, on)
      ensures var p := input.cash.spending.value; (rule, minimum, until) == CarryAfter(p, InForce(p.changes, on))
    {
      hide PeriodStart, After, InForce;
      var p := input.cash.spending.value;
      var key := YearMonth(PeriodStart(p.cycleDay, on));
      ghost var base := if key in p.overrides then p.overrides[key] else budget;
      granted, rule, minimum, until := budget, p.rule, p.minimum, p.until;
      if key in p.overrides {
        granted := p.overrides[key];
      }
      var k := 0;
      while k < |p.changes| && !After(p.changes[k].on, on)
        invariant k <= |p.changes| && forall j :: 0 <= j < k ==> !After(p.changes[j].on, on)
        invariant granted == LimitAfter(base, p.changes[..k])
        invariant (rule, minimum, until) == CarryAfter(p, p.changes[..k])
      {
        assert p.changes[..k + 1][..k] == p.changes[..k];
        var change := p.changes[k];
        granted := change.limit;
        if change.rule != Unstated {
          rule, minimum, until := change.rule, change.minimum, change.until;
        }
        k := k + 1;
      }
      InForceIs(p.changes, on, k);
    }

    /** What a period starts from: what was declared spent in the valuation's period, nothing in later ones. */
    function DeclaredFor(on: Date): int
      requires input.Separate() && IsSet(on) && YearMonth(on) > 12
      requires IsSet(input.valuation) && YearMonth(input.valuation) > 12
    {
      var p := input.cash.spending.value;
      if PeriodStart(p.cycleDay, on) == PeriodStart(p.cycleDay, input.valuation) && p.spent > 0 then p.spent else 0
    }

    /** Grants the day's limit. Only a new period resets what was spent; a changed limit never restores it. */
    method GrantPermission(on: Date, granted: int)
      requires Valid() && Today(on) && input.Separate() && IsSet(input.valuation) && YearMonth(input.valuation) > 12
      modifies `periodStart, `periodSpent, `periodLeft, `limit, `declared, `paidBefore, `err
      ensures periodStart == PeriodStart(input.cash.spending.value.cycleDay, on)
      ensures periodStart == old(periodStart) ==>
                periodSpent == old(periodSpent) && declared == old(declared) && paidBefore == old(paidBefore)
      ensures periodStart != old(periodStart) ==>
                periodSpent == declared == DeclaredFor(on) && paidBefore == res.totalPaid
      ensures limit == granted && periodLeft == granted - periodSpent
      ensures if periodLeft < 0 then err == Some(OverLimit(on, -periodLeft)) else err == old(err) && Valid()
      ensures granted == LimitOn(input.cash.spending.value, old(budget), on) ==> Now() == Granted(W(), old(Now()), on)
    {
      hide Accepted, Covers, LoansOk, DayNumber, Restricted, TotalBalance, OpeningBalance, TimelinePaid, DuesFrom, BucketsOk,
        PeriodStart, SpentIn, W, Now, DeclaredFor;
      BeginPeriod(on);
      LimitPermission(on, granted);
    }

    /** Grants the limit in force, and finds the carry terms in force with it. */
    method GrantInForce(on: Date) returns (rule: CarryRule, minimum: int, until: Date)
      requires Valid() && Today(on) && err.None? && input.Separate() && IsSet(input.valuation) && YearMonth(input.valuation) > 12
      modifies `periodStart, `periodSpent, `periodLeft, `limit, `declared, `paidBefore, `err
      ensures var p := input.cash.spending.value; (rule, minimum, until) == CarryAfter(p, InForce(p.changes, on))
      ensures limit == LimitOn(input.cash.spending.value, old(budget), on)
      ensures periodStart == PeriodStart(input.cash.spending.value.cycleDay, on)
      ensures if periodStart == old(periodStart) then declared == old(declared) && paidBefore == old(paidBefore)
              else declared == DeclaredFor(on) && paidBefore == old(res.totalPaid)
      ensures (err.None? ==> Valid()) && (err.Some? ==> err.value.OverLimit?) && (old(Protected()) ==> Protected())
      ensures Now() == Granted(W(), old(Now()), on)
    {
      hide Accepted, Covers, LoansOk, DayNumber, Conserved, Permitted, Ready, PeriodStart, DeclaredFor, LimitOn, Now, W, Granted,
        CarryAfter, InForce;
      var granted;
      granted, rule, minimum, until := TermsInForce(on);
      GrantPermission(on, granted);
    }

    /** A new period forgets what was spent, but for what was declared spent in the valuation's period. */
    method BeginPeriod(on: Date)
      requires Valid() && Today(on) && input.Separate() && IsSet(input.valuation) && YearMonth(input.valuation) > 12
      modifies `periodStart, `periodSpent, `declared, `paidBefore
      ensures periodStart == PeriodStart(input.cash.spending.value.cycleDay, on)
      ensures periodStart == old(periodStart) ==>
                periodSpent == old(periodSpent) && declared == old(declared) && paidBefore == old(paidBefore)
      ensures periodStart != old(periodStart) ==>
                periodSpent == declared == DeclaredFor(on) && paidBefore == res.totalPaid
      ensures periodSpent == declared + (res.totalPaid - paidBefore)
      ensures Now() == old(Now()).(periodStart := periodStart, periodSpent := SpentIn(W(), old(Now()), on))
    {
      hide Accepted, Covers, LoansOk, DayNumber, Conserved, Ready, PeriodStart, W;
      var p := input.cash.spending.value;
      ValuationIsDated(input);
      var start := PeriodStart(p.cycleDay, on);
      if !(IsSet(periodStart) && periodStart == start) {
        periodStart := start;
        var spent := 0;
        if start == PeriodStart(p.cycleDay, input.valuation) && p.spent > 0 {
          spent := p.spent;
        }
        periodSpent := spent;
        declared := spent;
        paidBefore := res.totalPaid;
      }
    }

    /** What a limit leaves of permission, or by how much it is already overspent. */
    method LimitPermission(on: Date, granted: int)
      requires IsSet(periodStart) && periodSpent == declared + (res.totalPaid - paidBefore)
      modifies `periodLeft, `limit, `err
      ensures limit == granted && periodLeft == granted - periodSpent
      ensures if periodLeft < 0 then err == Some(OverLimit(on, -periodLeft)) else err == old(err) && Permitted()
      ensures Now() == old(Now()).(periodLeft := periodLeft, err := if periodLeft < 0 then Some(OverLimit(on, -periodLeft)) else old(err))
    {
      periodLeft := granted - periodSpent;
      limit := granted;
      if periodLeft < 0 {
        err := Some(OverLimit(on, periodSpent - granted));
      }
    }

    /** When permission is next reconsidered, found by walking the dated changes. */
    method ScheduleChange(on: Date)
      requires Valid() && Today(on) && input.Separate()
      modifies `nextPeriod
      ensures Valid() && nextPeriod == NextChange(input.cash.spending.value, on)
      ensures Now() == old(Now()).(nextPeriod := nextPeriod)
    {
      hide LoansOk, DayNumber, Restricted, TotalBalance, OpeningBalance, TimelinePaid, DuesFrom, BucketsOk, PeriodEnd,
        Before, After, NextChange, Covers;
      var p := input.cash.spending.value;
      ghost var end := PeriodEnd(p.cycleDay, on);
      nextPeriod := PeriodEnd(p.cycleDay, on);
      var k := 0;
      while k < |p.changes|
        invariant k <= |p.changes| && nextPeriod == end
        invariant forall j :: 0 <= j < k && After(p.changes[j].on, on) ==> !Before(p.changes[j].on, end)
      {
        if After(p.changes[k].on, on) && Before(p.changes[k].on, nextPeriod) {
          nextPeriod := p.changes[k].on;
          break;
        }
        k := k + 1;
      }
      FirstChangeIsNext(p, on, k);
      NoEarlierMonth(on, nextPeriod);
    }

    /** Takes back everything promised to due dates; actual spending is not returned to permission. */
    method ReleasePending()
      requires Valid()
      modifies `loans
      ensures Valid() && AllMove(old(loans), loans, clock)
      ensures |loans| == |old(loans)| && forall k :: 0 <= k < |loans| ==> loans[k] == old(loans)[k].(pending := 0)
      ensures Spare() >= old(Spare())
      ensures loans == Released(old(loans)) && Now() == old(Now()).(loans := loans)
    {
      hide Accepted, Covers, DayNumber, TotalBalance, OpeningBalance, Restricted, TimelinePaid, Reservations, AllMove, Moves,
        LoanOk;
      NothingMoves(loans, [], clock);
      for k := 0 to |loans|
        invariant |loans| == |old(loans)| && Valid() && AllMove(old(loans), loans, clock) && Spare() >= old(Spare())
        invariant forall j :: 0 <= j < k ==> loans[j] == old(loans)[j].(pending := 0)
        invariant forall j :: k <= j < |loans| ==> loans[j] == old(loans)[j]
      {
        ghost var before := loans;
        var l := loans[k].(pending := 0);
        PendingKeepsLoan(input.loans[k], loans[k], 0, clock);
        SwapLoan(loans, k, l, nextIncome, incomeYM);
        OneMoves(loans, k, l, clock);
        MovesKeepDues(loans, loans[k := l], clock);
        loans := loans[k := l];
        AllMoveIsTransitive(old(loans), before, loans, clock);
      }
    }

    /** Where nothing carries over, cash beyond the reserve and the dues of the window leaves for the household. */
    method HandOver()
      requires Valid()
      modifies `cash, `res, `month
      ensures Valid() && (old(Protected()) ==> Protected())
      ensures var transfer := if old(Spare()) > 0 then old(Spare()) else 0;
              cash == old(cash) - transfer && res == old(res).(household := old(res.household) + transfer)
      ensures Now() == HandedOver(W(), old(Now()))
    {
      hide Accepted, Covers, LoansOk, DayNumber, Restricted, TotalBalance, OpeningBalance, TimelinePaid, DuesFrom, BucketsOk,
        Reservations;
      FloorIsNatural(input);
      var reserved := Reserved();
      var transfer := cash - reserved;
      if transfer > 0 {
        cash := cash - transfer;
        res := res.(household := res.household + transfer);
        month := month.(household := transfer);
      }
    }

    /** A new period: unspent money may leave, the cycle ends and the next one opens. */
    method TurnPeriod(on: Date)
      requires Valid() && Today(on)
      modifies `cash, `res, `month, `cycle, `cycleIncome
      ensures Valid() && cycle == old(cycle) + 1 && (old(Protected()) ==> Protected())
      ensures var leaves := if old(cycle) > 0 && carryRule == NoCarry && old(Spare()) > 0 then old(Spare()) else 0;
              cash == old(cash) - leaves && res.household == old(res.household) + leaves
      ensures res.totalPaid == old(res.totalPaid)
      ensures Now() == PeriodTurned(W(), old(Now()), on)
    {
      hide Now, W, HandedOver, Turned, Accepted, Covers, LoansOk, DayNumber, Conserved, Permitted, Ready, Reservations;
      if cycle > 0 {
        if carryRule == NoCarry {
          HandOver();
        }
        NextCycle(on);
      } else {
        EnsureCycle(on);
      }
    }

    /** Carried cash waits for its date, where that comes before permission changes. */
    method CarryTerms(on: Date, rule: CarryRule, minimum: int, until: Date)
      requires Valid() && Today(on) && input.Separate() && After(nextPeriod, on)
      modifies `carryRule, `carryMinimum, `carryUntil, `nextPeriod
      ensures Valid() && After(nextPeriod, on) && !After(nextPeriod, old(nextPeriod))
      ensures carryRule == rule && carryMinimum == minimum && carryUntil == until
      ensures rule == CarryToDate && After(until, on) ==> !After(nextPeriod, until)
      ensures Now() == CarryIn(old(Now()), on, (rule, minimum, until))
    {
      hide Accepted, Covers, LoansOk, DayNumber, Restricted, TotalBalance, OpeningBalance, TimelinePaid, DuesFrom, BucketsOk,
        Before, After;
      carryRule, carryMinimum, carryUntil := rule, minimum, until;
      if rule == CarryToDate && After(until, on) && Before(until, nextPeriod) {
        NoEarlierMonth(on, until);
        nextPeriod := until;
      }
    }

    /** What a permission event does once its limit is granted, up to allocating. */
    method Renew(on: Date, newPeriod: bool, rule: CarryRule, minimum: int, until: Date)
      requires Valid() && Today(on) && input.Separate() && (newPeriod || cycle > 0)
      modifies `nextPeriod, `loans, `cash, `res, `month, `cycle, `cycleIncome, `carryRule, `carryMinimum, `carryUntil
      ensures Valid() && cycle > 0 && After(nextPeriod, on) && AllMove(old(loans), loans, clock)
      ensures forall k :: 0 <= k < |loans| ==> loans[k].pending == 0
      ensures carryRule == rule && carryMinimum == minimum && carryUntil == until
      ensures res.totalPaid == old(res.totalPaid)
      ensures old(Protected()) ==> Protected()
      ensures Now() == TermsRenewed(W(), old(Now()), on, newPeriod, (rule, minimum, until))
    {
      hide Accepted, Covers, LoansOk, DayNumber, Conserved, Permitted, Ready, Before, After, AllMove, LimitOn,
        PeriodStart, Reservations, NextChange, Now, W, Released, PeriodTurned, CarryIn;
      ScheduleChange(on);
      ReleasePending();
      if newPeriod {
        TurnPeriod(on);
      }
      CarryTerms(on, rule, minimum, until);
    }

    /**
     A permission event: grants the limit in force, reconsiders every promise, and in a new
     period hands unspent money over and turns the cycle. It credits no cash.
     */
    method Period(on: Date)
      requires Valid() && Today(on) && err.None? && input.Separate() && IsSet(input.valuation) && YearMonth(input.valuation) > 12
      requires IsSet(periodStart) ==> cycle > 0
      modifies `periodStart, `periodSpent, `periodLeft, `limit, `declared, `paidBefore, `err, `nextPeriod, `loans, `cash, `res,
               `month, `cycle, `cycleIncome, `carryRule, `carryMinimum, `carryUntil, `buckets, `budget
      ensures err.Some? ==> err.value.OverLimit? || err.value.NoQuote? || err.value.NoProjection?
      ensures err.None? ==> Valid() && cycle > 0 && After(nextPeriod, on)
      ensures limit == LimitOn(input.cash.spending.value, old(budget), on)
      ensures periodStart == PeriodStart(input.cash.spending.value.cycleDay, on)
      ensures if periodStart == old(periodStart) then declared == old(declared) && paidBefore == old(paidBefore)
              else declared == DeclaredFor(on) && paidBefore == old(res.totalPaid)
      ensures err.None? ==> AllMove(old(loans), loans, clock) && WakesMove(old(buckets), buckets) && Asleep(on)
      ensures err.None? && old(Protected()) ==> Protected()
      ensures Now() == Reviewed(W(), old(Now()), on)
    {
      hide Accepted, Covers, LoansOk, DayNumber, Conserved, Permitted, Ready, Before, After, AllMove, WakesMove, LimitOn,
        PeriodStart, DeclaredFor, Reservations, NextChange, Now, W, Allocated, Granted, TermsRenewed, CarryAfter, InForce,
        Protected, Asleep;
      var before := periodStart;
      var rule, minimum, until := GrantInForce(on);
      if err.Some? {
        return;
      }
      Proceed(on, before != periodStart, rule, minimum, until);
    }

    /** What follows a granted limit: promises are reconsidered and cash is allocated again. */
    method Proceed(on: Date, newPeriod: bool, rule: CarryRule, minimum: int, until: Date)
      requires Valid() && Today(on) && err.None? && input.Separate() && (newPeriod || cycle > 0)
      modifies `nextPeriod, `loans, `cash, `res, `month, `cycle, `cycleIncome, `carryRule, `carryMinimum, `carryUntil, `buckets,
               `budget, `periodSpent, `periodLeft, `err
      ensures err.Some? ==> err.value.NoQuote? || err.value.NoProjection?
      ensures err.None? ==> Valid() && cycle > 0 && After(nextPeriod, on)
      ensures err.None? ==> AllMove(old(loans), loans, clock) && WakesMove(old(buckets), buckets) && Asleep(on)
      ensures err.None? && old(Protected()) ==> Protected()
      ensures Now() == Allocated(W(), TermsRenewed(W(), old(Now()), on, newPeriod, (rule, minimum, until)), on)
    {
      hide Distribution.AllocatedInOrder, Accepted, Covers, LoansOk, DayNumber, Conserved, Permitted, Ready, Before, After,
        AllMove, WakesMove, Now, W, Allocated, TermsRenewed, Protected, Asleep;
      Renew(on, newPeriod, rule, minimum, until);
      ghost var released := loans;
      Allocate(on);
      if err.None? {
        AllMoveIsTransitive(old(loans), released, loans, clock);
      }
    }

    // ---------- Picking events ----------

    /** An event that is still to happen, on its day. */
    ghost predicate Coming(e: Event, on: Date)
      reads this
    {
      IsSet(on) &&
      match e
      case PeriodEvent => nextPeriod == on
      case LumpEvent(k) => k < |lumps| && lumps[k].on == on
      case IncomeEvent => nextIncome == on
      case RouteEvent => exists k :: 0 <= k < |buckets| && buckets[k].wake == on
      case DueEvent(i) => i < |loans| && !loans[i].closed && loans[i].due == on
    }

    /** The event to process next: nothing comes earlier, and the day's order is period, lump, income, routing, due by index. */
    method NextEvent() returns (e: Event, on: Date)
      requires Valid() && exists i :: 0 <= i < |loans| && !loans[i].closed
      ensures Coming(e, on)
      ensures forall e', on' :: Coming(e', on') ==> NotLater(e, on, e', on')
      ensures Picked(Now()) == Some((e, on))
    {
      hide Accepted, Covers, LoanOk, LoansOk, DayNumber, Conserved, Permitted, Before, NotLater, Now, BestWake, BestLump,
        BestDue, Better;
      var best: Option<(Event, Date)> := None;
      if IsSet(nextPeriod) {
        BetterIsEarlier(best, PeriodEvent, nextPeriod);
        best := Better(best, PeriodEvent, nextPeriod);
      }
      if IsSet(nextIncome) {
        BetterIsEarlier(best, IncomeEvent, nextIncome);
        best := Better(best, IncomeEvent, nextIncome);
      }
      best := PickWake(best);
      best := PickLump(best);
      best := PickDue(best);
      assert best.Some? by {
        var i :| 0 <= i < |loans| && !loans[i].closed;
        assert Picks(best, DueEvent(i), loans[i].due);
      }
      e, on := best.value.0, best.value.1;
    }

    /** The best event so far against every bucket's wake. */
    method PickWake(first: Option<(Event, Date)>) returns (best: Option<(Event, Date)>)
      requires first.Some? ==> Coming(first.value.0, first.value.1) && (first.value.0.PeriodEvent? || first.value.0.IncomeEvent?)
      ensures best == BestWake(first, buckets)
      ensures best.Some? ==> Coming(best.value.0, best.value.1) && !best.value.0.LumpEvent? && !best.value.0.DueEvent?
      ensures forall e, on :: Picks(first, e, on) ==> Picks(best, e, on)
      ensures forall j :: 0 <= j < |buckets| && IsSet(buckets[j].wake) ==> Picks(best, RouteEvent, buckets[j].wake)
    {
      hide DayNumber, Before, NotLater, Better;
      best := first;
      for k := 0 to |buckets|
        invariant best == BestWake(first, buckets[..k])
        invariant best.Some? ==> Coming(best.value.0, best.value.1) && !best.value.0.LumpEvent? && !best.value.0.DueEvent?
        invariant forall e, on :: Picks(first, e, on) ==> Picks(best, e, on)
        invariant forall j :: 0 <= j < k && IsSet(buckets[j].wake) ==> Picks(best, RouteEvent, buckets[j].wake)
      {
        assert buckets[..k + 1][..k] == buckets[..k];
        if IsSet(buckets[k].wake) {
          BetterIsEarlier(best, RouteEvent, buckets[k].wake);
          best := Better(best, RouteEvent, buckets[k].wake);
        }
      }
      assert buckets[..|buckets|] == buckets;
    }

    /** The best event so far against every waiting receipt. */
    method PickLump(first: Option<(Event, Date)>) returns (best: Option<(Event, Date)>)
      requires Valid()
      requires first.Some? ==> Coming(first.value.0, first.value.1) && !first.value.0.LumpEvent? && !first.value.0.DueEvent?
      ensures best == BestLump(first, lumps)
      ensures best.Some? ==> Coming(best.value.0, best.value.1) && !best.value.0.DueEvent?
      ensures forall e, on :: Picks(first, e, on) ==> Picks(best, e, on)
      ensures forall j :: 0 <= j < |lumps| ==> Picks(best, LumpEvent(j), lumps[j].on)
    {
      hide Accepted, Covers, LoansOk, Conserved, Permitted, DayNumber, Before, NotLater, Better;
      best := first;
      for k := 0 to |lumps|
        invariant best == BestLump(first, lumps[..k])
        invariant best.Some? ==> Coming(best.value.0, best.value.1) && !best.value.0.DueEvent?
        invariant best.Some? && best.value.0.LumpEvent? ==> best.value.0.index < k
        invariant forall e, on :: Picks(first, e, on) ==> Picks(best, e, on)
        invariant forall j :: 0 <= j < k ==> Picks(best, LumpEvent(j), lumps[j].on)
      {
        assert lumps[..k + 1][..k] == lumps[..k];
        ReceiptIsDated(k);
        BetterIsEarlier(best, LumpEvent(k), lumps[k].on);
        best := Better(best, LumpEvent(k), lumps[k].on);
      }
      assert lumps[..|lumps|] == lumps;
    }

    /** The best event so far against every open loan's due. */
    method PickDue(first: Option<(Event, Date)>) returns (best: Option<(Event, Date)>)
      requires Valid()
      requires first.Some? ==> Coming(first.value.0, first.value.1) && !first.value.0.DueEvent?
      ensures best == BestDue(first, loans)
      ensures best.Some? ==> Coming(best.value.0, best.value.1)
      ensures forall e, on :: Picks(first, e, on) ==> Picks(best, e, on)
      ensures forall j :: 0 <= j < |loans| && !loans[j].closed ==> Picks(best, DueEvent(j), loans[j].due)
    {
      hide Accepted, Covers, LoanOk, Conserved, Permitted, DayNumber, Before, NotLater, Better;
      best := first;
      for k := 0 to |loans|
        invariant best == BestDue(first, loans[..k])
        invariant best.Some? ==> Coming(best.value.0, best.value.1)
        invariant best.Some? && best.value.0.DueEvent? ==> best.value.0.loan < k
        invariant forall e, on :: Picks(first, e, on) ==> Picks(best, e, on)
        invariant forall j :: 0 <= j < k && !loans[j].closed ==> Picks(best, DueEvent(j), loans[j].due)
      {
        assert loans[..k + 1][..k] == loans[..k];
        if !loans[k].closed {
          OpenLoan(k);
          BetterIsEarlier(best, DueEvent(k), loans[k].due);
          best := Better(best, DueEvent(k), loans[k].due);
        }
      }
      assert loans[..|loans|] == loans;
    }

    lemma ReceiptIsDated(k: nat)
      requires Valid() && k < |lumps|
      ensures IsSet(lumps[k].on)
    {
      hide RoutingAccepted, LoansOk, Conserved, Permitted, DayNumber;
      AcceptedReceipt(input, lumps[k]);
    }

    // ---------- Following a policy ----------

    /** What is left to do before the horizon: receipts, days of every source of events, and repeated dues of one day. */
    ghost function WorkLeft(horizon: int): Work
      reads this
    {
      WorkOf(horizon, |lumps|, loans, buckets, nextPeriod, nextIncome, incomeYM)
    }

    lemma PeriodIsSeparate(on: Date)
      requires Valid() && Coming(PeriodEvent, on)
      ensures input.Separate()
    {
      hide Accepted, LoansOk, Conserved, Permitted;
    }

    method PeriodStep(on: Date, horizon: int)
      requires Valid() && Today(on) && err.None? && Coming(PeriodEvent, on) && clock <= horizon
      requires IsSet(periodStart) ==> cycle > 0
      modifies this
      ensures SameRun(old(clock), old(trail)) && (err.Some? ==> !err.value.ShortOfCash? && err.value != Invariant)
      ensures err.None? ==> Valid() && cycle > 0 && WorkLeft(horizon).Below(old(WorkLeft(horizon)))
      ensures nextIncome == old(nextIncome)
      ensures covered == old(covered) && (err.None? && old(Protected()) ==> Protected())
      ensures Now() == Happened(W(), old(Now()), PeriodEvent, on)
    {
      hide Accepted, Covers, LoansOk, DayNumber, Conserved, Permitted, Ready, Before, After, AllMove, WakesMove, LimitOn,
        WorkOf, DaysLeft, WakeDaysLeft, PeriodStart, DeclaredFor, Reservations, Asleep, Now, W, Reviewed, Protected;
      ValuationIsDated(input);
      PeriodIsSeparate(on);
      Period(on);
      if err.None? {
        LaterLeavesLess(horizon, on, nextPeriod);
        WakesMoveKeepsDaysLeft(horizon, old(buckets), buckets);
        FewerDays(horizon, |lumps|, old(loans), loans, old(buckets), buckets, old(nextPeriod), nextPeriod, nextIncome, nextIncome,
                  incomeYM, incomeYM, clock);
      }
    }

    method LumpStep(k: nat, on: Date, horizon: int)
      requires Valid() && Today(on) && err.None? && Coming(LumpEvent(k), on)
      modifies this
      ensures SameRun(old(clock), old(trail)) && (err.Some? ==> !err.value.ShortOfCash? && err.value != Invariant)
      ensures periodStart == old(periodStart)
      ensures err.None? ==> Valid() && cycle > 0 && WorkLeft(horizon).Below(old(WorkLeft(horizon)))
      ensures nextIncome == old(nextIncome)
      ensures covered == old(covered) && (err.None? && old(Protected()) ==> Protected())
      ensures Now() == Happened(W(), old(Now()), LumpEvent(k), on)
    {
      hide Accepted, Covers, LoansOk, DayNumber, Conserved, Permitted, Ready, Before, After, AllMove, WakesMove, LoanWork,
        WakeDaysLeft, Reservations, Now, W, LumpTaken, Protected;
      Lump(k, on);
    }

    method IncomeStep(on: Date, horizon: int)
      requires Valid() && Today(on) && err.None? && Coming(IncomeEvent, on) && clock <= horizon
      modifies this
      ensures SameRun(old(clock), old(trail)) && (err.Some? ==> !err.value.ShortOfCash? && err.value != Invariant)
      ensures periodStart == old(periodStart)
      ensures err.None? ==> Valid() && cycle > 0 && WorkLeft(horizon).Below(old(WorkLeft(horizon)))
      ensures inflow == old(inflow) + old(Credit(on)) && nextIncome == IncomeAfter(on)
      ensures covered == if err.None? then Protected() else old(covered)
      ensures Now() == Happened(W(), old(Now()), IncomeEvent, on)
    {
      hide Accepted, Covers, LoansOk, DayNumber, Restricted, TotalBalance, OpeningBalance, TimelinePaid, DuesFrom, BucketsOk,
        Before, After, AllMove, WakesMove, WorkOf, DaysLeft, WakeDaysLeft, Reservations, Asleep, Credit, Now, W, Earned,
        IncomeAfter;
      Income(on);
      if err.None? {
        LaterLeavesLess(horizon, on, nextIncome);
        WakesMoveKeepsDaysLeft(horizon, old(buckets), buckets);
        FewerDays(horizon, |lumps|, old(loans), loans, old(buckets), buckets, nextPeriod, nextPeriod, old(nextIncome), nextIncome,
                  old(incomeYM), incomeYM, clock);
        covered := Protected();
      }
    }

    method RouteStep(on: Date, horizon: int)
      requires Valid() && Today(on) && err.None? && Coming(RouteEvent, on) && clock <= horizon
      modifies this
      ensures SameRun(old(clock), old(trail)) && (err.Some? ==> !err.value.ShortOfCash? && err.value != Invariant)
      ensures periodStart == old(periodStart)
      ensures err.None? ==> Valid() && cycle > 0 && WorkLeft(horizon).Below(old(WorkLeft(horizon)))
      ensures nextIncome == old(nextIncome)
      ensures covered == old(covered) && (err.None? && old(Protected()) ==> Protected())
      ensures Now() == Happened(W(), old(Now()), RouteEvent, on)
    {
      hide Distribution.AllocatedInOrder, Accepted, Covers, LoansOk, DayNumber, Conserved, Permitted, Ready, Before, After,
        AllMove, WakesMove, WorkOf, DaysLeft, WakeDaysLeft, Reservations, Now, W, Allocated, WithCycle;
      EnsureCycle(on);
      Allocate(on);
      if err.None? {
        ghost var k :| 0 <= k < |old(buckets)| && old(buckets)[k].wake == on;
        WakesHaveCounterparts(old(buckets), buckets);
        WakeMovesOn(horizon, old(buckets), buckets, k);
        FewerDays(horizon, |lumps|, old(loans), loans, old(buckets), buckets, nextPeriod, nextPeriod, nextIncome, nextIncome,
                  incomeYM, incomeYM, clock);
      }
    }

    /** A due event leaves less to do, and under its guard neither runs short nor uncovers the rest. */
    method DueWithin(i: nat, on: Date, horizon: int)
      requires Valid() && Today(on) && err.None? && Coming(DueEvent(i), on) && clock <= horizon
      modifies `cycle, `cycleIncome, `month, `res, `cash, `inflow, `nextIncome, `incomeYM,
               `loans, `buckets, `budget, `periodSpent, `periodLeft, `err
      ensures err.Some? ==> err.value != Invariant
      ensures err.None? ==> Valid() && cycle > 0 && WorkLeft(horizon).Below(old(WorkLeft(horizon)))
      ensures old(loans[i]).balance >= 0 && (old(loans[i]).balance > 0 ==> IsSet(old(loans[i]).from))
      ensures old(Guarded(i, on)) ==> (if err.Some? then !err.value.ShortOfCash? else Protected())
      ensures nextIncome == old(nextIncome)
      ensures incomeYM == if input.cash.payDay == 0 && YearMonth(on) != old(incomeYM) then YearMonth(on) else old(incomeYM)
      ensures Now() == DuePassed(W(), old(Now()), i, on)
    {
      hide Now, W, DuePassed, Accepted, Covers, LoanOk, LoansOk, DayNumber, Conserved, Permitted, Before, After, AllMove,
        AllDrift, WakesMove, LoanWork, WakeDaysLeft, Reservations, Asleep, Credit, Stage, Fits, Guarded, DuesFrom, BucketsOk;
      OpenLoan(i);
      Due(i, on);
      if err.None? {
        DueLowersWork(horizon, old(loans), loans, i, on, old(incomeYM), incomeYM);
        WakesMoveKeepsDaysLeft(horizon, old(buckets), buckets);
      }
    }

    method DueStep(i: nat, on: Date, horizon: int)
      requires Valid() && Today(on) && err.None? && Coming(DueEvent(i), on) && clock <= horizon
      modifies this
      ensures SameRun(old(clock), old(trail))
      ensures periodStart == old(periodStart)
      ensures err.Some? ==> err.value != Invariant
      ensures err.None? ==> Valid() && cycle > 0 && WorkLeft(horizon).Below(old(WorkLeft(horizon)))
      ensures old(loans[i]).balance >= 0 && (old(loans[i]).balance > 0 ==> IsSet(old(loans[i]).from))
      ensures covered == if input.cash.payDay == 0 && YearMonth(on) != old(incomeYM) && err.None? then Protected()
                         else old(covered && Fits(i, on))
      ensures old(covered ==> Protected()) ==>
                (if err.Some? then err.value.ShortOfCash? ==> !covered else covered ==> Protected())
      ensures nextIncome == old(nextIncome) && nextPeriod == old(nextPeriod) && lumps == old(lumps)
      ensures incomeYM == if input.cash.payDay == 0 && YearMonth(on) != old(incomeYM) then YearMonth(on) else old(incomeYM)
      ensures Now() == Happened(W(), old(Now()), DueEvent(i), on)
    {
      hide Accepted, Covers, LoanOk, LoansOk, DayNumber, Restricted, TotalBalance, OpeningBalance, TimelinePaid, DuesFrom,
        BucketsOk, LoanWork, WakeDaysLeft, Reservations, Fits, Now, W, DuePassed;
      OpenLoan(i);
      ghost var fits := Fits(i, on);
      DueWithin(i, on, horizon);
      covered := if input.cash.payDay == 0 && YearMonth(on) != old(incomeYM) && err.None? then Protected() else covered && fits;
    }

    ghost predicate SameRun(clock': nat, trail': seq<nat>)
      reads this
    {
      clock == clock' && trail == trail'
    }

    /** The clock moves to the event picked; nothing still to happen lies before it. */
    method Advance(e: Event, on: Date)
      requires Valid() && Coming(e, on)
      requires forall e', on' :: Coming(e', on') ==> NotLater(e, on, e', on')
      modifies `clock, `trail
      ensures Valid() && Today(on) && clock >= old(clock) && trail == old(trail) + [clock] && Coming(e, on)
      ensures Protected() == old(Protected()) && forall h :: WorkLeft(h) == old(WorkLeft(h))
      ensures Now() == old(Now())
    {
      hide Accepted, Covers, LoanOk, DayNumber, Restricted, TotalBalance, OpeningBalance, TimelinePaid;
      assert YearMonth(on) > 12 && DayNumber(on) >= clock by {
        match e
        case DueEvent(i) => OpenLoan(i); DueIsLate(i);
        case LumpEvent(k) => AcceptedReceipt(input, lumps[k]);
        case _ =>
      }
      forall i | 0 <= i < |loans| && !loans[i].closed
        ensures DayNumber(loans[i].due) >= DayNumber(on)
      {
        OpenLoan(i);
        assert NotLater(e, on, DueEvent(i), loans[i].due);
      }
      forall k | 0 <= k < |buckets|
        ensures BucketOk(buckets[k], DayNumber(on))
      {
        assert BucketOk(buckets[k], clock);
        assert IsSet(buckets[k].wake) ==> NotLater(e, on, RouteEvent, buckets[k].wake);
      }
      forall k | 0 <= k < |lumps|
        ensures DayNumber(lumps[k].on) >= DayNumber(on)
      {
        AcceptedReceipt(input, lumps[k]);
        assert NotLater(e, on, LumpEvent(k), lumps[k].on);
      }
      assert IsSet(nextPeriod) ==> NotLater(e, on, PeriodEvent, nextPeriod);
      assert IsSet(nextIncome) ==> NotLater(e, on, IncomeEvent, nextIncome);
      clock := DayNumber(on);
      trail := trail + [clock];
    }

    lemma DueIsLate(i: nat)
      requires Valid() && i < |loans| && !loans[i].closed
      ensures YearMonth(loans[i].due) > 12
    {
      assert LoanOk(input.loans[i], loans[i]);
    }

    /** One event of a run: every identity is kept, less is left to do, and a run covered by its income is never short of cash. */
    method Process(e: Event, on: Date, horizon: int)
      requires Valid() && Today(on) && err.None? && Coming(e, on) && clock <= horizon && (IsSet(periodStart) ==> cycle > 0)
      requires covered ==> Protected()
      modifies this
      ensures SameRun(old(clock), old(trail))
      ensures err.None? ==> Valid() && cycle > 0 && WorkLeft(horizon).Below(old(WorkLeft(horizon)))
      ensures err.None? ==> (covered ==> Protected())
      ensures err.Some? ==> err.value != Invariant && (err.value.ShortOfCash? ==> !covered)
      ensures nextIncome == if e.IncomeEvent? then IncomeAfter(on) else old(nextIncome)
      ensures Now() == Happened(W(), old(Now()), e, on)
      ensures covered == CoverAfter(W(), old(Now()), old(covered), e, on)
    {
      hide Accepted, Covers, LoansOk, DayNumber, Conserved, Permitted, Ready, LoanWork, WakeDaysLeft, Reservations, WorkLeft,
        Protected, Now, W, Happened, Fits, FitsIn, Covered, LoanOk;
      match e {
        case PeriodEvent => PeriodStep(on, horizon);
        case LumpEvent(k) => LumpStep(k, on, horizon);
        case IncomeEvent => IncomeStep(on, horizon);
        case RouteEvent => RouteStep(on, horizon);
        case DueEvent(i) =>
          OpenLoan(i);
          FitIs(i, on);
          DueStep(i, on, horizon);
      }
      CoverIs();
    }

    /** One event within the horizon. */
    method Happen(e: Event, on: Date, horizon: Date)
      requires Valid() && Today(on) && err.None? && Coming(e, on) && IsSet(horizon) && !After(on, horizon)
      requires (IsSet(periodStart) ==> cycle > 0) && (covered ==> Protected())
      modifies this
      ensures SameRun(old(clock), old(trail))
      ensures err.None? ==> Valid() && cycle > 0 && WorkLeft(DayNumber(horizon)).Below(old(WorkLeft(DayNumber(horizon))))
      ensures err.None? ==> (covered ==> Protected())
      ensures err.Some? ==> err.value != Invariant && (err.value.ShortOfCash? ==> !covered)
      ensures nextIncome == if e.IncomeEvent? then IncomeAfter(on) else old(nextIncome)
      ensures Now() == Happened(W(), old(Now()), e, on)
      ensures covered == CoverAfter(W(), old(Now()), old(covered), e, on)
    {
      hide Now, W, Happened, CoverAfter, Accepted, Covers, LoansOk, DayNumber, Conserved, Permitted, Ready, LoanWork,
        WakeDaysLeft, Reservations, WorkLeft, Protected;
      Process(e, on, DayNumber(horizon));
    }

    /** Days never go backwards. */
    ghost predicate Orderly()
      reads this
    {
      && (forall i, j :: 0 <= i < j < |trail| ==> trail[i] <= trail[j])
      && (forall i :: 0 <= i < |trail| ==> trail[i] <= clock)
    }

    /** The state some turns of the event loop lead to from a start, and the cover they leave. */
    ghost predicate At(start: Snap, n: nat)
      reads this
    {
      && Over(W(), start) && IsDay(input.valuation) && Now() == Steps(W(), start, n) && covered == Cover(W(), start, n)
      && (OneDueAWindow(input) ==> (Kept(W(), start, n) ==> covered))
    }

    lemma TurnsFrom(start: Snap, n: nat)
      requires At(start, n)
      ensures Over(W(), start) && IsDay(input.valuation) && Now() == Steps(W(), start, n) && covered == Cover(W(), start, n)
      ensures OneDueAWindow(input) ==> (Kept(W(), start, n) ==> covered)
    {
    }

    /** One turn of the loop leads one state further, and carries its cover along. */
    lemma TurnsOnce(start: Snap, n: nat, was: Snap, cover: bool)
      requires Over(W(), start) && IsDay(input.valuation) && was == Steps(W(), start, n) && cover == Cover(W(), start, n)
      requires !Ended(was) && Now() == Next(W(), was) && covered == CoverNext(W(), was, cover)
      requires OneDueAWindow(input) ==> (Kept(W(), start, n) ==> cover) && KeepingCovers(W(), was, cover)
      ensures At(start, n + 1)
    {
      hide Next, Ended, CoverNext, KeptNext, OneDueAWindow, Now, W;
      StepsOneMore(W(), start, n);
    }

    lemma TurnKeeps(e: Event, on: Date)
      requires Valid() && Windowed() && Coming(e, on) && IsDay(input.valuation) && Picked(Now()) == Some((e, on))
      requires forall e', on' :: Coming(e', on') ==> NotLater(e, on, e', on')
      ensures OneDueAWindow(input) ==> KeepingCovers(W(), Now(), covered)
    {
      hide Accepted, Covers, LoansOk, DayNumber, Conserved, Permitted, Ready, NotLater, Coming, W, Now, KeptAfter,
        CoverAfter, Windowed, OneDueAWindow, Picked;
      if OneDueAWindow(input) {
        forall kept: bool | (kept ==> covered) && KeptNext(W(), Now(), kept) ensures CoverNext(W(), Now(), covered) {
          KeepingIsCovering(e, on, kept, covered);
        }
      }
    }

    /** Which state and which cover the event picked leads to. */
    lemma NextTurn(e: Event, on: Date)
      requires |loans| == |input.loans| && IsDay(input.valuation) && Picked(Now()) == Some((e, on))
      ensures Over(W(), Now())
      ensures Next(W(), Now()) == (if After(on, Horizon(W())) then Now().(err := Some(HorizonExceeded)) else Happened(W(), Now(), e, on))
      ensures CoverNext(W(), Now(), covered) == if After(on, Horizon(W())) then covered else CoverAfter(W(), Now(), covered, e, on)
    {
      hide Picked, Happened, CoverAfter, W, Now;
    }

    /** One turn of the loop: the next event, unless it lies past the horizon. */
    method Turn(horizon: Date)
      requires Valid() && err.None? && exists i :: 0 <= i < |loans| && !loans[i].closed
      requires IsDay(input.valuation) && horizon == Horizon(W())
      requires (IsSet(periodStart) ==> cycle > 0) && (covered ==> Protected()) && Orderly() && Windowed()
      modifies this
      ensures (err.None? ==> Windowed()) && (OneDueAWindow(input) ==> KeepingCovers(W(), old(Now()), old(covered)))
      ensures Orderly() && (err.None? ==> trail == old(trail) + [clock] && clock <= DayNumber(horizon))
      ensures err.None? ==> Valid() && cycle > 0 && WorkLeft(DayNumber(horizon)).Below(old(WorkLeft(DayNumber(horizon))))
      ensures err.None? ==> (covered ==> Protected())
      ensures err.Some? ==> err.value != Invariant && (err.value.ShortOfCash? ==> !covered)
      ensures Now() == Next(W(), old(Now())) && covered == CoverNext(W(), old(Now()), old(covered))
    {
      hide Now, Accepted, Covers, LoansOk, DayNumber, Conserved, Permitted, Ready, LoanWork, WakeDaysLeft, Reservations, WorkLeft,
        Protected, NotLater, Coming, W, Picked, Happened, CoverAfter, KeptNext, CoverNext, KeepingCovers, OneDueAWindow, Windowed,
        IncomeAfter;
      var e, on := NextEvent();
      TurnKeeps(e, on);
      NextTurn(e, on);
      if After(on, horizon) {
        err := Some(HorizonExceeded);
        return;
      }
      CompareIsDayOrder(on, horizon);
      Move(e, on, horizon);
    }

    /** The clock moves to the event picked, and the event happens. */
    method Move(e: Event, on: Date, horizon: Date)
      requires Valid() && err.None? && Coming(e, on) && IsSet(horizon) && !After(on, horizon)
      requires forall e', on' :: Coming(e', on') ==> NotLater(e, on, e', on')
      requires (IsSet(periodStart) ==> cycle > 0) && (covered ==> Protected()) && Windowed()
      modifies this
      ensures trail == old(trail) + [clock] && clock >= old(clock) && clock == DayNumber(on) && (err.None? ==> Windowed())
      ensures err.None? ==> Valid() && cycle > 0 && WorkLeft(DayNumber(horizon)).Below(old(WorkLeft(DayNumber(horizon))))
      ensures err.None? ==> (covered ==> Protected())
      ensures err.Some? ==> err.value != Invariant && (err.value.ShortOfCash? ==> !covered)
      ensures Now() == Happened(W(), old(Now()), e, on) && covered == CoverAfter(W(), old(Now()), old(covered), e, on)
    {
      hide Now, Accepted, Covers, LoansOk, DayNumber, Conserved, Permitted, Ready, LoanWork, WakeDaysLeft, Reservations, WorkLeft,
        Protected, NotLater, W, Happened, CoverAfter, WindowFrom, IncomeAfter;
      ghost var was, day := nextIncome, clock;
      ghost var income: Date := UNSET;
      if input.cash.payDay != 0 {
        income :| WindowFrom(input, income, nextIncome, clock);
      }
      Advance(e, on);
      Happen(e, on, horizon);
      if input.cash.payDay != 0 {
        WindowGoesOn(input, income, was, day, on);
        if e.IncomeEvent? {
          IncomeIsThen(on);
        }
      }
    }

    lemma IncomeIsThen(on: Date)
      requires IsSet(on) && input.cash.payDay != 0
      ensures IncomeAfter(on) == OnDayOfMonth(AddMonths(on, 1), input.cash.payDay)
    {
    }

    /** Processes events until every loan is closed or the run fails; it always ends. */
    method Follow(horizon: Date)
      requires Valid() && err.None? && !IsSet(periodStart) && trail == [] && (covered ==> Protected())
      requires IsDay(input.valuation) && horizon == Horizon(W()) && At(Now(), 0) && Windowed()
      modifies this
      ensures Orderly() && exists n: nat :: At(old(Now()), n)
      ensures err.None? ==> Valid() && forall i :: 0 <= i < |loans| ==> loans[i].closed
      ensures err.Some? ==> err.value != Invariant && (err.value.ShortOfCash? ==> !covered)
      ensures err.None? ==> forall i :: 0 <= i < |trail| ==> trail[i] <= DayNumber(horizon)
    {
      hide Accepted, Covers, LoansOk, DayNumber, Conserved, Permitted, Ready, WorkLeft, Protected, At, Now, W, Next,
        CoverNext, KeepingCovers, Windowed, OneDueAWindow;
      ghost var start, n := Now(), 0;
      var all := AllClosed();
      while !all
        invariant Valid() && err.None? && Orderly() && n >= 0 && At(start, n) && Windowed()
        invariant all <==> forall i :: 0 <= i < |loans| ==> loans[i].closed
        invariant IsSet(periodStart) ==> cycle > 0
        invariant covered ==> Protected()
        invariant forall i :: 0 <= i < |trail| ==> trail[i] <= DayNumber(horizon)
        decreases WorkLeft(DayNumber(horizon)).lumps, WorkLeft(DayNumber(horizon)).days,
                  WorkLeft(DayNumber(horizon)).waiting, WorkLeft(DayNumber(horizon)).stages
      {
        ghost var was, cover := Now(), covered;
        TurnsFrom(start, n);
        Turn(horizon);
        TurnsOnce(start, n, was, cover);
        n := n + 1;
        if err.Some? {
          return;
        }
        all := AllClosed();
      }
    }

    // ---------- Finishing ----------

    /** The identities a finished run is checked for. */
    ghost predicate Balanced()
      reads this
    {
      && cash >= 0 && res.household >= 0 && res.totalInterest >= 0 && res.totalFees >= 0
      && input.cash.openingCash + inflow == res.totalPaid + cash + Restricted(buckets) + res.household
      && TimelinePaid(res.timeline) == res.totalPaid
    }

    /** The end of a run: the open cycle is closed into the timeline. */
    method Finish()
      requires Valid() && forall i :: 0 <= i < |loans| ==> loans[i].closed
      modifies `month, `res
      ensures Balanced()
      ensures res.totalPaid == OwedAtStart(input.loans) + res.totalInterest + res.totalFees
      ensures Now() == Completed(old(Now()))
    {
      hide Accepted, Covers, LoanOk, DayNumber, Restricted, TotalBalance, OpeningBalance, TimelinePaid, DuesFrom, BucketsOk,
        OpenBalance, OwedAtStart;
      ClosedLoansOweNothing(input.loans, loans);
      if cycle > 0 {
        CloseCycle();
        TimelineAppend(old(res.timeline), month);
      }
      if res.months == 0 {
        res := res.(months := cycle);
      }
      EmptyTimeline();
    }

    /** Replays the identities from the timeline's own record; they never fail. */
    method Conserve() returns (f: Option<Failure>)
      requires Balanced()
      ensures f.None?
    {
      var paid := 0;
      for k := 0 to |res.timeline|
        invariant paid == TimelinePaid(res.timeline[..k])
      {
        assert res.timeline[..k + 1][..k] == res.timeline[..k];
        var m := res.timeline[k];
        paid := paid + m.required + m.extra + m.fees;
      }
      assert res.timeline[..|res.timeline|] == res.timeline;
      if paid != res.totalPaid || cash < 0 {
        return Some(Invariant);
      }
      var restricted := RestrictedCash();
      if input.cash.openingCash + inflow != res.totalPaid + (cash + restricted) + res.household {
        return Some(Invariant);
      }
      return None;
    }

    /** What a finished run has accounted for: every loan is closed in time, and every unit of money is somewhere. */
    ghost predicate Accounted(result: Flow.Result)
      requires IsDay(input.valuation)
      reads this
    {
      && res == result && LoansOk(input.loans, loans) && Balanced()
      && (forall i :: 0 <= i < |loans| ==> loans[i].closed)
      && result.totalPaid == OwedAtStart(input.loans) + result.totalInterest + result.totalFees
      && (forall i :: 0 <= i < |trail| ==> trail[i] <= DayNumber(Horizon(W())))
    }

    /** What a run answers is what the state it ends in gives, and it runs short of cash only where it lost its cover. */
    ghost predicate Answers(start: Snap, r: Outcome)
      requires Over(W(), start) && IsDay(input.valuation)
      reads this
    {
      exists n: nat :: Ended(Steps(W(), start, n)) && r == OutcomeOf(Steps(W(), start, n))
                       && (r.Failed? && r.why.ShortOfCash? ==> Lost(start, n))
    }

    /** Cover is lost, and with days that keep dues in windows of their own so is the simpler cover. */
    ghost predicate Lost(start: Snap, n: nat)
      requires Over(W(), start) && IsDay(input.valuation)
    {
      !Cover(W(), start, n) && (OneDueAWindow(input) ==> !Kept(W(), start, n))
    }

    /** Follows the policy to its end and checks the identities. */
    method Complete() returns (r: Outcome)
      requires Valid() && err.None? && !IsSet(periodStart) && trail == [] && covered == Protected() && IsDay(input.valuation)
      requires nextIncome == FirstIncome(input)
      modifies this
      ensures Orderly() && r != Failed(Invariant) && Answers(old(Now()), r)
      ensures r.Finished? ==> Accounted(r.result)
    {
      hide Accepted, LoansOk, DayNumber, OwedAtStart, Conserved, Permitted, Ready, Protected, Balanced, Covers, Completed, W,
        Now, At, Steps, Cover, Kept, Windowed, OneDueAWindow, FirstIncome;
      ghost var start := Now();
      StartsAt();
      FirstWindow();
      Follow(AddMonths(input.valuation, input.Months()));
      ghost var n: nat :| At(start, n);
      TurnsFrom(start, n);
      ghost var end := Now();
      if err.Some? {
        return Failed(err.value);
      }
      Finish();
      var f := Conserve();
      r := match f case None => Finished(res) case Some(why) => Failed(why);
    }

    lemma StartsAt()
      requires IsDay(input.valuation) && |loans| == |input.loans| && covered == Protected()
      ensures At(Now(), 0)
    {
      hide Covered, Protected;
      CoverIs();
    }

  }

  /** What is left to do, source by source of events. */
  function WorkOf(horizon: int, receipts: nat, loans: seq<LoanState>, buckets: seq<CashBucket>, period: Date, income: Date, incomeYM: int): Work {
    var w := LoanWork(horizon, loans, incomeYM);
    Work(receipts, w.days + WakeDaysLeft(horizon, buckets) + DaysLeft(horizon, period) + DaysLeft(horizon, income), w.waiting, w.stages)
  }

  /** Fewer days of periods, incomes and wakes leave less to do, wherever the loans' dues move. */
  lemma FewerDays(horizon: int, n: nat, loans: seq<LoanState>, loans': seq<LoanState>, bs: seq<CashBucket>, bs': seq<CashBucket>,
                  p: Date, p': Date, q: Date, q': Date, ym: int, ym': int, day: int)
    requires AllMove(loans, loans', day) && day > 0
    requires WakeDaysLeft(horizon, bs') + DaysLeft(horizon, p') + DaysLeft(horizon, q')
             < WakeDaysLeft(horizon, bs) + DaysLeft(horizon, p) + DaysLeft(horizon, q)
    ensures WorkOf(horizon, n, loans', bs', p', q', ym').Below(WorkOf(horizon, n, loans, bs, p, q, ym))
  {
    hide AllMove, LoanDaysLeft, WakeDaysLeft, DaysLeft, Waits, Stages;
    MovesKeepDaysLeft(horizon, loans, loans', day);
  }

  lemma LaterLeavesLess(horizon: int, on: Date, later: Date)
    requires IsSet(on) && DayNumber(on) <= horizon && (IsSet(later) ==> After(later, on))
    ensures DaysLeft(horizon, later) < DaysLeft(horizon, on)
  {
    hide DayNumber;
  }

  function IndexOf(e: Event): nat {
    match e case LumpEvent(k) => k case DueEvent(i) => i case _ => 0
  }

  /** One event comes no later than another: by date, then by the day's order, then by index. */
  predicate NotLater(e: Event, on: Date, e': Event, on': Date) {
    || DayNumber(on) < DayNumber(on')
    || (on == on' && (RankOf(e) < RankOf(e') || (RankOf(e) == RankOf(e') && IndexOf(e) <= IndexOf(e'))))
  }

  /** On one day permission is reviewed first, then receipts come in, then income, then kept cash is reconsidered, then dues are settled. */
  lemma TheDaysOrder(e: Event, on: Date, e': Event)
    requires IsSet(on) && NotLater(e, on, e', on)
    ensures e'.PeriodEvent? ==> e.PeriodEvent?
    ensures e'.LumpEvent? ==> e.PeriodEvent? || (e.LumpEvent? && e.index <= e'.index)
    ensures e'.IncomeEvent? ==> e.PeriodEvent? || e.LumpEvent? || e.IncomeEvent?
    ensures e'.RouteEvent? ==> !e.DueEvent?
    ensures e'.DueEvent? && e.DueEvent? ==> e.loan <= e'.loan
  {
  }

  predicate Picks(best: Option<(Event, Date)>, e: Event, on: Date) {
    best.Some? && NotLater(best.value.0, best.value.1, e, on)
  }

  /** The better of two events is no later than either, nor than what the first was no later than. */
  lemma BetterIsEarlier(best: Option<(Event, Date)>, e: Event, on: Date)
    requires IsSet(on)
    requires best.Some? ==> RankOf(best.value.0) != RankOf(e) || IndexOf(best.value.0) <= IndexOf(e)
    ensures var r := Better(best, e, on); Picks(r, e, on) && (r == best || r == Some((e, on)))
    ensures forall e', on' :: Picks(best, e', on') ==> Picks(Better(best, e, on), e', on')
  {
    hide DayNumber;
    CompareIsDayOrder(on, if best.Some? then best.value.1 else on);
  }

  /** A run that reached its end, whatever happened, gives the outcome of its end. */
  lemma EndDecides(in_: Input, policy: Policy, start: Snap, n: nat)
    requires Accepted(in_) && Covers(policy, |in_.loans|) && IsDay(in_.valuation)
    requires start == Started(WorldOf(in_, policy), ProjectionMemo.Forgetful) && start.err.None?
    requires Ended(Steps(WorldOf(in_, policy), start, n))
    ensures Stops(WorldOf(in_, policy), start)
    ensures RunOf(in_, policy, ProjectionMemo.Forgetful).0 == OutcomeOf(Steps(WorldOf(in_, policy), start, n))
  {
    hide Accepted, Covers, Started, Ended, Completed;
    var w := WorldOf(in_, policy);
    assert Stops(w, start);
    var m: nat :| Ended(Steps(w, start, m)) && Steps(w, start, m) == StopOf(w, start);
    EndIsUnique(w, start, n, m);
  }

  /** Some run of the policy ends where the dues since its last income were not covered by it. */
  ghost predicate Uncovered(in_: Input, policy: Policy)
    requires IsDay(in_.valuation)
  {
    var w := WorldOf(in_, policy);
    var start := Started(w, ProjectionMemo.Forgetful);
    start.err.None? && exists n: nat :: Ended(Steps(w, start, n)) && !Cover(w, start, n)
  }

  /** Where days keep dues in windows of their own, some income or some due's demand ended even the simpler cover. */
  ghost predicate Unkept(in_: Input, policy: Policy)
    requires IsDay(in_.valuation)
  {
    var w := WorldOf(in_, policy);
    var start := Started(w, ProjectionMemo.Forgetful);
    start.err.None? && exists n: nat :: Ended(Steps(w, start, n)) && !Kept(w, start, n)
  }

  /** Every run ends. */
  ghost predicate Halts(in_: Input, policy: Policy)
    requires IsDay(in_.valuation)
  {
    var w := WorldOf(in_, policy);
    var start := Started(w, ProjectionMemo.Forgetful);
    start.err.None? ==> Stops(w, start)
  }

  lemma AnswersDecide(s: Sim, in_: Input, policy: Policy, r: Outcome)
    requires Accepted(in_) && Covers(policy, |in_.loans|) && s.input == in_ && s.policy == policy && IsDay(in_.valuation)
    requires Started(WorldOf(in_, policy), ProjectionMemo.Forgetful).err.None?
    requires s.Answers(Started(WorldOf(in_, policy), ProjectionMemo.Forgetful), r)
    ensures Halts(in_, policy) && r == RunOf(in_, policy, ProjectionMemo.Forgetful).0
    ensures r.Failed? && r.why.ShortOfCash? ==> Uncovered(in_, policy) && (OneDueAWindow(in_) ==> Unkept(in_, policy))
  {
    hide Accepted, Covers, Started, Steps, Cover, Kept, Ended, OutcomeOf, WorldOf, OneDueAWindow;
    var start := Started(WorldOf(in_, policy), ProjectionMemo.Forgetful);
    var n: nat :| Ended(Steps(s.W(), start, n)) && r == OutcomeOf(Steps(s.W(), start, n))
                  && (r.Failed? && r.why.ShortOfCash? ==> s.Lost(start, n));
    EndDecides(in_, policy, start, n);
  }

  /**
   Follows one policy until every loan is clear: the outcome is the one that the state reached
   event by event gives. A finished run has paid exactly what was owed plus interest and fees,
   has closed every loan no later than its last contractual date, and has accounted for all cash;
   no run fails an identity, and none that its incomes cover runs short of cash.
   */
  method Run(in_: Input, policy: Policy) returns (r: Outcome, s: Sim?)
    ensures Accepted(in_) && Covers(policy, |in_.loans|) <==> s != null
    ensures r == RunOf(in_, policy, ProjectionMemo.Forgetful).0 && r != Failed(Invariant)
    ensures s != null ==> s.input == in_ && s.policy == policy && s.Orderly() && IsDay(in_.valuation) && Halts(in_, policy)
    ensures r.Failed? && r.why.ShortOfCash? ==>
              s != null && Uncovered(in_, policy) && (OneDueAWindow(in_) ==> Unkept(in_, policy))
    ensures r.Finished? ==> s != null && s.Accounted(r.result)
  {
    hide Accepted, Covers, DayNumber, Started, Sim.Orderly, Sim.Answers, Sim.Accounted, Uncovered, Unkept, Halts, OutcomeOf,
      WorldOf, OneDueAWindow, FirstIncome;
    if !Accepted(in_) || !Covers(policy, |in_.loans|) {
      return Failed(Refused), null;
    }
    s := new Sim(in_, policy);
    NothingYetIsOrderly(s);
    OutcomeIsItsState(s.Now());
    if s.err.Some? {
      RefusedAtOnce(in_, policy);
      return Failed(s.err.value), s;
    }
    r := s.Complete();
    AnswersDecide(s, in_, policy, r);
  }

  lemma NothingYetIsOrderly(s: Sim)
    ensures s.trail == [] ==> s.Orderly()
  {
  }

  lemma OutcomeIsItsState(s: Snap)
    ensures s.err.Some? ==> OutcomeOf(s) == Failed(s.err.value)
  {
  }

  /** A run that cannot start has already failed. */
  lemma RefusedAtOnce(in_: Input, policy: Policy)
    requires IsDay(in_.valuation) && Started(WorldOf(in_, policy), ProjectionMemo.Forgetful).err.Some?
    ensures Halts(in_, policy)
    ensures Accepted(in_) && Covers(policy, |in_.loans|) ==>
              RunOf(in_, policy, ProjectionMemo.Forgetful).0 == OutcomeOf(Started(WorldOf(in_, policy), ProjectionMemo.Forgetful))
  {
    hide Accepted, Covers, Started;
  }

  // ---------- Facts about inputs ----------

  /** What the borrower owes at the start, over the loans that owe anything. */
  function OwedAtStart(ps: seq<Position>): nat {
    if ps == [] then 0
    else OwedAtStart(ps[..|ps| - 1]) + if ps[|ps| - 1].balance > 0 then ps[|ps| - 1].balance else 0
  }

  lemma {:induction false} ClosedLoansOweNothing(ps: seq<Position>, loans: seq<LoanState>)
    requires LoansOk(ps, loans) && forall i :: 0 <= i < |loans| ==> loans[i].closed
    ensures OpeningBalance(ps) - TotalBalance(loans) == OwedAtStart(ps)
  {
    hide LastDate, OpenOk;
    if ps != [] {
      var n := |ps| - 1;
      assert LoanOk(ps[n], loans[n]);
      forall i | 0 <= i < n ensures LoanOk(ps[..n][i], loans[..n][i]) {
        assert LoanOk(ps[i], loans[i]);
      }
      ClosedLoansOweNothing(ps[..n], loans[..n]);
    }
  }

  lemma PositionsAreDated(in_: Input)
    requires Accepted(in_)
    ensures forall k :: 0 <= k < |in_.loans| ==> IsSet(in_.loans[k].from)
  {
    hide RoutingValid, FundingValid;
  }

  lemma BalanceOneMore(ps: seq<Position>, k: nat, loans: seq<LoanState>, l: LoanState)
    requires k < |ps| && l.balance == ps[k].balance && TotalBalance(loans) == OpeningBalance(ps[..k])
    ensures ps[..0] == [] && TotalBalance(loans + [l]) == OpeningBalance(ps[..k + 1])
  {
    assert ps[..k + 1][..k] == ps[..k] && (loans + [l])[..|loans|] == loans;
  }

  lemma NothingOwed(p: Position, l: LoanState)
    requires p.balance <= 0 && l.closed && l.balance == p.balance
    ensures LoanOk(p, l)
  {
  }

  lemma NothingYet()
    ensures Restricted([]) == 0 && BucketsOk([], 0) && FromOpening([]) == 0
    ensures TotalBalance([]) == 0 && OpeningBalance([]) == 0
  {
  }

  lemma EmptyTimeline()
    ensures TimelinePaid([]) == 0
  {
  }

  lemma FundingIsAccepted(in_: Input)
    requires Accepted(in_)
    ensures IsSet(in_.valuation) && YearMonth(in_.valuation) > 12 && in_.cash.monthly >= 0 && in_.cash.openingCash >= 0
    ensures in_.Separate() ==> in_.cash.spending.value.monthly >= 0 && in_.cash.payDay != 0
  {
    hide RoutingValid, CarryValid;
  }

  lemma RetainedIsRouted(in_: Input, e: CashEvent)
    requires Accepted(in_) && e in in_.cash.lumps && e.fromOpening
    ensures e.routing.Some?
  {
    hide TargetAccepts;
    var k :| 0 <= k < |in_.cash.lumps| && in_.cash.lumps[k] == e;
    assert RoutingAccepted(in_, in_.cash.lumps[k]);
  }

  lemma OpeningOneMore(events: seq<CashEvent>, k: nat)
    requires k < |events|
    ensures events[..0] == []
    ensures FromOpening(events[..k + 1]) == FromOpening(events[..k]) + if events[k].fromOpening then events[k].amount else 0
  {
    assert events[..k + 1][..k] == events[..k];
  }

  /** Retained allocations fit the opening cash. */
  lemma RetainedFits(in_: Input)
    requires Accepted(in_)
    ensures FromOpening(in_.cash.lumps) <= in_.cash.openingCash
  {
    hide RoutingAccepted, UniqueIds;
    if !HasRouting(in_.cash.lumps) {
      NoneRetained(in_.cash.lumps);
    }
  }

  lemma {:induction false} NoneRetained(events: seq<CashEvent>)
    requires forall k :: 0 <= k < |events| ==> !events[k].fromOpening
    ensures FromOpening(events) == 0
  {
    if events != [] {
      NoneRetained(events[..|events| - 1]);
    }
  }

  /** Everything confirmed for one day. */
  function Received(events: seq<CashEvent>, on: Date): int {
    if events == [] then 0
    else
      var e := events[|events| - 1];
      Received(events[..|events| - 1], on) + if e.on == on then e.amount else 0
  }

  lemma ReceivedNothing(on: Date)
    ensures Received([], on) == 0
  {
  }

  lemma ReceivedOneMore(events: seq<CashEvent>, k: nat, on: Date)
    requires k < |events|
    ensures events[..0] == []
    ensures Received(events[..k + 1], on) == Received(events[..k], on) + if events[k].on == on then events[k].amount else 0
  {
    assert events[..k + 1][..k] == events[..k];
  }

  lemma AcceptedReceipt(in_: Input, e: CashEvent)
    requires Accepted(in_) && e in in_.cash.lumps
    ensures IsSet(e.on) && YearMonth(e.on) > 12 && e.amount >= 0
    ensures e.routing.Some? ==> RoutingAccepted(in_, e)
  {
    hide RoutingAccepted;
    var k :| 0 <= k < |in_.cash.lumps| && in_.cash.lumps[k] == e;
    NoEarlierMonth(in_.valuation, e.on);
  }


  lemma ValuationIsDated(in_: Input)
    requires Accepted(in_)
    ensures IsSet(in_.valuation) && YearMonth(in_.valuation) > 12
  {
  }

  lemma WakeStays(b: CashBucket)
    ensures WakeMoves(b, b)
  {
  }

  /** A window of income that began by a day or the valuation, and ends with the next income. */
  predicate WindowFrom(in_: Input, income: Date, next: Date, day: int) {
    && IsSet(income) && income == OnDayOfMonth(income, in_.cash.payDay)
    && next == OnDayOfMonth(AddMonths(income, 1), in_.cash.payDay)
    && (DayNumber(income) <= day || !After(income, in_.valuation))
  }

  /** A window goes on as time does, and on its last day an income opens the next. */
  lemma WindowGoesOn(in_: Input, income: Date, next: Date, day: int, on: Date)
    requires WindowFrom(in_, income, next, day) && IsSet(on) && DayNumber(on) >= day
    ensures WindowFrom(in_, income, next, DayNumber(on))
    ensures on == next ==> WindowFrom(in_, on, OnDayOfMonth(AddMonths(on, 1), in_.cash.payDay), DayNumber(on))
  {
    hide DayNumber, Clamp;
  }

  lemma ThroughValuation(in_: Input)
    requires Accepted(in_)
    ensures !After(in_.cash.cashThrough, in_.valuation)
  {
  }

  lemma PayDayIsADay(in_: Input)
    requires Accepted(in_)
    ensures 0 <= in_.cash.payDay <= 31
  {
  }

  lemma FloorIsNatural(in_: Input)
    requires Accepted(in_)
    ensures in_.cash.reserveFloor >= 0
  {
  }
}
