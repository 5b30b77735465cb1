/**
 What every event does to a run, as values: the whole state of the simulator before and after.
 The simulator's methods are proved against these functions, so a run is a path of states each
 of which follows from the one before, and everything about runs can be proved about paths.
 */
module Flow {
  import opened Dates
  import opened Contracts
  import opened Portfolio
  import opened SimState
  import opened Routing
  import opened Fees
  import opened LoanDues
  import Amortisation
  import ProjectionMemo

  /** Why a run has no result. `Invariant` is an arithmetic identity failing. */
  datatype Failure =
    | Refused                                              // the input or the policy is not accepted
    | ShortOfCash(on: Date, loan: nat, shortfall: int)
    | OverLimit(on: Date, shortfall: int)
    | HorizonExceeded
    | NoProjection(refusal: Amortisation.Refusal)
    | NoQuote(error: Fees.Error)
    | Invariant

  /** What a run has established so far. */
  datatype Result = Result(
    household: int, payoff: Date, months: nat,
    totalInterest: int, totalFees: int, totalPaid: int, nextMonthOwed: int,
    firstClear: Option<nat>, firstClearOn: Date, firstFreed: int,
    timeline: seq<MonthState>, peakRequired: int, finalRequired: int,
    prepayments: nat, timingCredited: bool)

  const NO_RESULT: Result := Result(0, UNSET, 0, 0, 0, 0, 0, None, UNSET, 0, [], 0, 0, 0, false)

  datatype Event = PeriodEvent | LumpEvent(index: nat) | IncomeEvent | RouteEvent | DueEvent(loan: nat)

  /** The whole state of a run, and the projections it remembers. */
  datatype Snap = Snap(
    loans: seq<LoanState>, cash: int, budget: int, buckets: seq<CashBucket>, hasRouting: bool, lumps: seq<CashEvent>,
    res: Result, month: MonthState, cycle: nat, cycleIncome: Date, nextIncome: Date, incomeYM: int, inflow: int,
    nextPeriod: Date, periodStart: Date, periodLeft: int, periodSpent: int,
    carryRule: CarryRule, carryMinimum: int, carryUntil: Date, err: Option<Failure>,
    memo: ProjectionMemo.Memo)

  /** What a run is given: the input, and the policy in its canonical form. */
  datatype World = World(input: Input, policy: Policy)

  /** A state of a run over the world's loans. */
  predicate Over(w: World, s: Snap) {
    |s.loans| == |w.input.loans|
  }

  /** A day events can happen on. */
  predicate IsDay(on: Date) {
    IsSet(on) && YearMonth(on) > 12
  }

  // ---------- One loan, wherever it stands ----------

  function AccruedTo(p: Position, l: LoanState, on: Date): LoanState
    requires IsSet(on)
  {
    if IsSet(l.from) then Accrued(p, l, on) else l
  }

  function BookedOn(p: Position, l: LoanState, on: Date): LoanState
    requires IsSet(on)
  {
    if l.closed || l.balance <= 0 then l else AccruedTo(p, l, on)
  }

  function QuoteOf(p: Position, l: LoanState, on: Date, available: int): Fees.Result<Quote> {
    if l.balance < 0 || available < 0 then Fees.Ok(NOTHING)
    else QuoteFor(p.contract, on, l.balance, l.accrued, AllowanceUsed(p, l, on), available)
  }

  /** What a due asks for: the obligation, or all that is owed where the calendar has no date left. */
  function AskedToday(c: Contract, l: LoanState, on: Date): nat {
    if l.balance < 0 then 0 else RequiredToday(c, l, on)
  }

  /** The instalment a cleared loan stops requiring. */
  function Freed(l: LoanState): nat {
    if l.carried == 0 then l.required else l.carried
  }

  function Later(d: Date, on: Date): Date {
    if After(on, d) then on else d
  }

  // ---------- Obligations ----------

  /** A fresh obligation for one loan, from what is remembered or projected. */
  function Renewed(w: World, s: Snap, i: nat): (r: Snap)
    requires i < |s.loans| <= |w.input.loans|
    ensures |r.loans| == |s.loans| && SameMoney(s, r)
  {
    var p, l := w.input.loans[i], s.loans[i];
    if !IsSet(l.from) then s
    else
      var (o, memo) := ProjectionMemo.Ask(s.memo, p.contract, TermsOf(l));
      match o
      case Err(why) => s.(err := Some(NoProjection(why)), memo := memo)
      case Ok(due) =>
        if due.payment < 0 || due.instalment < 0 then s.(memo := memo)
        else s.(loans := s.loans[i := Refreshed(l, due)], memo := memo)
  }

  /** Nothing was paid, and nothing charged. */
  predicate SameMoney(s: Snap, r: Snap) {
    && r.res == s.res && r.cash == s.cash && r.budget == s.budget && r.buckets == s.buckets && StaysShut(s.loans, r.loans)
    && (r.memo.Tables? <==> s.memo.Tables?)
  }

  /** A closed loan is never opened again. */
  predicate StaysShut(loans: seq<LoanState>, loans': seq<LoanState>) {
    |loans| <= |loans'| && forall i :: 0 <= i < |loans| && loans[i].closed ==> loans'[i].closed
  }

  /** Interest and fees are only ever added, closed loans stay closed, and a run keeps remembering or not. */
  predicate Onward(s: Snap, r: Snap) {
    && r.res.totalInterest >= s.res.totalInterest && r.res.totalFees >= s.res.totalFees && StaysShut(s.loans, r.loans)
    && (r.memo.Tables? <==> s.memo.Tables?)
  }

  // ---------- Cycles ----------

  function Opened(s: Snap, on: Date): Snap {
    s.(cycle := s.cycle + 1, cycleIncome := on, month := EMPTY_MONTH.(on := on))
  }

  /** A run's record with one more cycle in its timeline. */
  function CycleRecorded(r: Result, month: MonthState, cycle: nat, owed: int): (r': Result)
    ensures r'.totalInterest == r.totalInterest && r'.totalFees == r.totalFees
  {
    r.(timeline := r.timeline + [month],
       nextMonthOwed := if cycle == 1 then owed else r.nextMonthOwed,
       peakRequired := if month.required > r.peakRequired then month.required else r.peakRequired,
       finalRequired := if month.required > 0 then month.required else r.finalRequired)
  }

  function ClosedCycle(s: Snap): Snap {
    var owed := OpenBalance(s.loans);
    var month := s.month.(owed := owed, cash := s.cash + Restricted(s.buckets));
    s.(month := month, res := CycleRecorded(s.res, month, s.cycle, owed))
  }

  function Turned(s: Snap, on: Date): Snap {
    Opened(ClosedCycle(s), on)
  }

  function WithCycle(s: Snap, on: Date): Snap {
    if s.cycle == 0 then Opened(s, on) else s
  }

  // ---------- Paying ----------

  /** Actual outflow counts against the period's permission, where there is one. */
  function Counted(w: World, outflow: int): int {
    if w.input.Separate() then outflow else 0
  }

  /** The budget once a loan is cleared: under a kept rollover it falls by the instalment, but not below zero. */
  function BudgetAfter(w: World, budget: int, freed: nat): (b: int)
    ensures budget >= 0 ==> 0 <= b <= budget
    ensures w.policy.rollover == RollFreed ==> b == budget
  {
    if w.policy.rollover == KeepFreed && (!w.input.Separate() || !w.input.cash.spending.value.confirmedReleaseOnly) then
      (if budget - freed < 0 then 0 else budget - freed)
    else budget
  }

  /** A run's record once loan `i` closed: the first to clear, the last pay-off date, the month everything is clear. */
  function Cleared(r: Result, i: nat, on: Date, freed: nat, loans: seq<LoanState>, cycle: nat): (r': Result)
    ensures r'.totalPaid == r.totalPaid && r'.totalInterest == r.totalInterest && r'.totalFees == r.totalFees
    ensures r'.timeline == r.timeline && r'.household == r.household && r'.prepayments == r.prepayments
    ensures r'.payoff == Later(r.payoff, on)
  {
    r.(firstClear := if r.firstClear.None? then Some(i) else r.firstClear,
       firstClearOn := if r.firstClear.None? then on else r.firstClearOn,
       firstFreed := if r.firstClear.None? then freed else r.firstFreed,
       payoff := if After(on, r.payoff) then on else r.payoff,
       months := if forall k :: 0 <= k < |loans| ==> loans[k].closed then cycle else r.months)
  }

  /** Whatever closes later, the first loan to clear stays the first; the pay-off date is the latest. */
  lemma TheFirstClearStays(r: Result, i: nat, on: Date, freed: nat, loans: seq<LoanState>, cycle: nat,
                           j: nat, later: Date, freed': nat, loans': seq<LoanState>, cycle': nat)
    requires r.firstClear.None?
    ensures var both := Cleared(Cleared(r, i, on, freed, loans, cycle), j, later, freed', loans', cycle');
            && both.firstClear == Some(i) && both.firstClearOn == on && both.firstFreed == freed
            && !After(r.payoff, both.payoff) && !After(on, both.payoff) && !After(later, both.payoff)
            && (both.payoff == r.payoff || both.payoff == on || both.payoff == later)
            && ((forall k :: 0 <= k < |loans'| ==> loans'[k].closed) ==> both.months == cycle')
  {
    hide DayNumber;
    CompareIsDayOrder(on, later);
    CompareIsDayOrder(r.payoff, on);
    CompareIsDayOrder(r.payoff, later);
  }

  function Shut(w: World, s: Snap, i: nat, on: Date): (r: Snap)
    requires Over(w, s) && i < |s.loans|
    ensures Over(w, r) && Onward(s, r) && |r.buckets| == |s.buckets| && r.err == s.err
  {
    var freed := Freed(s.loans[i]);
    var loans := s.loans[i := Retired(s.loans[i], on)];
    s.(loans := loans, res := Cleared(s.res, i, on, freed, loans, s.cycle), budget := BudgetAfter(w, s.budget, freed))
  }

  /** A loan credited with a quoted principal, within its contract year's allowance; a closing payment settles its interest. */
  function LoanCredited(c: Contract, l: LoanState, on: Date, q: Quote): (r: LoanState)
    ensures r.closed == l.closed
  {
    var year := ContractYear(c, on);
    var used := if year in l.allowance then l.allowance[year] else 0;
    l.(allowance := l.allowance[year := used + q.principal], balance := l.balance - q.principal,
       accrued := if q.closes then 0 else l.accrued)
  }

  /** A credited principal uses up the allowance of its own contract year, and of no other. */
  lemma CreditUsesAllowance(p: Position, l: LoanState, on: Date, q: Quote, d: Date)
    ensures AllowanceUsed(p, LoanCredited(p.contract, l, on, q), d)
            == AllowanceUsed(p, l, d) + if ContractYear(p.contract, d) == ContractYear(p.contract, on) then q.principal else 0
  {
    hide ContractYear;
  }

  function ResultCredited(r: Result, q: Quote, early: bool): (r': Result)
    ensures r'.totalFees == r.totalFees + q.fee && r'.totalPaid == r.totalPaid + q.outflow
    ensures r'.totalInterest == r.totalInterest + InterestIn(q) && r'.timeline == r.timeline && r'.household == r.household
  {
    r.(totalPaid := r.totalPaid + q.outflow, totalFees := r.totalFees + q.fee,
       totalInterest := r.totalInterest + InterestIn(q),
       prepayments := r.prepayments + 1, timingCredited := r.timingCredited || early)
  }

  function MonthCredited(m: MonthState, q: Quote): MonthState {
    m.(fees := m.fees + q.fee, extra := m.extra + (q.outflow - q.fee), interest := m.interest + InterestIn(q))
  }

  function InterestIn(q: Quote): nat {
    if q.closes then q.interest else 0
  }

  /** What an optional payment takes and credits, before the loan it may close is retired. */
  function Credited(w: World, s: Snap, i: nat, on: Date, q: Quote, early: bool): (r: Snap)
    requires Over(w, s) && i < |s.loans|
    ensures Over(w, r) && Onward(s, r) && |r.buckets| == |s.buckets| && r.err == s.err
  {
    hide LoanCredited, MonthCredited, ResultCredited;
    s.(
      periodSpent := s.periodSpent + Counted(w, q.outflow), periodLeft := s.periodLeft - Counted(w, q.outflow),
      cash := s.cash - q.outflow,
      res := ResultCredited(s.res, q, early),
      month := MonthCredited(s.month, q),
      loans := s.loans[i := LoanCredited(w.input.loans[i].contract, s.loans[i], on, q)])
  }

  /** A quoted optional payment. */
  function Prepaying(w: World, s: Snap, i: nat, on: Date, q: Quote, early: bool): (r: Snap)
    requires Over(w, s) && i < |s.loans|
    ensures Over(w, r) && Onward(s, r) && |r.buckets| == |s.buckets| && r.err == s.err
  {
    hide Credited, Shut;
    var credited := Credited(w, s, i, on, q, early);
    if q.closes then Shut(w, credited, i, on) else credited
  }

  // ---------- What optional payments may use ----------

  function SpareIn(w: World, s: Snap): int {
    s.cash - w.input.cash.reserveFloor - Reservations(s.loans, s.nextIncome, s.incomeYM)
  }

  function PermissionIn(w: World, s: Snap, on: Date): int
    requires w.input.Separate() && IsDay(on)
  {
    s.periodLeft - Claims(s.loans, on, PeriodEnd(w.input.cash.spending.value.cycleDay, on))
  }

  function SurplusIn(w: World, s: Snap, on: Date): int
    requires IsDay(on)
  {
    if w.input.Separate() && s.carryRule == CarryToDate && Before(on, s.carryUntil) then 0
    else if w.input.Separate() && PermissionIn(w, s, on) < SpareIn(w, s) then PermissionIn(w, s, on)
    else SpareIn(w, s)
  }

  /** The lender's answer for one loan; asking books interest up to the day. */
  function Quoted(w: World, s: Snap, i: nat, on: Date, available: int): (r: (Snap, Quote))
    requires Over(w, s) && i < |s.loans| && IsSet(on)
    ensures Over(w, r.0) && SameMoney(s, r.0)
  {
    var p := w.input.loans[i];
    var l := AccruedTo(p, s.loans[i], on);
    var asked := s.(loans := s.loans[i := l]);
    match QuoteOf(p, l, on, available)
    case Err(e) => (asked.(err := Some(NoQuote(e))), NOTHING)
    case Ok(q) => (asked, q)
  }

  /** Batching: a partial payment below the policy's or the period's minimum is held back. */
  predicate HeldBack(w: World, s: Snap, q: Quote) {
    !q.closes &&
    ((w.input.Separate() && s.carryRule == BatchUntil && q.principal < s.carryMinimum)
     || (w.policy.minPrepay > 0 && q.principal < w.policy.minPrepay))
  }

  // ---------- Routed cash ----------

  function LoanNamed(loans: seq<Position>, id: string, k: nat): (i: int)
    requires k <= |loans|
    ensures -1 <= i < |loans|
    ensures i >= 0 ==> loans[i].id == id && forall j :: k <= j < i ==> loans[j].id != id
    ensures i < 0 ==> forall j :: k <= j < |loans| ==> loans[j].id != id
    decreases |loans| - k
  {
    if k == |loans| then -1 else if loans[k].id == id then k else LoanNamed(loans, id, k + 1)
  }

  /** Money moved from one bucket into the pool. */
  function Moved(s: Snap, k: nat, amount: nat): (r: Snap)
    requires k < |s.buckets| && amount <= s.buckets[k].remaining
    ensures r.loans == s.loans && r.res == s.res && r.memo == s.memo && |r.buckets| == |s.buckets|
  {
    s.(buckets := s.buckets[k := s.buckets[k].(remaining := s.buckets[k].remaining - amount)], cash := s.cash + amount)
  }

  /** Spends a quoted outflow from one bucket on its loan. */
  function BucketSpent(w: World, s: Snap, k: nat, i: nat, on: Date, dueLoan: int, q: Quote, early: bool): (r: Snap)
    requires Over(w, s) && i < |s.loans| && k < |s.buckets|
    ensures Over(w, r) && Onward(s, r) && |r.buckets| == |s.buckets|
  {
    if q.outflow > s.buckets[k].remaining then s
    else
      var paid := Prepaying(w, Moved(s, k, q.outflow), i, on, q, early);
      if i == dueLoan && !paid.loans[i].closed then Renewed(w, paid, i) else paid
  }

  /** Asks a loan for a quote on a bucket's behalf and spends it. */
  function RoutedTo(w: World, s: Snap, k: nat, i: nat, on: Date, dueLoan: int): (r: Snap)
    requires Over(w, s) && i < |s.loans| && k < |s.buckets| && IsDay(on)
    ensures Over(w, r) && Onward(s, r) && |r.buckets| == |s.buckets|
  {
    var l, b := s.loans[i], s.buckets[k];
    var early := i != dueLoan && l.timing == OnReceipt && Before(on, l.due);
    if !early && i != dueLoan && Before(on, l.due) then s
    else
      var surplus := SurplusIn(w, s.(cash := s.cash + b.remaining), on);
      var available := if surplus > b.remaining then b.remaining else surplus;
      if available <= 0 then s
      else
        var (asked, q) := Quoted(w, s, i, on, available);
        if asked.err.Some? || q.outflow <= 0 || HeldBack(w, asked, q) then asked
        else BucketSpent(w, asked, k, i, on, dueLoan, q, early)
  }

  /** Reconsiders one bucket. */
  function RoutedOne(w: World, s: Snap, k: nat, on: Date, dueLoan: int): (r: Snap)
    requires Over(w, s) && k < |s.buckets| && IsDay(on)
    ensures Over(w, r) && Onward(s, r) && |r.buckets| == |s.buckets|
  {
    var b := Reconsidered(s.buckets[k], on);
    var kept := s.(buckets := s.buckets[k := b]);
    if !Spendable(b, on) then kept
    else if b.target == "" then kept.(cash := s.cash + b.remaining, buckets := s.buckets[k := b.(remaining := 0)])
    else if w.policy.requiredOnly then kept
    else
      var i := LoanNamed(w.input.loans, b.target, 0);
      if i < 0 || s.loans[i].closed then kept else RoutedTo(w, kept, k, i, on, dueLoan)
  }

  /** Reconsiders the buckets from one on; an error leaves the rest untouched. */
  function RoutedFrom(w: World, s: Snap, k: nat, on: Date, dueLoan: int): (r: Snap)
    requires Over(w, s) && k <= |s.buckets| && IsDay(on)
    ensures Over(w, r) && Onward(s, r)
    decreases |s.buckets| - k
  {
    if k == |s.buckets| then s
    else
      var one := RoutedOne(w, s, k, on, dueLoan);
      if one.err.Some? then one else RoutedFrom(w, one, k + 1, on, dueLoan)
  }

  function Routed(w: World, s: Snap, on: Date, dueLoan: int): (r: Snap)
    requires Over(w, s) && IsDay(on)
    ensures Over(w, r) && Onward(s, r)
  {
    RoutedFrom(w, s, 0, on, dueLoan)
  }

  // ---------- Free cash ----------

  predicate EarlyCredit(w: World, i: nat, l: LoanState, on: Date)
    requires i < |w.input.loans|
  {
    l.timing == OnReceipt && w.input.loans[i].excess == ReducePrincipal && Before(on, l.due)
  }

  /** Offers a surplus to one loan, and what is left of it. */
  function Offered(w: World, s: Snap, i: nat, on: Date, surplus: int): (r: (Snap, int))
    requires Over(w, s) && i < |s.loans| && IsDay(on)
    ensures Over(w, r.0) && Onward(s, r.0)
  {
    var (asked, q) := Quoted(w, s, i, on, surplus);
    if asked.err.Some? || q.outflow <= 0 || HeldBack(w, asked, q) then (asked, surplus)
    else if EarlyCredit(w, i, asked.loans[i], on) then (Prepaying(w, asked, i, on, q, true), surplus - q.outflow)
    else
      (asked.(loans := asked.loans[i := asked.loans[i].(pending := asked.loans[i].pending + q.outflow)]), surplus - q.outflow)
  }

  /** Spends the surplus down the priority order from one place on. */
  function OfferedFrom(w: World, s: Snap, on: Date, surplus: int, k: nat): (r: Snap)
    requires Over(w, s) && IsDay(on) && k <= |w.policy.order|
    ensures Over(w, r) && Onward(s, r)
    decreases |w.policy.order| - k
  {
    if k == |w.policy.order| then s
    else
      var i := w.policy.order[k];
      if 0 <= i < |s.loans| && !s.loans[i].closed && !w.input.loans[i].optionalExcluded && surplus > 0 then
        var (one, left) := Offered(w, s, i, on, surplus);
        if one.err.Some? then one else OfferedFrom(w, one, on, left, k + 1)
      else OfferedFrom(w, s, on, surplus, k + 1)
  }

  function Allocated(w: World, s: Snap, on: Date): (r: Snap)
    requires Over(w, s) && IsDay(on)
    ensures Over(w, r) && Onward(s, r)
  {
    var routed := Routed(w, s, on, -1);
    if routed.err.Some? || w.policy.requiredOnly then routed
    else
      var surplus := SurplusIn(w, routed, on);
      if surplus <= 0 then routed else OfferedFrom(w, routed, on, surplus, 0)
  }

  // ---------- Receipts ----------

  /** One part of a receipt in the bucket it matches, from one on, or in a bucket of its own. */
  function PartIn(buckets: seq<CashBucket>, part: CashSplit, r: CashRouting, on: Date, k: nat): seq<CashBucket>
    requires part.amount > 0 && k <= |buckets|
    decreases |buckets| - k
  {
    if k == |buckets| then buckets + [CashBucket(part.loanId, part.amount, r.holdUntil, r.holdMinimum, false, on)]
    else if Merges(buckets[k], part.loanId, r.holdUntil, r.holdMinimum) then
      buckets[k := buckets[k].(remaining := buckets[k].remaining + part.amount)]
    else PartIn(buckets, part, r, on, k + 1)
  }

  function PartsIn(buckets: seq<CashBucket>, parts: seq<CashSplit>, r: CashRouting, on: Date): seq<CashBucket>
    decreases |parts|
  {
    if parts == [] then buckets
    else if parts[0].amount <= 0 then PartsIn(buckets, parts[1..], r, on)
    else PartsIn(PartIn(buckets, parts[0], r, on, 0), parts[1..], r, on)
  }

  /** Money kept apart for one destination until the same gates open. */
  function HeldFor(buckets: seq<CashBucket>, target: string, until: Date, minimum: int): nat {
    if buckets == [] then 0
    else
      var b := buckets[|buckets| - 1];
      HeldFor(buckets[..|buckets| - 1], target, until, minimum)
      + if !b.released && b.target == target && b.until == until && b.minimum == minimum then b.remaining else 0
  }

  function SplitFor(parts: seq<CashSplit>, target: string): nat {
    if parts == [] then 0
    else (if parts[0].loanId == target && parts[0].amount > 0 then parts[0].amount else 0) + SplitFor(parts[1..], target)
  }

  lemma {:induction false} HeldForUpdate(buckets: seq<CashBucket>, k: nat, more: nat, target: string, until: Date, minimum: int)
    requires k < |buckets|
    ensures var b := buckets[k];
            HeldFor(buckets[k := b.(remaining := b.remaining + more)], target, until, minimum)
            == HeldFor(buckets, target, until, minimum)
               + if !b.released && b.target == target && b.until == until && b.minimum == minimum then more else 0
  {
    var n, b := |buckets| - 1, buckets[k];
    var grown := buckets[k := b.(remaining := b.remaining + more)];
    if k < n {
      assert grown[..n] == buckets[..n][k := b.(remaining := b.remaining + more)];
      HeldForUpdate(buckets[..n], k, more, target, until, minimum);
    } else {
      assert grown[..n] == buckets[..n];
    }
  }

  lemma {:induction false} PartKeepsApart(buckets: seq<CashBucket>, part: CashSplit, r: CashRouting, on: Date, k: nat,
                                          target: string, until: Date, minimum: int)
    requires part.amount > 0 && k <= |buckets|
    ensures HeldFor(PartIn(buckets, part, r, on, k), target, until, minimum)
            == HeldFor(buckets, target, until, minimum)
               + if part.loanId == target && r.holdUntil == until && r.holdMinimum == minimum then part.amount else 0
    decreases |buckets| - k
  {
    if k == |buckets| {
      var more := buckets + [CashBucket(part.loanId, part.amount, r.holdUntil, r.holdMinimum, false, on)];
      assert more[..|buckets|] == buckets;
    } else if Merges(buckets[k], part.loanId, r.holdUntil, r.holdMinimum) {
      HeldForUpdate(buckets, k, part.amount, target, until, minimum);
    } else {
      PartKeepsApart(buckets, part, r, on, k + 1, target, until, minimum);
    }
  }

  /** Routed money is kept for the destination and the gates it came with: no other destination gains or loses any. */
  lemma {:induction false} PartsKeepApart(buckets: seq<CashBucket>, parts: seq<CashSplit>, r: CashRouting, on: Date,
                                          target: string, until: Date, minimum: int)
    ensures HeldFor(PartsIn(buckets, parts, r, on), target, until, minimum)
            == HeldFor(buckets, target, until, minimum)
               + if r.holdUntil == until && r.holdMinimum == minimum then SplitFor(parts, target) else 0
    decreases |parts|
  {
    if parts != [] {
      if parts[0].amount > 0 {
        PartKeepsApart(buckets, parts[0], r, on, 0, target, until, minimum);
        PartsKeepApart(PartIn(buckets, parts[0], r, on, 0), parts[1..], r, on, target, until, minimum);
      } else {
        PartsKeepApart(buckets, parts[1..], r, on, target, until, minimum);
      }
    }
  }

  function RoutedIn(buckets: seq<CashBucket>, e: CashEvent): seq<CashBucket>
    requires e.routing.Some?
  {
    SortBuckets(PartsIn(buckets, Parts(e), e.routing.value, e.on))
  }

  /** One receipt, to the pool or to its buckets. */
  function ReceivedOne(s: Snap, e: CashEvent): (r: Snap)
    ensures r.loans == s.loans && r.res == s.res && r.memo == s.memo
  {
    if e.routing.None? then s.(inflow := s.inflow + e.amount, cash := s.cash + e.amount)
    else s.(inflow := s.inflow + e.amount, buckets := RoutedIn(s.buckets, e))
  }

  /** Takes in every receipt of a day, from one on; the others wait. */
  function ReceivedFrom(s: Snap, all: seq<CashEvent>, on: Date, k: nat, remaining: seq<CashEvent>): (r: Snap)
    requires k <= |all|
    ensures r.loans == s.loans && r.res == s.res && r.memo == s.memo
    decreases |all| - k
  {
    if k == |all| then s.(lumps := remaining)
    else
      var e := all[k];
      if e.on != on then ReceivedFrom(s, all, on, k + 1, remaining + [e])
      else ReceivedFrom(ReceivedOne(s, e), all, on, k + 1, remaining)
  }

  /** One receipt pooled, or the whole day's receipts where any is routed. */
  function LumpReceived(s: Snap, k: nat, on: Date): (r: Snap)
    requires k < |s.lumps|
    ensures |r.loans| == |s.loans| && Onward(s, r)
  {
    var begun := WithCycle(s, on);
    if s.hasRouting then ReceivedFrom(begun, s.lumps, on, 0, [])
    else
      var amount := s.lumps[k].amount;
      begun.(lumps := s.lumps[..k] + s.lumps[k + 1..], cash := s.cash + amount, inflow := s.inflow + amount)
  }

  function LumpTaken(w: World, s: Snap, k: nat, on: Date): (r: Snap)
    requires Over(w, s) && k < |s.lumps| && IsDay(on)
    ensures Over(w, r) && Onward(s, r)
  {
    Allocated(w, LumpReceived(s, k, on), on)
  }

  // ---------- Income ----------

  function CreditIn(w: World, s: Snap, on: Date): int {
    var key := YearMonth(on);
    if key in w.input.cash.monthlyOverrides then w.input.cash.monthlyOverrides[key]
    else if w.input.Separate() then w.input.cash.monthly
    else s.budget
  }

  function NextPayDay(w: World, on: Date): Date
    requires IsSet(on)
  {
    if w.input.cash.payDay == 0 then UNSET else OnDayOfMonth(AddMonths(on, 1), w.input.cash.payDay)
  }

  /** An income opens its cycle, unless one is open for the day or cycles follow permission periods. */
  function CycleBegun(w: World, s: Snap, on: Date): (r: Snap)
    ensures |r.loans| == |s.loans| && Onward(s, r) && r.err == s.err
  {
    if s.cycle == 0 then Opened(s, on) else if !w.input.Separate() && s.cycleIncome != on then Turned(s, on) else s
  }

  /** Income before it is allocated. */
  function IncomeTaken(w: World, s: Snap, on: Date): (r: Snap)
    requires IsSet(on)
    ensures |r.loans| == |s.loans| && Onward(s, r) && r.err == s.err
  {
    var credit := CreditIn(w, s, on);
    CycleBegun(w, s, on).(cash := s.cash + credit, inflow := s.inflow + credit, nextIncome := NextPayDay(w, on), incomeYM := YearMonth(on))
  }

  function Earned(w: World, s: Snap, on: Date): (r: Snap)
    requires Over(w, s) && IsDay(on)
    ensures Over(w, r) && Onward(s, r)
  {
    Allocated(w, IncomeTaken(w, s, on), on)
  }

  // ---------- Dues ----------

  function InterestBooked(w: World, s: Snap, i: nat, on: Date): (r: Snap)
    requires Over(w, s) && i < |s.loans| && IsSet(on)
    ensures Over(w, r) && SameMoney(s, r) && r == s.(loans := r.loans)
  {
    s.(loans := s.loans[i := BookedOn(w.input.loans[i], s.loans[i], on)])
  }

  /** What a due payment takes and credits, interest first. */
  function DueCredited(w: World, s: Snap, i: nat, required: nat): (r: Snap)
    requires Over(w, s) && i < |s.loans|
    ensures Over(w, r) && Onward(s, r) && r.err == s.err
  {
    var l := s.loans[i];
    s.(
      periodSpent := s.periodSpent + Counted(w, required), periodLeft := s.periodLeft - Counted(w, required),
      cash := s.cash - required,
      loans := s.loans[i := l.(balance := l.balance - (required - l.accrued), accrued := 0)],
      res := s.res.(totalInterest := s.res.totalInterest + l.accrued, totalPaid := s.res.totalPaid + required),
      month := s.month.(interest := s.month.interest + l.accrued, required := s.month.required + required))
  }

  /** Takes a due payment out of permission and cash, and closes a loan with nothing left. */
  function DueTaken(w: World, s: Snap, i: nat, on: Date, required: nat): (r: Snap)
    requires Over(w, s) && i < |s.loans|
    ensures Over(w, r) && Onward(s, r) && r.err == s.err
  {
    hide DueCredited, Shut;
    var paid := DueCredited(w, s, i, required);
    if paid.loans[i].balance <= 0 then Shut(w, paid, i, on) else paid
  }

  /** Pays a due from the pool, or fails naming the exact shortfall of permission or of cash. */
  function DueMet(w: World, s: Snap, i: nat, on: Date): (r: Snap)
    requires Over(w, s) && i < |s.loans| && IsSet(on)
    ensures Over(w, r) && Onward(s, r)
  {
    var booked := InterestBooked(w, s, i, on);
    var (calendar, memo) := ProjectionMemo.Resolve(s.memo, w.input.loans[i].contract);
    match calendar
    case Err(why) => booked.(err := Some(NoProjection(why)), memo := memo)
    case Ok(c) =>
      var required := AskedToday(c, booked.loans[i], on);
      DuePaid(w, booked.(memo := memo), i, on, required)
  }

  /** A due whose amount is known: permission is tried before cash. */
  function DuePaid(w: World, s: Snap, i: nat, on: Date, required: nat): (r: Snap)
    requires Over(w, s) && i < |s.loans| && IsSet(on)
    ensures Over(w, r) && Onward(s, r)
  {
    if w.input.Separate() && s.periodLeft < required then s.(err := Some(OverLimit(on, required - s.periodLeft)))
    else if s.cash < required then s.(err := Some(ShortOfCash(on, i, required - s.cash)))
    else DueTaken(w, s, i, on, required)
  }

  /** Pays up to an amount on a loan whose due is being settled. */
  function PaidTowards(w: World, s: Snap, i: nat, on: Date, want: int): (r: Snap)
    requires Over(w, s) && i < |s.loans| && IsDay(on)
    ensures Over(w, r) && Onward(s, r)
  {
    var (asked, q) := Quoted(w, s, i, on, want);
    if asked.err.Some? || q.outflow <= 0 then asked else Prepaying(w, asked, i, on, q, false)
  }

  /** What was promised to a due date is taken back. */
  function Lapsed(s: Snap, i: nat): (r: Snap)
    requires i < |s.loans|
    ensures |r.loans| == |s.loans| && r.res == s.res && r.memo == s.memo && StaysShut(s.loans, r.loans)
  {
    s.(loans := s.loans[i := s.loans[i].(pending := 0)])
  }

  /** Pays what was promised to a due date; whether settling stops there. */
  function HeldPaid(w: World, s: Snap, i: nat, on: Date): (r: (Snap, bool))
    requires Over(w, s) && i < |s.loans| && IsDay(on)
    ensures Over(w, r.0) && Onward(s, r.0)
  {
    var want := WantedIn(w, s, i, on);
    if s.loans[i].pending <= 0 then (s, false)
    else if want <= 0 then (Lapsed(s, i), true)
    else
      var paid := PaidTowards(w, Lapsed(s, i), i, on, want);
      (paid, paid.err.Some? || paid.loans[i].closed)
  }

  /** What of the money promised to a due date is still available on it. */
  function WantedIn(w: World, s: Snap, i: nat, on: Date): int
    requires i < |s.loans| && IsDay(on)
  {
    var available := if w.input.Separate() then SurplusIn(w, Lapsed(s, i), on) else s.cash;
    if s.loans[i].pending > available then available else s.loans[i].pending
  }

  /** What follows a due payment that left a debt. */
  function RestMet(w: World, s: Snap, i: nat, on: Date): (r: Snap)
    requires Over(w, s) && i < |s.loans| && IsDay(on)
    ensures Over(w, r) && Onward(s, r)
  {
    var renewed := if w.input.Separate() then Renewed(w, s, i) else s;
    if renewed.err.Some? then renewed
    else
      var (held, stop) := HeldPaid(w, renewed, i, on);
      if held.err.Some? || stop then held else Renewed(w, held, i)
  }

  function DueSettled(w: World, s: Snap, i: nat, on: Date): (r: Snap)
    requires Over(w, s) && i < |s.loans| && IsDay(on)
    ensures Over(w, r) && Onward(s, r)
  {
    var met := DueMet(w, s, i, on);
    if met.err.Some? || met.loans[i].closed then met else RestMet(w, met, i, on)
  }

  /** Where there is no pay day, the first due of a month brings the month's income. */
  function DueArrived(w: World, s: Snap, on: Date): (r: Snap)
    requires Over(w, s) && IsDay(on)
    ensures Over(w, r) && Onward(s, r)
  {
    var earned := if w.input.cash.payDay == 0 && YearMonth(on) != s.incomeYM then Earned(w, s, on) else s;
    if earned.err.Some? then earned else WithCycle(earned, on)
  }

  function DuePassed(w: World, s: Snap, i: nat, on: Date): (r: Snap)
    requires Over(w, s) && i < |s.loans| && IsDay(on)
    ensures Over(w, r) && Onward(s, r)
  {
    var arrived := DueArrived(w, s, on);
    if arrived.err.Some? then arrived
    else
      var settled := DueSettled(w, arrived, i, on);
      if settled.err.Some? then settled else Routed(w, settled, on, i)
  }

  // ---------- Permission periods ----------

  function DeclaredIn(w: World, on: Date): int
    requires w.input.Separate() && IsDay(on)
  {
    var p := w.input.cash.spending.value;
    if IsDay(w.input.valuation) && PeriodStart(p.cycleDay, on) == PeriodStart(p.cycleDay, w.input.valuation) && p.spent > 0
    then p.spent else 0
  }

  /** Grants the day's limit. */
  function Granted(w: World, s: Snap, on: Date): (r: Snap)
    requires w.input.Separate() && IsDay(on)
    ensures |r.loans| == |s.loans| && SameMoney(s, r)
  {
    var p := w.input.cash.spending.value;
    var start, limit := PeriodStart(p.cycleDay, on), LimitOn(p, s.budget, on);
    var spent := SpentIn(w, s, on);
    var granted := s.(periodStart := start, periodSpent := spent, periodLeft := limit - spent);
    if limit - spent < 0 then granted.(err := Some(OverLimit(on, spent - limit))) else granted
  }

  /** What the day's period has spent: only a new period starts from what was declared. */
  function SpentIn(w: World, s: Snap, on: Date): int
    requires w.input.Separate() && IsDay(on)
  {
    var start := PeriodStart(w.input.cash.spending.value.cycleDay, on);
    if IsSet(s.periodStart) && s.periodStart == start then s.periodSpent else DeclaredIn(w, on)
  }

  function Released(loans: seq<LoanState>): (r: seq<LoanState>)
    ensures |r| == |loans| && StaysShut(loans, r)
  {
    seq(|loans|, i requires 0 <= i < |loans| => loans[i].(pending := 0))
  }

  /** Where nothing carries over, cash beyond the reserve leaves for the household. */
  function HandedOver(w: World, s: Snap): (r: Snap)
    ensures |r.loans| == |s.loans| && Onward(s, r)
  {
    var transfer := SpareIn(w, s);
    if transfer > 0 then
      s.(cash := s.cash - transfer, res := s.res.(household := s.res.household + transfer),
         month := s.month.(household := transfer))
    else s
  }

  function PeriodTurned(w: World, s: Snap, on: Date): (r: Snap)
    ensures |r.loans| == |s.loans| && Onward(s, r)
  {
    if s.cycle == 0 then Opened(s, on)
    else Turned(if s.carryRule == NoCarry then HandedOver(w, s) else s, on)
  }

  function CarryIn(s: Snap, on: Date, terms: (CarryRule, int, Date)): (r: Snap)
    ensures r.loans == s.loans && r.res == s.res && r.memo == s.memo
  {
    s.(carryRule := terms.0, carryMinimum := terms.1, carryUntil := terms.2,
       nextPeriod := if terms.0 == CarryToDate && After(terms.2, on) && Before(terms.2, s.nextPeriod) then terms.2 else s.nextPeriod)
  }

  /** What a permission event does once its limit is granted, up to allocating. */
  function TermsRenewed(w: World, s: Snap, on: Date, newPeriod: bool, terms: (CarryRule, int, Date)): (r: Snap)
    requires w.input.Separate() && IsDay(on)
    ensures |r.loans| == |s.loans| && Onward(s, r)
  {
    var released := s.(nextPeriod := NextChange(w.input.cash.spending.value, on), loans := Released(s.loans));
    CarryIn(if newPeriod then PeriodTurned(w, released, on) else released, on, terms)
  }

  function Reviewed(w: World, s: Snap, on: Date): (r: Snap)
    requires Over(w, s) && w.input.Separate() && IsDay(on)
    ensures Over(w, r) && Onward(s, r)
  {
    var p := w.input.cash.spending.value;
    var granted := Granted(w, s, on);
    if granted.err.Some? then granted
    else
      Allocated(w, TermsRenewed(w, granted, on, s.periodStart != granted.periodStart, CarryAfter(p, InForce(p.changes, on))), on)
  }

  // ---------- Picking events ----------

  function RankOf(e: Event): nat {
    match e case PeriodEvent => 0 case LumpEvent(_) => 1 case IncomeEvent => 2 case RouteEvent => 3 case DueEvent(_) => 4
  }

  /** The better of the best event so far and another: an earlier date, or an earlier kind on the same date. */
  function Better(best: Option<(Event, Date)>, e: Event, on: Date): Option<(Event, Date)> {
    if best.None? || Before(on, best.value.1) || (on == best.value.1 && RankOf(e) < RankOf(best.value.0)) then Some((e, on))
    else best
  }

  function BestWake(best: Option<(Event, Date)>, buckets: seq<CashBucket>): Option<(Event, Date)> {
    if buckets == [] then best
    else
      var before, b := BestWake(best, buckets[..|buckets| - 1]), buckets[|buckets| - 1];
      if IsSet(b.wake) then Better(before, RouteEvent, b.wake) else before
  }

  function BestLump(best: Option<(Event, Date)>, lumps: seq<CashEvent>): Option<(Event, Date)> {
    if lumps == [] then best
    else Better(BestLump(best, lumps[..|lumps| - 1]), LumpEvent(|lumps| - 1), lumps[|lumps| - 1].on)
  }

  function BestDue(best: Option<(Event, Date)>, loans: seq<LoanState>): Option<(Event, Date)> {
    if loans == [] then best
    else
      var before, l := BestDue(best, loans[..|loans| - 1]), loans[|loans| - 1];
      if !l.closed then Better(before, DueEvent(|loans| - 1), l.due) else before
  }

  /** The event to process next. */
  function Picked(s: Snap): Option<(Event, Date)> {
    var start: Option<(Event, Date)> := None;
    var period := if IsSet(s.nextPeriod) then Better(start, PeriodEvent, s.nextPeriod) else start;
    var income := if IsSet(s.nextIncome) then Better(period, IncomeEvent, s.nextIncome) else period;
    BestDue(BestLump(BestWake(income, s.buckets), s.lumps), s.loans)
  }

  /** What an event does on its day. */
  function Happened(w: World, s: Snap, e: Event, on: Date): (r: Snap)
    requires Over(w, s)
    ensures Over(w, r) && Onward(s, r)
  {
    if !IsDay(on) then s
    else
      match e
      case PeriodEvent => if w.input.Separate() then Reviewed(w, s, on) else s
      case LumpEvent(k) => if k < |s.lumps| then LumpTaken(w, s, k, on) else s
      case IncomeEvent => Earned(w, s, on)
      case RouteEvent => Allocated(w, WithCycle(s, on), on)
      case DueEvent(i) => if i < |s.loans| then DuePassed(w, s, i, on) else s
  }

  // ---------- Paths ----------

  predicate AllShut(s: Snap) {
    forall i :: 0 <= i < |s.loans| ==> s.loans[i].closed
  }

  predicate Ended(s: Snap) {
    s.err.Some? || AllShut(s)
  }

  function Horizon(w: World): Date
    requires IsDay(w.input.valuation)
  {
    AddMonths(w.input.valuation, w.input.Months())
  }

  /** One turn of the event loop. */
  function Next(w: World, s: Snap): (r: Snap)
    requires Over(w, s) && IsDay(w.input.valuation)
    ensures Over(w, r) && Onward(s, r)
  {
    match Picked(s)
    case None => s
    case Some(pick) =>
      if After(pick.1, Horizon(w)) then s.(err := Some(HorizonExceeded)) else Happened(w, s, pick.0, pick.1)
  }

  /** The state after some turns of the event loop, which stops where the run has ended. */
  function Steps(w: World, s: Snap, n: nat): (r: Snap)
    requires Over(w, s) && IsDay(w.input.valuation)
    ensures Over(w, r) && Onward(s, r)
    decreases n
  {
    hide Next, Ended;
    if n == 0 || Ended(s) then s else Steps(w, Next(w, s), n - 1)
  }

  lemma {:induction false} StepsOneMore(w: World, s: Snap, n: nat)
    requires Over(w, s) && IsDay(w.input.valuation)
    ensures var r := Steps(w, s, n); Steps(w, s, n + 1) == if Ended(r) then r else Next(w, r)
    decreases n
  {
    hide Next, Ended;
    if n > 0 && !Ended(s) {
      StepsOneMore(w, Next(w, s), n - 1);
    }
  }

  /** However many turns are taken, a run ends in one state. */
  lemma {:induction false} EndIsUnique(w: World, s: Snap, n: nat, m: nat)
    requires Over(w, s) && IsDay(w.input.valuation) && Ended(Steps(w, s, n)) && Ended(Steps(w, s, m))
    ensures Steps(w, s, n) == Steps(w, s, m)
    decreases n
  {
    hide Next, Ended;
    if n > 0 && m > 0 && !Ended(s) {
      EndIsUnique(w, Next(w, s), n - 1, m - 1);
    }
  }

  // ---------- Cover ----------

  /** Cash covers the floor, the dues of the income window and everything promised to due dates. */
  predicate Covered(w: World, s: Snap) {
    SpareIn(w, s) >= 0
  }

  /** A due asks for no more than its instalment, and leaves no interest behind. */
  predicate AsksIn(w: World, s: Snap, i: nat, on: Date)
    requires i < |s.loans| == |w.input.loans| && IsSet(on)
  {
    var p, l := w.input.loans[i], s.loans[i];
    AskedToday(p.contract, BookedOn(p, l, on), on) <= l.required && (l.balance > 0 || l.accrued <= l.required)
  }

  /** A due that was counted in this income's window asks for no more than was counted, and its next date is counted later. */
  predicate FitsIn(w: World, s: Snap, i: nat, on: Date)
    requires i < |s.loans| == |w.input.loans| && IsSet(on)
  {
    var p, l := w.input.loans[i], s.loans[i];
    var ahead := Amortisation.DatesAhead(p.contract, on);
    && (w.input.cash.payDay != 0 || YearMonth(on) == s.incomeYM)
    && InWindow(l, s.nextIncome, s.incomeYM)
    && AsksIn(w, s, i, on)
    && (ahead.Ok? ==> !InWindow(l.(due := ahead.value[0]), s.nextIncome, s.incomeYM))
  }

  predicate BringsIncome(w: World, s: Snap, e: Event, on: Date) {
    e.IncomeEvent? || (e.DueEvent? && w.input.cash.payDay == 0 && YearMonth(on) != s.incomeYM)
  }

  /** Whether the dues since the last income are covered by it, once an event has happened. */
  predicate CoverAfter(w: World, s: Snap, cover: bool, e: Event, on: Date)
    requires Over(w, s)
  {
    var r := Happened(w, s, e, on);
    if BringsIncome(w, s, e, on) && r.err.None? then Covered(w, r)
    else if e.DueEvent? then cover && e.loan < |s.loans| && IsSet(on) && FitsIn(w, s, e.loan, on)
    else cover
  }

  predicate CoverNext(w: World, s: Snap, cover: bool)
    requires Over(w, s) && IsDay(w.input.valuation)
  {
    match Picked(s)
    case None => cover
    case Some(pick) => if After(pick.1, Horizon(w)) then cover else CoverAfter(w, s, cover, pick.0, pick.1)
  }

  /** Cover along a run: every income decides it anew, and a due that does not fit its window ends it. */
  predicate Cover(w: World, s: Snap, n: nat)
    requires Over(w, s) && IsDay(w.input.valuation)
  {
    if n == 0 then Covered(w, s)
    else if Ended(Steps(w, s, n - 1)) then Cover(w, s, n - 1)
    else CoverNext(w, Steps(w, s, n - 1), Cover(w, s, n - 1))
  }

  /** Days under which no loan has two dues in one income window. */
  predicate OneDueAWindow(in_: Input) {
    forall i :: 0 <= i < |in_.loans| ==> !(28 <= Amortisation.ContractDay(in_.loans[i].contract) < in_.cash.payDay)
  }

  /** Cover where days keep dues in windows of their own: a due ends it only by what it asks for, or by lying before the valuation. */
  predicate KeptAfter(w: World, s: Snap, kept: bool, e: Event, on: Date)
    requires Over(w, s)
  {
    var r := Happened(w, s, e, on);
    if BringsIncome(w, s, e, on) && r.err.None? then Covered(w, r)
    else if e.DueEvent? then
      && kept && e.loan < |s.loans| && IsSet(on) && !Before(on, w.input.valuation)
      && (w.input.cash.payDay != 0 || YearMonth(on) == s.incomeYM) && AsksIn(w, s, e.loan, on)
    else kept
  }

  predicate KeptNext(w: World, s: Snap, kept: bool)
    requires Over(w, s) && IsDay(w.input.valuation)
  {
    match Picked(s)
    case None => kept
    case Some(pick) => if After(pick.1, Horizon(w)) then kept else KeptAfter(w, s, kept, pick.0, pick.1)
  }

  /** Whatever the simpler cover says after a turn, cover says too. */
  ghost predicate KeepingCovers(w: World, s: Snap, cover: bool)
    requires Over(w, s) && IsDay(w.input.valuation)
  {
    forall kept: bool :: (kept ==> cover) && KeptNext(w, s, kept) ==> CoverNext(w, s, cover)
  }

  predicate Kept(w: World, s: Snap, n: nat)
    requires Over(w, s) && IsDay(w.input.valuation)
  {
    if n == 0 then Covered(w, s)
    else if Ended(Steps(w, s, n - 1)) then Kept(w, s, n - 1)
    else KeptNext(w, Steps(w, s, n - 1), Kept(w, s, n - 1))
  }

  // ---------- Starting ----------

  function TimingOf(p: Policy, k: nat): Timing {
    if k < |p.timing| then p.timing[k] else OnDue
  }

  function EffectOf(p: Policy, k: nat): PrepaymentEffect {
    if k < |p.effect| then p.effect[k] else ShortenTerm
  }

  /** The next loan starts from its position, with its first obligation unless nothing is owed. */
  function LoanTaken(w: World, s: Snap): (r: Snap)
    requires |s.loans| < |w.input.loans|
    ensures |r.loans| == |s.loans| + 1 && SameMoney(s, r)
  {
    var k := |s.loans|;
    var p := w.input.loans[k];
    var added := s.(loans := s.loans + [Starting(p, TimingOf(w.policy, k), EffectOf(w.policy, k))]);
    if p.balance > 0 then Renewed(w, added, k) else added
  }

  /** The loans not taken up yet are, in order, up to the first without a projection. */
  function LoansTaken(w: World, s: Snap): (r: Snap)
    requires |s.loans| <= |w.input.loans|
    ensures (r.err.None? ==> Over(w, r)) && SameMoney(s, r)
    decreases |w.input.loans| - |s.loans|
  {
    if s.err.Some? || |s.loans| == |w.input.loans| then s else LoansTaken(w, LoanTaken(w, s))
  }

  /** Retained cash moves into its buckets at once; a confirmed receipt waits; an expected one is ignored. */
  function ReceiptTaken(s: Snap, e: CashEvent): (r: Snap)
    ensures r.loans == s.loans && r.res == s.res && r.err == s.err && r.memo == s.memo
  {
    var seen := s.(hasRouting := s.hasRouting || e.routing.Some?);
    if e.fromOpening then
      seen.(cash := seen.cash - e.amount, buckets := if e.routing.Some? then RoutedIn(seen.buckets, e) else seen.buckets)
    else if !e.expected then seen.(lumps := seen.lumps + [e])
    else seen
  }

  function LumpsTaken(s: Snap, events: seq<CashEvent>): (r: Snap)
    ensures r.loans == s.loans && r.res == s.res && r.err == s.err && r.memo == s.memo
  {
    if events == [] then s else ReceiptTaken(LumpsTaken(s, events[..|events| - 1]), events[|events| - 1])
  }

  function FirstBudget(in_: Input): int {
    if in_.Separate() then in_.cash.spending.value.monthly else in_.cash.monthly
  }

  function FirstPeriod(in_: Input): Date {
    if in_.Separate() then in_.valuation else UNSET
  }

  /** Where there is no pay day, the month whose income the cash statement has already counted. */
  function FirstMonth(in_: Input): int {
    if in_.cash.payDay == 0 && IsSet(in_.cash.cashThrough) then YearMonth(in_.cash.cashThrough) else 0
  }

  /** The first pay day on or after the valuation that the cash statement has not already counted. */
  function FirstIncome(in_: Input): (d: Date)
    requires IsSet(in_.valuation) && YearMonth(in_.valuation) > 12
    ensures IsSet(d) <==> in_.cash.payDay != 0
    ensures IsSet(d) ==> YearMonth(d) > 12 && !Before(d, in_.valuation)
  {
    if in_.cash.payDay == 0 then UNSET
    else
      var d := OnDayOfMonth(in_.valuation, in_.cash.payDay);
      var next := OnDayOfMonth(AddMonths(in_.valuation, 1), in_.cash.payDay);
      LaterMonthIsAfter(in_.valuation, next);
      if Before(d, in_.valuation) || (IsSet(in_.cash.cashThrough) && !After(d, in_.cash.cashThrough)) then next else d
  }

  /** A run before its loans and receipts are taken up. */
  function Blank(w: World, memo: ProjectionMemo.Memo): Snap
    requires IsDay(w.input.valuation)
  {
    Snap([], w.input.cash.openingCash, FirstBudget(w.input), [], false, [], NO_RESULT, EMPTY_MONTH, 0, UNSET,
         FirstIncome(w.input), FirstMonth(w.input), 0, FirstPeriod(w.input), UNSET, 0, 0, Unstated, 0, UNSET, None, memo)
  }

  /** A blank run takes up its loans and its receipts. */
  function Taken(w: World, s: Snap): (r: Snap)
    requires |s.loans| <= |w.input.loans|
    ensures (r.err.None? ==> Over(w, r)) && r.res == s.res && (r.memo.Tables? <==> s.memo.Tables?)
  {
    var taken := LoansTaken(w, s);
    if taken.err.Some? then taken else LumpsTaken(taken, w.input.cash.lumps)
  }

  /** The state a run starts from. */
  function Started(w: World, memo: ProjectionMemo.Memo): (r: Snap)
    requires IsDay(w.input.valuation)
    ensures (r.err.None? ==> Over(w, r)) && r.res == NO_RESULT && (r.memo.Tables? <==> memo.Tables?)
  {
    Taken(w, Blank(w, memo))
  }

  /** Two states between which only loans and receipts were taken up. */
  predicate SameClock(s: Snap, r: Snap) {
    r.budget == s.budget && r.nextIncome == s.nextIncome && r.nextPeriod == s.nextPeriod && r.incomeYM == s.incomeYM
  }

  lemma {:induction false} LoansKeepTheClock(w: World, s: Snap)
    requires |s.loans| <= |w.input.loans|
    ensures SameClock(s, LoansTaken(w, s))
    decreases |w.input.loans| - |s.loans|
  {
    hide LoanTaken;
    if s.err.None? && |s.loans| < |w.input.loans| {
      LoanKeepsTheClock(w, s);
      LoansKeepTheClock(w, LoanTaken(w, s));
    }
  }

  lemma LoanKeepsTheClock(w: World, s: Snap)
    requires |s.loans| < |w.input.loans|
    ensures SameClock(s, LoanTaken(w, s))
  {
    hide Renewed;
    var added := s.(loans := s.loans + [Starting(w.input.loans[|s.loans|], TimingOf(w.policy, |s.loans|), EffectOf(w.policy, |s.loans|))]);
    RenewingKeepsTheClock(w, added, |s.loans|);
  }

  lemma RenewingKeepsTheClock(w: World, s: Snap, i: nat)
    requires i < |s.loans| <= |w.input.loans|
    ensures SameClock(s, Renewed(w, s, i))
  {
    hide ProjectionMemo.Ask, Refreshed, SameMoney, StaysShut, TermsOf;
  }

  lemma {:induction false} LumpsKeepTheClock(s: Snap, events: seq<CashEvent>)
    ensures SameClock(s, LumpsTaken(s, events))
  {
    hide RoutedIn;
    if events != [] {
      LumpsKeepTheClock(s, events[..|events| - 1]);
    }
  }

  /**
   A run starts with the declared budget and, where permission is separate, a review on the
   valuation day. Its first income is the first pay day that is neither before the valuation nor
   counted in the cash already.
   */
  lemma RunsStartOnTime(w: World, memo: ProjectionMemo.Memo)
    requires Accepted(w.input)
    ensures var in_, start := w.input, Started(w, memo);
            && start.budget == (if in_.Separate() then in_.cash.spending.value.monthly else in_.cash.monthly)
            && start.nextPeriod == (if in_.Separate() then in_.valuation else UNSET)
            && (IsSet(start.nextIncome) <==> in_.cash.payDay > 0)
            && (in_.cash.payDay > 0 ==>
                  var first, month := start.nextIncome, YearMonth(in_.valuation);
                  && first == OnDayOfMonth(first, in_.cash.payDay)
                  && !Before(first, in_.valuation) && After(first, in_.cash.cashThrough)
                  && (YearMonth(first) == month
                      || (YearMonth(first) == month + 1
                          && (Before(OnDayOfMonth(in_.valuation, in_.cash.payDay), in_.valuation)
                              || !After(OnDayOfMonth(in_.valuation, in_.cash.payDay), in_.cash.cashThrough)))))
  {
    hide LoansTaken, LumpsTaken, DayNumber, Clamp, RoutingValid, SpendingValid;
    var blank := Blank(w, memo);
    LoansKeepTheClock(w, blank);
    LumpsKeepTheClock(LoansTaken(w, blank), w.input.cash.lumps);
    var next := OnDayOfMonth(AddMonths(w.input.valuation, 1), w.input.cash.payDay);
    LaterMonthIsAfter(w.input.valuation, next);
    CompareIsDayOrder(w.input.cash.cashThrough, w.input.valuation);
    CompareIsDayOrder(next, w.input.cash.cashThrough);
    CompareIsDayOrder(w.input.valuation, UNSET);
  }

  /** The open cycle is closed into the timeline. */
  function Completed(s: Snap): (r: Snap)
    ensures Onward(s, r)
  {
    var closed := if s.cycle > 0 then ClosedCycle(s) else s;
    if closed.res.months == 0 then closed.(res := closed.res.(months := s.cycle)) else closed
  }

  // ---------- Whole runs ----------

  datatype Outcome = Finished(result: Result) | Failed(why: Failure)

  function OutcomeOf(s: Snap): Outcome {
    match s.err case Some(why) => Failed(why) case None => Finished(Completed(s).res)
  }

  function WorldOf(in_: Input, policy: Policy): World {
    World(in_, Canonical(in_, policy))
  }

  ghost predicate Stops(w: World, s: Snap)
    requires Over(w, s) && IsDay(w.input.valuation)
  {
    exists n: nat :: Ended(Steps(w, s, n))
  }

  /** The state a run ends in. */
  ghost function StopOf(w: World, s: Snap): (r: Snap)
    requires Over(w, s) && IsDay(w.input.valuation) && Stops(w, s)
    ensures Ended(r) && Onward(s, r)
  {
    var n: nat :| Ended(Steps(w, s, n));
    Steps(w, s, n)
  }

  /**
   What a run with a memo answers, and the memo it leaves. A run that never ended would have no
   outcome; `Simulator.Run` shows that there is none.
   */
  ghost function RunOf(in_: Input, policy: Policy, memo: ProjectionMemo.Memo): (Outcome, ProjectionMemo.Memo) {
    if !Accepted(in_) || !Covers(policy, |in_.loans|) then (Failed(Refused), memo)
    else
      var w := WorldOf(in_, policy);
      var start := Started(w, memo);
      if start.err.Some? then (OutcomeOf(start), start.memo)
      else if !Stops(w, start) then (Failed(Invariant), memo)
      else (OutcomeOf(StopOf(w, start)), StopOf(w, start).memo)
  }
}
