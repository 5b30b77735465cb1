/** What a planning run is given: loans, money and when it arrives, and one policy. */
module Portfolio {
  import opened Dates
  import opened Contracts

  datatype Option<+T> = None | Some(value: T)

  /** What a lender does with money beyond the instalment. */
  datatype ExcessRule = ExcessUnknown | ReducePrincipal | HoldAsAdvance | RequiresBankRequest

  /** One loan as the planner sees it: the contract and the balance owed on the anchor date. */
  datatype Position = Position(id: string, contract: Contract, balance: int, from: Date, excess: ExcessRule,
                               optionalExcluded: bool)

  datatype CashSplit = CashSplit(loanId: string, amount: int)

  /** Constraints on the optional use of one receipt. */
  datatype CashRouting = CashRouting(loanId: string, splits: seq<CashSplit>, holdUntil: Date, holdMinimum: int)

  datatype CashEvent = CashEvent(id: string, routing: Option<CashRouting>, fromOpening: bool, on: Date, amount: int,
                                 expected: bool)

  datatype CarryRule = Unstated | CarryCash | NoCarry | BatchUntil | CarryToDate

  datatype SpendingChange = SpendingChange(on: Date, limit: int, rule: CarryRule, minimum: int, until: Date)

  /** Monthly permission to spend, independent of cash. Months are keyed by their index. */
  datatype SpendingPlan = SpendingPlan(confirmedReleaseOnly: bool, cycleDay: int, changes: seq<SpendingChange>,
                                       rule: CarryRule, minimum: int, until: Date,
                                       monthly: int, overrides: map<int, int>, spent: int)

  datatype CashPlan = CashPlan(cashThrough: Date, spending: Option<SpendingPlan>, monthly: int, payDay: int,
                               openingCash: int, reserveFloor: int, lumps: seq<CashEvent>,
                               monthlyOverrides: map<int, int>)

  const MAX_LOANS := 12
  const DEFAULT_HORIZON := 600

  datatype Input = Input(valuation: Date, cash: CashPlan, loans: seq<Position>, horizon: int) {
    function Months(): (n: nat) {
      if horizon > 0 then horizon else DEFAULT_HORIZON
    }

    predicate Separate() {
      cash.spending.Some?
    }
  }

  datatype Timing = OnDue | OnReceipt
  datatype Rollover = RollFreed | KeepFreed

  /** One way of spending the surplus: a priority over loan indices, and choices for each loan. */
  datatype Policy = Policy(name: string, requiredOnly: bool, order: seq<int>, timing: seq<Timing>, effect: seq<PrepaymentEffect>,
                           rollover: Rollover, minPrepay: int)

  // ---------- What the engine accepts ----------

  predicate UniqueIds(loans: seq<Position>) {
    && (forall i :: 0 <= i < |loans| ==> loans[i].id != "")
    && (forall i, j :: 0 <= i < j < |loans| ==> loans[i].id != loans[j].id)
  }

  /** A target may take earmarked cash: live, included, credited at once, and settlement aligned. */
  predicate TargetAccepts(loans: seq<Position>, id: string, amount: int) {
    exists i :: 0 <= i < |loans| && loans[i].id == id
      && loans[i].balance > 0 && !loans[i].optionalExcluded && loans[i].excess == ReducePrincipal
      && amount % loans[i].contract.rounding.Unit() == 0
  }

  function SplitTotal(splits: seq<CashSplit>): int {
    if splits == [] then 0 else splits[0].amount + SplitTotal(splits[1..])
  }

  predicate RoutingAccepted(in_: Input, e: CashEvent) {
    match e.routing
    case None => !e.fromOpening
    case Some(r) =>
      && e.amount > 0 && e.id != ""
      && (e.fromOpening ==> !e.expected && e.on == in_.valuation)
      && (IsSet(r.holdUntil) ==> !Before(r.holdUntil, e.on)) && r.holdMinimum >= 0
      && !(r.loanId != "" && r.splits != [])
      && !(r.loanId == "" && r.splits == [] && !IsSet(r.holdUntil) && r.holdMinimum == 0)
      && (r.loanId != "" ==> TargetAccepts(in_.loans, r.loanId, e.amount))
      && (forall k :: 0 <= k < |r.splits| ==>
            && r.splits[k].loanId != "" && r.splits[k].amount > 0
            && TargetAccepts(in_.loans, r.splits[k].loanId, r.splits[k].amount))
      && (forall j, k :: 0 <= j < k < |r.splits| ==> r.splits[j].loanId != r.splits[k].loanId)
      && (r.splits != [] ==> SplitTotal(r.splits) == e.amount)
  }

  function FromOpening(lumps: seq<CashEvent>): int {
    if lumps == [] then 0
    else FromOpening(lumps[..|lumps| - 1]) + if lumps[|lumps| - 1].fromOpening then lumps[|lumps| - 1].amount else 0
  }

  predicate HasRouting(lumps: seq<CashEvent>) {
    exists i :: 0 <= i < |lumps| && (lumps[i].routing.Some? || lumps[i].fromOpening)
  }

  predicate RoutingValid(in_: Input) {
    var lumps := in_.cash.lumps;
    HasRouting(lumps) ==>
      && UniqueIds(in_.loans)
      && (forall i :: 0 <= i < |lumps| ==> RoutingAccepted(in_, lumps[i]))
      && (forall i, j :: 0 <= i < j < |lumps| && lumps[i].id != "" ==> lumps[i].id != lumps[j].id)
      && FromOpening(lumps) <= in_.cash.openingCash
  }

  predicate CarryValid(rule: CarryRule, minimum: int, until: Date) {
    match rule
    case BatchUntil => minimum > 0 && !IsSet(until)
    case CarryToDate => IsSet(until) && minimum == 0
    case _ => minimum == 0 && !IsSet(until)
  }

  predicate SpendingValid(cash: CashPlan, p: SpendingPlan) {
    && 0 <= p.cycleDay <= 31 && cash.payDay != 0
    && CarryValid(p.rule, p.minimum, p.until)
    && (forall i :: 0 <= i < |p.changes| ==>
          && CarryValid(p.changes[i].rule, p.changes[i].minimum, p.changes[i].until)
          && IsSet(p.changes[i].on) && p.changes[i].limit >= 0)
    && (forall i, j :: 0 <= i < j < |p.changes| ==> Before(p.changes[i].on, p.changes[j].on))
    && p.monthly >= 0 && p.spent >= 0
    && (forall k :: k in p.overrides ==> p.overrides[k] >= 0)
  }

  predicate FundingValid(in_: Input) {
    var cash := in_.cash;
    && !After(cash.cashThrough, in_.valuation)
    && cash.monthly >= 0 && cash.openingCash >= 0 && cash.reserveFloor >= 0
    && (forall i :: 0 <= i < |cash.lumps| ==>
          IsSet(cash.lumps[i].on) && !Before(cash.lumps[i].on, in_.valuation) && cash.lumps[i].amount >= 0)
    && (cash.spending.Some? ==> SpendingValid(cash, cash.spending.value))
  }

  // ---------- Permission in force ----------

  /** The dated changes that apply on a day: the loop stops at the first one still ahead. */
  function InForce(changes: seq<SpendingChange>, on: Date): (r: seq<SpendingChange>)
    ensures r <= changes
    ensures forall k :: 0 <= k < |r| ==> !After(r[k].on, on)
    ensures |r| < |changes| ==> After(changes[|r|].on, on)
  {
    if changes == [] || After(changes[0].on, on) then [] else [changes[0]] + InForce(changes[1..], on)
  }

  lemma {:induction false} InForceIs(changes: seq<SpendingChange>, on: Date, k: nat)
    requires k <= |changes| && (k < |changes| ==> After(changes[k].on, on))
    requires forall j :: 0 <= j < k ==> !After(changes[j].on, on)
    ensures InForce(changes, on) == changes[..k]
  {
    hide After;
    if k > 0 {
      InForceIs(changes[1..], on, k - 1);
      assert changes[..k] == [changes[0]] + changes[1..][..k - 1];
    }
  }

  /** A base limit as the last of some changes leaves it. */
  function LimitAfter(base: int, changes: seq<SpendingChange>): int {
    if changes == [] then base else changes[|changes| - 1].limit
  }

  /** The carry rule, threshold and date as some changes leave them: the last change that states a rule. */
  function CarryAfter(p: SpendingPlan, changes: seq<SpendingChange>): (CarryRule, int, Date) {
    if changes == [] then (p.rule, p.minimum, p.until)
    else
      var c := changes[|changes| - 1];
      if c.rule != Unstated then (c.rule, c.minimum, c.until) else CarryAfter(p, changes[..|changes| - 1])
  }

  /** The permission for the period containing a day, given the running budget. */
  function LimitOn(p: SpendingPlan, budget: int, on: Date): int
    requires IsSet(on) && YearMonth(on) > 12
  {
    var key := YearMonth(PeriodStart(p.cycleDay, on));
    LimitAfter(if key in p.overrides then p.overrides[key] else budget, InForce(p.changes, on))
  }

  /** Before any change applies, the limit is what the period's month overrides, else the running budget. */
  lemma LimitBeforeAnyChange(p: SpendingPlan, budget: int, on: Date)
    requires IsSet(on) && YearMonth(on) > 12 && forall k :: 0 <= k < |p.changes| ==> After(p.changes[k].on, on)
    ensures var key := YearMonth(PeriodStart(p.cycleDay, on));
            LimitOn(p, budget, on) == if key in p.overrides then p.overrides[key] else budget
  {
    hide PeriodStart, DayNumber, After;
    InForceIs(p.changes, on, 0);
  }

  /** The limit on a day is that of the latest change on or before it. */
  lemma LimitIsTheLatestChange(p: SpendingPlan, budget: int, on: Date, k: nat)
    requires forall i, j :: 0 <= i < j < |p.changes| ==> Before(p.changes[i].on, p.changes[j].on)
    requires IsSet(on) && YearMonth(on) > 12 && k < |p.changes| && !After(p.changes[k].on, on)
    requires k + 1 < |p.changes| ==> After(p.changes[k + 1].on, on)
    ensures LimitOn(p, budget, on) == p.changes[k].limit
  {
    hide PeriodStart, DayNumber;
    forall j | 0 <= j < k + 1 ensures !After(p.changes[j].on, on) {
      assert j < k ==> Before(p.changes[j].on, p.changes[k].on);
    }
    InForceIs(p.changes, on, k + 1);
  }

  /** The carry terms on a day are those of the latest change on or before it that states a rule, else the plan's own. */
  lemma {:induction false} CarryIsTheLatestStated(p: SpendingPlan, changes: seq<SpendingChange>)
    ensures (forall k :: 0 <= k < |changes| ==> changes[k].rule == Unstated) ==> CarryAfter(p, changes) == (p.rule, p.minimum, p.until)
    ensures forall k :: 0 <= k < |changes| && changes[k].rule != Unstated
                        && (forall j :: k < j < |changes| ==> changes[j].rule == Unstated) ==>
              CarryAfter(p, changes) == (changes[k].rule, changes[k].minimum, changes[k].until)
  {
    if changes != [] {
      var n := |changes| - 1;
      CarryIsTheLatestStated(p, changes[..n]);
      forall k | 0 <= k < |changes| && changes[k].rule != Unstated && (forall j :: k < j < |changes| ==> changes[j].rule == Unstated)
        ensures CarryAfter(p, changes) == (changes[k].rule, changes[k].minimum, changes[k].until)
      {
        if k < n {
          assert changes[..n][k] == changes[k] && changes[n].rule == Unstated;
        }
      }
    }
  }

  /** When permission is next reconsidered: the period's end, or the first change before it. */
  function NextChange(p: SpendingPlan, on: Date): (d: Date)
    requires IsSet(on) && YearMonth(on) > 12
    ensures IsSet(d) && After(d, on) && !After(d, PeriodEnd(p.cycleDay, on))
  {
    hide DayNumber, PeriodStart, PeriodEnd;
    PeriodContains(p.cycleDay, on);
    var end := PeriodEnd(p.cycleDay, on);
    var k := |InForce(p.changes, on)|;
    if k < |p.changes| && Before(p.changes[k].on, end) then p.changes[k].on else end
  }

  /** In date order, the first change after the day and before the period's end is the first one still ahead. */
  lemma FirstChangeIsNext(p: SpendingPlan, on: Date, k: nat)
    requires forall i, j :: 0 <= i < j < |p.changes| ==> Before(p.changes[i].on, p.changes[j].on)
    requires IsSet(on) && YearMonth(on) > 12 && k <= |p.changes|
    requires forall j :: 0 <= j < k && After(p.changes[j].on, on) ==> !Before(p.changes[j].on, PeriodEnd(p.cycleDay, on))
    requires k < |p.changes| ==> After(p.changes[k].on, on) && Before(p.changes[k].on, PeriodEnd(p.cycleDay, on))
    ensures NextChange(p, on) == if k < |p.changes| then p.changes[k].on else PeriodEnd(p.cycleDay, on)
  {
    hide DayNumber, PeriodEnd;
    var first := |InForce(p.changes, on)|;
    if k < |p.changes| {
      assert first <= k;
    }
  }

  lemma {:induction false} SameChangesInForce(changes: seq<SpendingChange>, on: Date, d: Date)
    requires !Before(d, on) && forall i :: 0 <= i < |changes| && After(changes[i].on, on) ==> After(changes[i].on, d)
    ensures InForce(changes, d) == InForce(changes, on)
  {
    hide DayNumber;
    if changes != [] && !After(changes[0].on, on) {
      SameChangesInForce(changes[1..], on, d);
    }
  }

  /** Between two reconsiderations the permission granted is the same on every day. */
  lemma PermissionIsConstant(p: SpendingPlan, budget: int, on: Date, d: Date)
    requires forall i, j :: 0 <= i < j < |p.changes| ==> Before(p.changes[i].on, p.changes[j].on)
    requires IsSet(on) && YearMonth(on) > 12 && IsSet(d) && !Before(d, on) && Before(d, NextChange(p, on))
    ensures YearMonth(d) > 12 && LimitOn(p, budget, d) == LimitOn(p, budget, on)
    ensures PeriodStart(p.cycleDay, d) == PeriodStart(p.cycleDay, on)
  {
    hide DayNumber, PeriodStart, PeriodEnd, LimitAfter;
    NoEarlierMonth(on, d);
    PeriodContains(p.cycleDay, on);
    PeriodsTile(p.cycleDay, on, d);
    SameChangesInForce(p.changes, on, d);
  }

  /** Everything a run checks before it starts. */
  predicate Accepted(in_: Input) {
    && 0 < |in_.loans| <= MAX_LOANS
    && IsSet(in_.valuation) && YearMonth(in_.valuation) > 12
    && 0 <= in_.cash.payDay <= 31
    && RoutingValid(in_) && FundingValid(in_)
    && (forall i :: 0 <= i < |in_.loans| ==>
          IsSet(in_.loans[i].from) && !After(in_.loans[i].from, in_.valuation))
    && (forall k :: k in in_.cash.monthlyOverrides ==> in_.cash.monthlyOverrides[k] >= 0)
  }

  /** The policy speaks of every loan, and ranks loans that exist. */
  predicate Covers(p: Policy, n: nat) {
    && |p.order| == n && |p.timing| == n && |p.effect| == n
    && (forall k :: 0 <= k < n ==> 0 <= p.order[k] < n)
  }

  /** The prepayment effect a run follows for a loan: the contract's, else the policy's, else shortening. */
  function ResolvedEffect(c: Contract, chosen: PrepaymentEffect): (e: PrepaymentEffect)
    ensures e != BorrowerChooses
  {
    if c.prepayment.effect != BorrowerChooses then c.prepayment.effect
    else if chosen != BorrowerChooses then chosen
    else ShortenTerm
  }

  /** What the contract states no policy changes; where it leaves the choice, the policy's is followed. */
  lemma ContractsDecideEffects(c: Contract, chosen: PrepaymentEffect)
    ensures c.prepayment.effect != BorrowerChooses ==> ResolvedEffect(c, chosen) == c.prepayment.effect
    ensures c.prepayment.effect == BorrowerChooses && chosen != BorrowerChooses ==> ResolvedEffect(c, chosen) == chosen
  {
  }

  /** A policy with its name blanked and its effects resolved against the contracts: all a run reads of it. */
  function Canonical(in_: Input, p: Policy): (r: Policy)
    ensures r.order == p.order && r.timing == p.timing && r.rollover == p.rollover && r.minPrepay == p.minPrepay
    ensures r.requiredOnly == p.requiredOnly && |r.effect| == |p.effect| && r.name == ""
  {
    p.(name := "",
       effect := seq(|p.effect|, i requires 0 <= i < |p.effect| =>
                       if i < |in_.loans| then ResolvedEffect(in_.loans[i].contract, p.effect[i]) else p.effect[i]))
  }
}
