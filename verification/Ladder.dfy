/**
 The smallest monthly budget that clears a single zero-interest loan by a date. The search
 bisects over re-simulated runs; because every run in its domain is the simple paying down of
 `Paydown`, more budget is never worse, the search returns the least budget, and its two final
 checks never fail.
 */
module Ladder {
  import opened Dates
  import opened Contracts
  import opened Portfolio
  import opened SimState
  import opened LoanDues
  import Amortisation
  import Money
  import Normalisation
  import Paydown
  import ProjectionMemo
  import Flow
  import PlainRun
  import Simulator

  datatype Refusal =
    | Rejected(problem: Normalisation.Problem)
    | InvalidTarget                     // no date, or one before the valuation
    | OutsideDomain                     // monotonicity is not established
    | NoProjection(refusal: Amortisation.Refusal)
    | BoundOverflow
    | RunFailed(why: Flow.Failure)
    | BoundMissesTarget
    | ResultMissesTarget                // the two checks that monotonicity was real
    | OneLessSucceeds

  datatype Answer = Budget(amount: nat) | Refused(why: Refusal)

  // ---------- The domain ----------

  /** Everything but the budget itself is fixed, plain and in whole settlement units. */
  predicate InDomain(in_: Input, policy: Policy, rounding: Money.Policy) {
    && OneLoan(in_, policy) && in_.cash.openingCash == 0 && |policy.effect| == 1
    && (var p := in_.loans[0];
        && PlainTerms(p.contract) && p.contract.rounding == rounding && p.excess == ReducePrincipal
        && ResolvedEffect(p.contract, policy.effect[0]) == ShortenTerm
        && p.from == in_.valuation && p.balance >= 0 && Whole(p.balance, rounding.unit))
  }

  function Trial(in_: Input, budget: nat): Input {
    in_.(cash := in_.cash.(monthly := budget))
  }

  lemma TrialIsPlain(in_: Input, policy: Policy, rounding: Money.Policy, budget: nat)
    requires Accepted(in_) && InDomain(in_, policy, rounding) && Whole(budget, rounding.unit)
    ensures Accepted(Trial(in_, budget)) && Covers(policy, 1) && InverseDomain(Trial(in_, budget), policy)
    ensures |Trial(in_, budget).loans| == 1 && Trial(in_, budget).valuation == in_.valuation
  {
    hide Whole;
    assert Trial(in_, budget).loans == in_.loans;
  }

  /** The course of a run on a budget; none when the loan cannot be projected. */
  function CourseAt(in_: Input, budget: nat): Option<Paydown.Course>
    requires |in_.loans| == 1 && IsSet(in_.loans[0].from) && IsSet(in_.valuation)
  {
    CourseOf(Trial(in_, budget), AddMonths(in_.valuation, in_.Months()))
  }

  /** A budget that clears the loan by a date. */
  predicate ClearsBy(in_: Input, budget: nat, target: Date)
    requires |in_.loans| == 1 && IsSet(in_.loans[0].from) && IsSet(in_.valuation)
  {
    var course := CourseAt(in_, budget);
    course.Some? && course.value.PaidOff? && !After(course.value.on, target)
  }

  /** A loan with a debt and dates ahead that a run can take up. */
  ghost predicate Projected(in_: Input)
    requires |in_.loans| == 1 && IsSet(in_.loans[0].from)
  {
    var p := in_.loans[0];
    p.balance > 0 && TakenUp(p, OnDue, ShortenTerm).Some? && Amortisation.DatesAhead(p.contract, p.from).Ok?
  }

  /** The course of a projected loan is the simple paying down over the dates ahead of it. */
  lemma CourseIs(in_: Input, budget: nat)
    requires |in_.loans| == 1 && IsSet(in_.loans[0].from) && IsSet(in_.valuation)
    ensures in_.loans[0].balance <= 0 ==> CourseAt(in_, budget) == Some(Paydown.PaidOff(UNSET))
    ensures in_.loans[0].balance > 0 && !Projected(in_) ==> CourseAt(in_, budget) == None
    ensures Projected(in_) ==>
              var p := in_.loans[0];
              var dates := Amortisation.DatesAhead(p.contract, p.from).value;
              && Paydown.InOrder(dates)
              && CourseAt(in_, budget)
                 == Some(Paydown.Follow(dates, p.balance, budget, p.contract.scheduledPayment, AddMonths(in_.valuation, in_.Months())))
  {
    hide DayNumber, Amortisation.DatesAhead, TakenUp, AddMonths, Paydown.Follow, Paydown.InOrder, Amortisation.Ahead;
    var p := in_.loans[0];
    if Projected(in_) {
      Amortisation.DatesAheadAreAhead(p.contract, p.from);
      AheadIsInOrder(Amortisation.Anchor(p.contract, p.from), Amortisation.DatesAhead(p.contract, p.from).value);
    }
  }

  // ---------- Monotonicity ----------

  lemma {:induction false} AheadIsInOrder(prev: Date, dates: seq<Date>)
    requires Amortisation.Ahead(prev, dates)
    ensures Paydown.InOrder(dates) && forall i :: 0 <= i < |dates| ==> Before(prev, dates[i])
    decreases |dates|
  {
    hide DayNumber;
    if dates != [] {
      AheadIsInOrder(dates[0], dates[1..]);
      forall i, j | 0 <= i < j < |dates| ensures !After(dates[i], dates[j]) {
        assert dates[j] == dates[1..][j - 1];
        assert i > 0 ==> dates[i] == dates[1..][i - 1];
      }
      forall i | 0 <= i < |dates| ensures Before(prev, dates[i]) {
        assert i > 0 ==> dates[i] == dates[1..][i - 1];
      }
    }
  }

  /** A larger budget clears the loan by every date a smaller one does. */
  lemma MoreBudgetClears(in_: Input, budget: nat, more: nat, target: Date)
    requires |in_.loans| == 1 && IsSet(in_.loans[0].from) && IsSet(in_.valuation)
    requires budget <= more && ClearsBy(in_, budget, target)
    ensures ClearsBy(in_, more, target)
  {
    hide DayNumber, Amortisation.DatesAhead, AddMonths, CourseAt, Paydown.InOrder, Paydown.Follow;
    CourseIs(in_, budget);
    CourseIs(in_, more);
    if Projected(in_) {
      var p := in_.loans[0];
      var dates := Amortisation.DatesAhead(p.contract, p.from).value;
      Paydown.MoreBudgetIsNoWorse(dates, p.balance, budget, p.balance, more, p.contract.scheduledPayment,
                                  AddMonths(in_.valuation, in_.Months()));
    }
  }

  /** A budget that covers the balance pays off on the first date; where that misses a target, so does every budget. */
  lemma WholeBalanceDecides(in_: Input, budget: nat, other: nat, target: Date)
    requires |in_.loans| == 1 && IsSet(in_.loans[0].from) && IsSet(in_.valuation) && budget >= in_.loans[0].balance
    ensures ClearsBy(in_, other, target) ==> ClearsBy(in_, budget, target)
  {
    hide DayNumber, Amortisation.DatesAhead, AddMonths, CourseAt, Paydown.InOrder;
    CourseIs(in_, budget);
    CourseIs(in_, other);
    if Projected(in_) {
      var p, horizon := in_.loans[0], AddMonths(in_.valuation, in_.Months());
      var dates := Amortisation.DatesAhead(p.contract, p.from).value;
      if !After(dates[0], horizon) {
        Paydown.WholeBalancePaysOff(dates, p.balance, budget, p.contract.scheduledPayment, horizon);
        if ClearsBy(in_, other, target) {
          Paydown.PaidOffIsADate(dates, p.balance, other, p.contract.scheduledPayment, horizon);
        }
      }
    }
  }

  // ---------- The bound ----------

  /** The next instalments of every live loan, or the first loan's refusal. */
  function RequiredOf(ps: seq<Position>): Amortisation.Result<int>
    requires forall k :: 0 <= k < |ps| ==> IsSet(ps[k].from)
  {
    if ps == [] then Amortisation.Ok(0)
    else
      var p := ps[|ps| - 1];
      var before :- RequiredOf(ps[..|ps| - 1]);
      if p.balance <= 0 then Amortisation.Ok(before)
      else
        var o :- ProjectionMemo.NextFor(p.contract, ProjectionMemo.Terms(p.balance, p.from, ReduceInstalment, 0));
        Amortisation.Ok(before + o.payment)
  }

  lemma {:induction false} RefusalStays(ps: seq<Position>, k: nat)
    requires k <= |ps| && forall i :: 0 <= i < |ps| ==> IsSet(ps[i].from)
    requires RequiredOf(ps[..k]).Err?
    ensures RequiredOf(ps) == RequiredOf(ps[..k])
    decreases |ps| - k
  {
    if k == |ps| {
      assert ps[..k] == ps;
    } else {
      assert ps[..k + 1][..k] == ps[..k];
      RefusalStays(ps, k + 1);
    }
  }

  method RequiredNow(in_: Input) returns (r: Amortisation.Result<int>)
    requires forall k :: 0 <= k < |in_.loans| ==> IsSet(in_.loans[k].from)
    ensures r == RequiredOf(in_.loans)
  {
    hide ProjectionMemo.NextFor;
    var ps, total := in_.loans, 0;
    for k := 0 to |ps|
      invariant RequiredOf(ps[..k]) == Amortisation.Ok(total)
    {
      var p := ps[k];
      assert ps[..k + 1][..k] == ps[..k];
      if p.balance > 0 {
        var o := ProjectionMemo.NextFor(p.contract, ProjectionMemo.Terms(p.balance, p.from, ReduceInstalment, 0));
        if o.Err? {
          RefusalStays(ps, k + 1);
          return Amortisation.Err(o.refusal);
        }
        total := total + o.value.payment;
      }
    }
    assert ps[..|ps|] == ps;
    return Amortisation.Ok(total);
  }

  /** The next instalment is never negative, and is refused exactly when a run cannot take the loan up. */
  lemma RequiredOfOne(in_: Input, budget: nat)
    requires |in_.loans| == 1 && IsSet(in_.loans[0].from) && IsSet(in_.valuation)
    ensures RequiredOf(in_.loans).Ok? ==> RequiredOf(in_.loans).value >= 0
    ensures RequiredOf(in_.loans).Err? ==> CourseAt(in_, budget).None?
    ensures RequiredOf(in_.loans).Ok? ==> CourseAt(in_, budget).Some?
  {
    hide Amortisation.DatesAhead, Amortisation.Next;
    var p := in_.loans[0];
    assert in_.loans[..0] == [];
    if p.balance > 0 {
      var t := ProjectionMemo.Terms(p.balance, p.from, ReduceInstalment, 0);
      var t' := ProjectionMemo.Terms(p.balance, p.from, ShortenTerm, 0);
      assert ProjectionMemo.NextFor(p.contract, t) == ProjectionMemo.NextFor(p.contract, t');
      if ProjectionMemo.NextFor(p.contract, t').Ok? {
        ObligationNeedsADate(p.contract, t');
        ObligationIsNext(p.contract, Starting(p, OnDue, ShortenTerm));
      }
    }
  }

  // ---------- The search ----------

  /** One trial: whether a budget clears the loan by the date, or why its run failed. */
  method Clears(in_: Input, policy: Policy, rounding: Money.Policy, budget: nat, target: Date)
    returns (ok: bool, why: Option<Flow.Failure>)
    requires Accepted(in_) && InDomain(in_, policy, rounding) && Whole(budget, rounding.unit)
    requires |in_.loans| == 1 && IsSet(in_.loans[0].from) && IsSet(in_.valuation)
    ensures ok == ClearsBy(in_, budget, target) && (ok ==> why.None?)
    ensures why.None? <==> CourseAt(in_, budget).Some? && CourseAt(in_, budget).value.PaidOff?
    ensures why.Some? && why.value.NoProjection? <==> CourseAt(in_, budget).None?
    ensures why.Some? && !why.value.NoProjection? ==> Missing(why.value)
  {
    hide Accepted, InDomain, Covers, InverseDomain, CourseOf, Whole, LoansOk, Simulator.Sim.Orderly, Simulator.Sim.Accounted,
      Simulator.Uncovered, After, DayNumber, AddMonths, TakenUp, Flow.Started, Flow.RunOf, Flow.Stops;
    TrialIsPlain(in_, policy, rounding, budget);
    var r, _ := Simulator.Run(Trial(in_, budget), policy);
    PlainRun.PlainRunFollowsItsCourse(Trial(in_, budget), policy);
    match r
    case Finished(result) => return !After(result.payoff, target), None;
    case Failed(f) => return false, Some(f);
  }

  /** A failed run that only says the budget is too small; any other failure stops the search. */
  predicate Missing(f: Flow.Failure) {
    f.ShortOfCash? || f.OverLimit? || f.HorizonExceeded?
  }

  /** The units of budget that certainly suffice: the next instalment and the whole balance, rounded up. */
  function BoundUnits(in_: Input, unit: int): (h: nat)
    requires |in_.loans| == 1 && IsSet(in_.loans[0].from) && in_.loans[0].balance >= 0 && unit >= 1
    requires RequiredOf(in_.loans).Ok? && RequiredOf(in_.loans).value >= 0
  {
    hide RequiredOf;
    UnitsOver(RequiredOf(in_.loans).value + in_.loans[0].balance, unit)
  }

  /** The least number of units that reaches an amount. */
  function UnitsOver(amount: nat, unit: int): (h: nat)
    requires unit >= 1
    ensures h * unit >= amount && (h - 1) * unit < amount
  {
    amount / unit + if amount % unit != 0 then 1 else 0
  }

  lemma UnitsAreWhole(units: int, unit: int)
    requires unit >= 1
    ensures Whole(units * unit, unit) && units * unit / unit == units
  {
    Money.ModMultiple(units, unit);
    assert units * unit == unit * units;
  }

  lemma UnitsGrow(units: nat, more: nat, unit: int)
    requires unit >= 1
    ensures units <= more <==> units * unit <= more * unit
    ensures 0 <= units * unit
  {
  }

  /** The date is set and not before the valuation. */
  predicate ValidTarget(in_: Input, target: Date) {
    IsSet(target) && !Before(target, in_.valuation)
  }

  /** The search gets as far as bisecting: the loan can be projected and the bound is a machine integer. */
  predicate Bounded(in_: Input, unit: int)
    requires |in_.loans| == 1 && IsSet(in_.loans[0].from)
  {
    && in_.loans[0].balance >= 0 && unit >= 1
    && RequiredOf(in_.loans).Ok? && RequiredOf(in_.loans).value >= 0
    && BoundUnits(in_, unit) <= Money.MAX_INT64 / unit
  }

  predicate Eligible(in_: Input, policy: Policy, target: Date, rounding: Money.Policy) {
    Accepted(in_) && ValidTarget(in_, target) && InDomain(in_, policy, rounding)
  }

  /** The least budget: among budgets in whole units, exactly those at or above it clear the loan by the date. */
  ghost predicate Least(in_: Input, amount: nat, target: Date, unit: int)
    requires |in_.loans| == 1 && IsSet(in_.loans[0].from) && IsSet(in_.valuation)
  {
    Whole(amount, unit) && forall b: nat :: Whole(b, unit) ==> (ClearsBy(in_, b, target) <==> b >= amount)
  }

  ghost predicate NoneClears(in_: Input, target: Date)
    requires |in_.loans| == 1 && IsSet(in_.loans[0].from) && IsSet(in_.valuation)
  {
    forall b: nat :: !ClearsBy(in_, b, target)
  }

  lemma EligibleIsDated(in_: Input, policy: Policy, target: Date, rounding: Money.Policy)
    requires Eligible(in_, policy, target, rounding)
    ensures |in_.loans| == 1 && IsSet(in_.loans[0].from) && IsSet(in_.valuation) && in_.loans[0].balance >= 0
    ensures rounding.unit >= 1
  {
  }

  /** The bisection between no budget and one that certainly suffices, and the checks on its result. */
  method Bisect(in_: Input, policy: Policy, target: Date, rounding: Money.Policy, bound: nat) returns (r: Answer)
    requires Eligible(in_, policy, target, rounding)
    requires |in_.loans| == 1 && IsSet(in_.loans[0].from) && IsSet(in_.valuation) && in_.loans[0].balance >= 0
    requires rounding.unit >= 1 && Bounded(in_, rounding.unit) && bound == BoundUnits(in_, rounding.unit)
    ensures r.Budget? ==> Least(in_, r.amount, target, rounding.unit)
    ensures r.Refused? ==> NoneClears(in_, target)
    ensures r.Refused? ==> r.why == BoundMissesTarget || (r.why.RunFailed? && Missing(r.why.why))
  {
    hide Accepted, InDomain, ClearsBy, CourseAt, Whole, RequiredOf, Missing, BoundUnits;
    var unit, h := rounding.unit, bound;
    UnitsAreWhole(h, unit);
    UnitsGrow(0, h, unit);
    BoundSuffices(in_, target, unit);
    RequiredOfOne(in_, h * unit);
    var ok, why := Clears(in_, policy, rounding, h * unit, target);
    match why {
      case Some(f) => return Refused(RunFailed(f));
      case None =>
    }
    if !ok {
      return Refused(BoundMissesTarget);
    }
    var l := 0;
    while l < h
      invariant 0 <= l <= h <= bound && 0 <= h * unit && ClearsBy(in_, h * unit, target)
      invariant l > 0 ==> 0 <= (l - 1) * unit && !ClearsBy(in_, (l - 1) * unit, target)
    {
      var mid := l + (h - l) / 2;
      UnitsAreWhole(mid, unit);
      UnitsGrow(0, mid, unit);
      RequiredOfOne(in_, mid * unit);
      ok, why := Clears(in_, policy, rounding, mid * unit, target);
      match why {
        case Some(f) =>
          if !Missing(f) {
            return Refused(RunFailed(f));
          }
        case None =>
      }
      if ok {
        h := mid;
      } else {
        l := mid + 1;
      }
    }
    UnitsAreWhole(h, unit);
    ok, why := Clears(in_, policy, rounding, h * unit, target);
    match why {
      case Some(f) => return Refused(RunFailed(f));
      case None =>
    }
    if !ok {
      return Refused(ResultMissesTarget);
    }
    if h > 0 {
      UnitsAreWhole(h - 1, unit);
      RequiredOfOne(in_, (h - 1) * unit);
      ok, why := Clears(in_, policy, rounding, (h - 1) * unit, target);
      match why {
        case Some(f) =>
          if !Missing(f) {
            return Refused(RunFailed(f));
          }
        case None =>
      }
      if ok {
        return Refused(OneLessSucceeds);
      }
    }
    LeastUnitsAreLeast(in_, target, unit, h);
    return Budget(h * unit);
  }

  lemma BoundSuffices(in_: Input, target: Date, unit: int)
    requires |in_.loans| == 1 && IsSet(in_.loans[0].from) && IsSet(in_.valuation) && in_.loans[0].balance >= 0
    requires unit >= 1 && Bounded(in_, unit)
    ensures var b := BoundUnits(in_, unit) * unit;
            && b >= 0 && (!ClearsBy(in_, b, target) ==> NoneClears(in_, target))
  {
    hide ClearsBy, CourseAt, Whole, RequiredOf;
    var hi := RequiredOf(in_.loans).value + in_.loans[0].balance;
    var b := BoundUnits(in_, unit) * unit;
    forall other: nat ensures ClearsBy(in_, other, target) ==> ClearsBy(in_, b, target) {
      WholeBalanceDecides(in_, b, other, target);
    }
  }

  lemma LeastUnitsAreLeast(in_: Input, target: Date, unit: int, h: nat)
    requires |in_.loans| == 1 && IsSet(in_.loans[0].from) && IsSet(in_.valuation) && unit >= 1
    requires 0 <= h * unit && ClearsBy(in_, h * unit, target)
    requires h > 0 ==> 0 <= (h - 1) * unit && !ClearsBy(in_, (h - 1) * unit, target)
    ensures Least(in_, h * unit, target, unit)
  {
    hide ClearsBy, CourseAt;
    UnitsAreWhole(h, unit);
    forall b: nat | Whole(b, unit)
      ensures ClearsBy(in_, b, target) <==> b >= h * unit
    {
      var k := b / unit;
      assert b == k * unit;
      if k >= h {
        UnitsGrow(h, k, unit);
        MoreBudgetClears(in_, h * unit, b, target);
      } else {
        UnitsGrow(h, k, unit);
        UnitsGrow(k, h - 1, unit);
        if ClearsBy(in_, b, target) {
          MoreBudgetClears(in_, b, (h - 1) * unit, target);
        }
      }
    }
  }

  /** What the answer says of a normalised input: the least budget that clears the loan, or that none does. */
  ghost predicate Answers(r: Answer, norm: Input, policy: Policy, target: Date, rounding: Money.Policy) {
    && (r == Refused(InvalidTarget) <==> !ValidTarget(norm, target))
    && (r == Refused(OutsideDomain) <==> ValidTarget(norm, target) && !InDomain(norm, policy, rounding))
    && (ValidTarget(norm, target) && InDomain(norm, policy, rounding) ==>
          && Accepted(norm) && |norm.loans| == 1 && IsSet(norm.loans[0].from) && IsSet(norm.valuation)
          && (r.Refused? && (r.why.NoProjection? || r.why == BoundOverflow) <==> !Bounded(norm, rounding.unit))
          && (r.Budget? ==> Least(norm, r.amount, target, rounding.unit))
          && (r.Refused? && Bounded(norm, rounding.unit) ==> NoneClears(norm, target)))
  }

  /** In the domain nothing is routed, so normalising keeps the input acceptable. */
  lemma DomainIsAccepted(in_: Input, policy: Policy, rounding: Money.Policy)
    requires Normalisation.Normal(in_).Ok? && InDomain(Normalisation.Normal(in_).value, policy, rounding)
    ensures Accepted(Normalisation.Normal(in_).value)
  {
    hide Normalisation.Normal, Accepted, PlainTerms, Whole;
    Normalisation.UnroutedStaysAccepted(in_);
  }

  /**
   Bisects for the least budget. On every input it answers with the least budget that clears
   the loan by the target whenever any does, refuses where none does, and never finds that
   success was not monotone in the budget.
   */
  method BudgetFor(in_: Input, policy: Policy, target: Date, rounding: Money.Policy) returns (r: Answer)
    ensures r.Refused? && r.why.Rejected? <==> Normalisation.Normal(in_).Err?
    ensures Normalisation.Normal(in_).Ok? ==> Answers(r, Normalisation.Normal(in_).value, policy, target, rounding)
    ensures r.Refused? ==> r.why != ResultMissesTarget && r.why != OneLessSucceeds
    ensures r.Refused? && r.why.RunFailed? ==> Missing(r.why.why)
  {
    hide Accepted, InDomain, ClearsBy, CourseAt, Whole, RequiredOf, After, Before, DayNumber, Normalisation.Normal;
    var normal := Normalisation.Normalise(in_);
    if normal.Err? {
      return Refused(Rejected(normal.problem));
    }
    var norm := normal.value;
    if !ValidTarget(norm, target) {
      return Refused(InvalidTarget);
    }
    if !InDomain(norm, policy, rounding) {
      return Refused(OutsideDomain);
    }
    DomainIsAccepted(in_, policy, rounding);
    EligibleIsDated(norm, policy, target, rounding);
    var required := RequiredNow(norm);
    RequiredOfOne(norm, 0);
    if required.Err? {
      return Refused(NoProjection(required.refusal));
    }
    var h := BoundUnits(norm, rounding.unit);
    if h > Money.MAX_INT64 / rounding.unit {
      return Refused(BoundOverflow);
    }
    r := Bisect(norm, policy, target, rounding, h);
  }
}
