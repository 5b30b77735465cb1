/**
 The exact search over due-date splits: a memoised recursion with an expansion cap. A search
 that was not cut off returns the cheapest plan of all, and among the cheapest one the
 shortest; it returns none exactly when no plan settles every loan within the horizon.
 */
module Dynamic {
  import opened Dates
  import opened Contracts
  import opened Portfolio
  import Money

  datatype Error = Unsupported | Overflow

  datatype Result<+T> = Ok(value: T) | Err(error: Error) {
    predicate IsFailure() { Err? }
    function PropagateFailure<U>(): Result<U> requires Err? { Err(error) }
    function Extract(): T requires Ok? { value }
  }

  /** What the recursion reads: loans on one calendar, constant funding and a settlement quantum. */
  datatype Problem = Problem(loans: seq<Position>, valuation: Date, day: int, monthly: nat, quantum: int, horizon: nat) {
    predicate Valid() {
      && IsSet(valuation) && quantum > 0 && monthly % quantum == 0
      && forall i :: 0 <= i < |loans| ==>
           && loans[i].contract.scheduledPayment > 0 && loans[i].contract.scheduledPayment % quantum == 0
           && loans[i].contract.rounding.Unit() == quantum
    }

    function EventDate(event: nat): (d: Date)
      requires IsSet(valuation)
      ensures IsSet(d)
    {
      if event == 0 then valuation else Occurrence(valuation, day, event)
    }
  }

  /** Where a plan stands after some events: the cash carried and every balance. */
  datatype Key = Key(event: nat, cash: nat, balances: seq<nat>)

  /** One due date: what each loan required and was paid beyond that, and the interest charged. */
  datatype Step = Step(on: Date, required: seq<nat>, extras: seq<nat>, interest: nat, cash: nat)

  /** The best way found to finish from a key, if any. */
  datatype Tail = Tail(found: bool, cost: nat, steps: seq<Step>)

  const NO_PLAN: Tail := Tail(false, 0, [])

  // ---------- The plans there are ----------

  predicate KeyFits(p: Problem, k: Key) {
    p.Valid() && |k.balances| == |p.loans| && k.event <= p.horizon
  }

  predicate Aligned(p: Problem, k: Key)
    requires p.Valid()
  {
    k.cash % p.quantum == 0 && forall i :: 0 <= i < |k.balances| ==> k.balances[i] % p.quantum == 0
  }

  predicate Settled(k: Key) {
    forall i :: 0 <= i < |k.balances| ==> k.balances[i] == 0
  }

  /** Interest on one loan from the previous event to the next. */
  function Accrued(p: Problem, k: Key, i: nat): nat
    requires KeyFits(p, k) && i < |p.loans|
  {
    var days := DaysBetween(p.EventDate(k.event), Occurrence(p.valuation, p.day, k.event + 1));
    p.loans[i].contract.Interest(k.balances[i], if days < 0 then 0 else days)
  }

  function Required(p: Problem, k: Key, i: nat): nat
    requires KeyFits(p, k) && i < |p.loans|
  {
    var owed := k.balances[i] + Accrued(p, k, i);
    if owed < p.loans[i].contract.scheduledPayment then owed else p.loans[i].contract.scheduledPayment
  }

  function InterestOf(p: Problem, k: Key, n: nat): nat
    requires KeyFits(p, k) && n <= |p.loans|
  {
    if n == 0 then 0 else InterestOf(p, k, n - 1) + Accrued(p, k, n - 1)
  }

  function RequiredOf(p: Problem, k: Key, n: nat): nat
    requires KeyFits(p, k) && n <= |p.loans|
  {
    if n == 0 then 0 else RequiredOf(p, k, n - 1) + Required(p, k, n - 1)
  }

  function LeftAfterDue(p: Problem, k: Key, i: nat): nat
    requires KeyFits(p, k) && i < |p.loans|
  {
    k.balances[i] + Accrued(p, k, i) - Required(p, k, i)
  }

  function Sum(s: seq<nat>): nat {
    if s == [] then 0 else Sum(s[..|s| - 1]) + s[|s| - 1]
  }

  /** The dues of the next event can be met. */
  predicate Payable(p: Problem, k: Key)
    requires KeyFits(p, k)
  {
    RequiredOf(p, k, |p.loans|) <= k.cash + p.monthly
  }

  /** Cash left once the dues of the next event are met. */
  function Surplus(p: Problem, k: Key): nat
    requires KeyFits(p, k) && Payable(p, k)
  {
    k.cash + p.monthly - RequiredOf(p, k, |p.loans|)
  }

  /** Extra payments that whole quanta of surplus allow: any split, over no more than each balance. */
  predicate Splits(p: Problem, k: Key, extras: seq<nat>)
    requires KeyFits(p, k) && Payable(p, k)
  {
    && |extras| == |p.loans| && Sum(extras) <= Surplus(p, k)
    && forall i :: 0 <= i < |extras| ==> extras[i] % p.quantum == 0 && extras[i] <= LeftAfterDue(p, k, i)
  }

  function Next(p: Problem, k: Key, extras: seq<nat>): (k': Key)
    requires KeyFits(p, k) && Payable(p, k) && Splits(p, k, extras) && k.event < p.horizon
    ensures KeyFits(p, k') && k'.event == k.event + 1
  {
    Key(k.event + 1, Surplus(p, k) - Sum(extras),
        seq(|p.loans|, i requires 0 <= i < |p.loans| => LeftAfterDue(p, k, i) - extras[i]))
  }

  function StepFor(p: Problem, k: Key, extras: seq<nat>): Step
    requires KeyFits(p, k) && Payable(p, k) && Splits(p, k, extras)
  {
    Step(Occurrence(p.valuation, p.day, k.event + 1),
         seq(|p.loans|, i requires 0 <= i < |p.loans| => Required(p, k, i)),
         extras, InterestOf(p, k, |p.loans|), Surplus(p, k) - Sum(extras))
  }

  /** A plan: at every due date the dues are met first, some split of the surplus follows, and all ends settled in time. */
  predicate Plan(p: Problem, k: Key, steps: seq<Step>)
    requires KeyFits(p, k)
    decreases |steps|
  {
    if Settled(k) then steps == []
    else
      && steps != [] && k.event < p.horizon && Payable(p, k)
      && Splits(p, k, steps[0].extras) && steps[0] == StepFor(p, k, steps[0].extras)
      && Plan(p, Next(p, k, steps[0].extras), steps[1..])
  }

  function Cost(steps: seq<Step>): nat {
    if steps == [] then 0 else steps[0].interest + Cost(steps[1..])
  }

  /** No dearer than a plan, and no longer when equally dear. */
  predicate AtLeast(t: Tail, steps: seq<Step>) {
    t.found && (t.cost < Cost(steps) || (t.cost == Cost(steps) && |t.steps| <= |steps|))
  }

  predicate NoWorse(t: Tail, t': Tail) {
    t'.found ==> t.found && (t.cost < t'.cost || (t.cost == t'.cost && |t.steps| <= |t'.steps|))
  }

  predicate Sound(p: Problem, k: Key, t: Tail)
    requires KeyFits(p, k)
  {
    t.found ==> Plan(p, k, t.steps) && t.cost == Cost(t.steps)
  }

  /** The best of all plans from a key, or none because there is none. */
  ghost predicate Best(p: Problem, k: Key, t: Tail)
    requires KeyFits(p, k)
  {
    Sound(p, k, t) && forall steps: seq<Step> :: Plan(p, k, steps) ==> AtLeast(t, steps)
  }

  // ---------- Alignment ----------

  lemma AlignedParts(p: Problem, k: Key, i: nat)
    requires KeyFits(p, k) && Aligned(p, k) && i < |p.loans|
    ensures Accrued(p, k, i) % p.quantum == 0 && Required(p, k, i) % p.quantum == 0
    ensures LeftAfterDue(p, k, i) % p.quantum == 0
  {
    hide Accrued, KeyFits, Aligned;
    QuantumOf(p, k, i);
    AccruedIsAligned(p, k, i);
    AlignedDue(k.balances[i], Accrued(p, k, i), p.loans[i].contract.scheduledPayment, p.quantum);
  }

  lemma QuantumOf(p: Problem, k: Key, i: nat)
    requires KeyFits(p, k) && Aligned(p, k) && i < |p.loans|
    ensures |k.balances| == |p.loans| && p.quantum > 0 && k.balances[i] % p.quantum == 0
    ensures p.loans[i].contract.rounding.Unit() == p.quantum && p.loans[i].contract.scheduledPayment % p.quantum == 0
    ensures p.loans[i].contract.scheduledPayment > 0
  {
    hide DayNumber, Clamp;
  }

  lemma AccruedIsAligned(p: Problem, k: Key, i: nat)
    requires KeyFits(p, k) && i < |p.loans| && p.loans[i].contract.rounding.Unit() == p.quantum
    ensures Accrued(p, k, i) % p.quantum == 0
  {
    hide KeyFits, DaysBetween, Occurrence, Contract.Interest, Money.Policy.Unit, Problem.Valid, Problem.EventDate;
  }

  lemma AlignedDue(balance: nat, accrued: nat, scheduled: int, q: int)
    requires q > 0 && balance % q == 0 && accrued % q == 0 && scheduled % q == 0
    ensures var owed := balance + accrued;
            var required := if owed < scheduled then owed else scheduled;
            required % q == 0 && (owed - required) % q == 0
  {
    Money.MultiplesAdd(balance, accrued, q);
    Money.MultiplesSubtract(balance + accrued, if balance + accrued < scheduled then balance + accrued else scheduled, q);
  }

  /** A smaller multiple is smaller by a whole quantum. */
  lemma NextMultiple(a: int, b: int, q: int)
    requires q > 0 && a % q == 0 && b % q == 0 && a < b
    ensures a <= b - q
  {
    var m, n := a / q, b / q;
    assert a == q * m && b == q * n;
    if m >= n {
      Money.MulMonotone(n, m, q);
    } else {
      Money.MulMonotone(m, n - 1, q);
      assert (n - 1) * q == n * q - q;
    }
  }

  lemma {:induction false} RequiredIsAligned(p: Problem, k: Key, n: nat)
    requires KeyFits(p, k) && Aligned(p, k) && n <= |p.loans|
    ensures RequiredOf(p, k, n) % p.quantum == 0
  {
    hide Required, Accrued;
    if n > 0 {
      RequiredIsAligned(p, k, n - 1);
      AlignedParts(p, k, n - 1);
      Money.MultiplesAdd(RequiredOf(p, k, n - 1), Required(p, k, n - 1), p.quantum);
    }
  }

  lemma SurplusIsAligned(p: Problem, k: Key)
    requires KeyFits(p, k) && Aligned(p, k) && Payable(p, k)
    ensures Surplus(p, k) % p.quantum == 0
  {
    hide RequiredOf;
    RequiredIsAligned(p, k, |p.loans|);
    Money.MultiplesAdd(k.cash, p.monthly, p.quantum);
    Money.MultiplesSubtract(k.cash + p.monthly, RequiredOf(p, k, |p.loans|), p.quantum);
  }

  lemma {:induction false} SumIsAligned(s: seq<nat>, q: int)
    requires q > 0 && forall i :: 0 <= i < |s| ==> s[i] % q == 0
    ensures Sum(s) % q == 0
  {
    if s != [] {
      SumIsAligned(s[..|s| - 1], q);
      Money.MultiplesAdd(Sum(s[..|s| - 1]), s[|s| - 1], q);
    }
  }

  /** Every key a plan reaches is aligned, so counting down by quanta from the largest payment visits every split. */
  lemma AfterIsAligned(p: Problem, k: Key, extras: seq<nat>)
    requires KeyFits(p, k) && Aligned(p, k) && Payable(p, k) && Splits(p, k, extras) && k.event < p.horizon
    ensures Aligned(p, Next(p, k, extras))
  {
    hide RequiredOf, Required, Accrued, LeftAfterDue, Surplus, Sum;
    SurplusIsAligned(p, k);
    SumIsAligned(extras, p.quantum);
    Money.MultiplesSubtract(Surplus(p, k), Sum(extras), p.quantum);
    forall i | 0 <= i < |p.loans|
      ensures (LeftAfterDue(p, k, i) - extras[i]) % p.quantum == 0
    {
      AlignedParts(p, k, i);
      Money.MultiplesSubtract(LeftAfterDue(p, k, i), extras[i], p.quantum);
    }
  }

  lemma {:induction false} PrefixSum(s: seq<nat>, n: nat)
    requires n <= |s|
    ensures Sum(s[..n]) <= Sum(s)
    decreases |s| - n
  {
    if n < |s| {
      assert s[..n + 1][..n] == s[..n];
      PrefixSum(s, n + 1);
    } else {
      assert s[..n] == s;
    }
  }

  // ---------- The search ----------

  function DynamicAdd(a: nat, b: nat): (r: Result<nat>)
    ensures r == if b > 0 && a + b > Money.MAX_INT64 then Err(Overflow) else Ok(a + b)
  {
    if b > 0 && a > Money.MAX_INT64 - b then Err(Overflow) else Ok(a + b)
  }

  class Search {
    const p: Problem
    const limit: nat
    var work: nat
    var states: nat
    var truncated: bool
    var memo: map<Key, Tail>

    constructor (p: Problem, limit: nat)
      requires p.Valid()
      ensures Remembers()
      ensures this.p == p && this.limit == limit && work == 0 && states == 0 && !truncated && memo == map[]
    {
      this.p, this.limit := p, limit;
      work, states, truncated, memo := 0, 0, false, map[];
    }

    /** Only complete answers are remembered. */
    ghost predicate Remembers()
      reads this
    {
      work <= limit && p.Valid() && forall k :: k in memo ==> KeyFits(p, k) && Best(p, k, memo[k])
    }

    method Tick() returns (ok: bool)
      modifies `work, `truncated
      ensures ok <==> old(work) < limit
      ensures work == old(work) + (if ok then 1 else 0) && truncated == (old(truncated) || !ok)
    {
      if work >= limit {
        truncated := true;
        return false;
      }
      work := work + 1;
      return true;
    }

    /** Interest and dues of the next event, loan by loan, and the cash they leave; none when some due cannot be met. */
    method MeetDues(k: Key) returns (r: Result<Option<nat>>)
      requires KeyFits(p, k)
      ensures r.Err? ==> r.error == Overflow
      ensures r.Ok? ==> r.value == if Payable(p, k) then Some(Surplus(p, k)) else None
    {
      hide Accrued, Required;
      var cash :- DynamicAdd(k.cash, p.monthly);
      var interest := 0;
      for i := 0 to |p.loans|
        invariant RequiredOf(p, k, i) <= k.cash + p.monthly && cash == k.cash + p.monthly - RequiredOf(p, k, i)
        invariant interest == InterestOf(p, k, i)
      {
        interest :- DynamicAdd(interest, Accrued(p, k, i));
        var owed :- DynamicAdd(k.balances[i], Accrued(p, k, i));
        var required := Required(p, k, i);
        if required > cash {
          RequiredGrows(p, k, i + 1);
          return Ok(None);
        }
        cash := cash - required;
      }
      return Ok(Some(cash));
    }

    /** The best tail from a key, explored under the cap. */
    method Solve(k: Key) returns (r: Result<Tail>)
      requires Remembers() && KeyFits(p, k) && Aligned(p, k)
      modifies this
      ensures Remembers() && work >= old(work) && (old(truncated) ==> truncated) && (r.Err? ==> r.error == Overflow)
      ensures r.Ok? ==> Sound(p, k, r.value) && (!truncated ==> Best(p, k, r.value))
      decreases p.horizon - k.event, |p.loans| + 1
    {
      hide Payable, Next, Splits, Cost, StepFor, Plan, Settled, Aligned, AtLeast;
      if Settled(k) {
        NothingCostsLess(p, k);
        return Ok(Tail(true, 0, []));
      }
      if k.event == p.horizon {
        NoPlanWithout(p, k);
        return Ok(NO_PLAN);
      }
      if k in memo {
        return Ok(memo[k]);
      }
      var go := Tick();
      if !go {
        return Ok(NO_PLAN);
      }
      states := states + 1;
      var surplus :- MeetDues(k);
      if surplus.None? {
        NoPlanWithout(p, k);
        return Ok(NO_PLAN);
      }
      EmptySplit(p, k);
      var best :- Split(k, [], surplus.value, NO_PLAN);
      if !truncated {
        EveryPlanSplits(p, k, best);
        memo := memo[k := best];
      }
      return Ok(best);
    }

    /** Tries every payment on one loan, largest first, for each finishing the split and the plan; keeps the best. */
    method Split(k: Key, extras: seq<nat>, left: nat, best: Tail) returns (r: Result<Tail>)
      requires Remembers() && KeyFits(p, k) && Aligned(p, k) && !Settled(k) && k.event < p.horizon && Payable(p, k)
      requires Begun(p, k, extras) && left == Surplus(p, k) - Sum(extras) && Sound(p, k, best)
      modifies this
      ensures Remembers() && work >= old(work) && (old(truncated) ==> truncated) && (r.Err? ==> r.error == Overflow)
      ensures r.Ok? ==> Sound(p, k, r.value) && NoWorse(r.value, best)
      ensures r.Ok? && !truncated ==> forall steps: seq<Step> :: Extends(p, k, extras, steps) ==> AtLeast(r.value, steps)
      decreases p.horizon - k.event, |p.loans| - |extras|
    {
      hide Payable, LeftAfterDue, Surplus, Sum, Plan, Cost, KeyFits, Aligned, Next, StepFor, Settled, AtLeast, Best, Extends,
        Beyond;
      var go := Tick();
      if !go {
        return Ok(best);
      }
      if |extras| == |p.loans| {
        r := Finish(k, extras, best);
        return;
      }
      var i := |extras|;
      var balance := LeftAfterDue(p, k, i);
      var top := if balance < left then balance else left;
      TopIsAligned(p, k, extras);
      var kept := best;
      var amount: int := top;
      NothingBeyond(p, k, extras, top);
      while amount >= 0
        invariant amount <= top && amount % p.quantum == 0
        invariant Remembers() && work >= old(work) && (old(truncated) ==> truncated)
        invariant Sound(p, k, kept) && NoWorse(kept, best)
        invariant !truncated ==> forall steps: seq<Step> :: Beyond(p, k, extras, amount, steps) ==> AtLeast(kept, steps)
      {
        ghost var before := kept;
        Begin(p, k, extras, amount);
        kept :- Split(k, extras + [amount], left - amount, kept);
        if truncated {
          break;
        }
        ExtendsByOne(p, k, extras, amount, before, kept);
        Money.MultiplesSubtract(amount, p.quantum, p.quantum);
        amount := amount - p.quantum;
      }
      if !truncated {
        AllBeyond(p, k, extras, amount, kept);
      }
      return Ok(kept);
    }

    /** A finished split: the rest of the plan is solved, and kept if the whole is better. */
    method Finish(k: Key, extras: seq<nat>, best: Tail) returns (r: Result<Tail>)
      requires Remembers() && KeyFits(p, k) && Aligned(p, k) && !Settled(k) && k.event < p.horizon && Payable(p, k)
      requires Splits(p, k, extras) && Sound(p, k, best)
      modifies this
      ensures Remembers() && work >= old(work) && (old(truncated) ==> truncated) && (r.Err? ==> r.error == Overflow)
      ensures r.Ok? ==> Sound(p, k, r.value) && NoWorse(r.value, best)
      ensures r.Ok? && !truncated ==> forall steps: seq<Step> :: Extends(p, k, extras, steps) ==> AtLeast(r.value, steps)
      decreases p.horizon - k.event, 0, 0
    {
      hide Payable, LeftAfterDue, Surplus, Sum, Aligned, Splits, Next, StepFor, Settled, Cost, Plan, AtLeast, KeyFits;
      var next := Next(p, k, extras);
      AfterIsAligned(p, k, extras);
      var tail :- Solve(next);
      var step := StepFor(p, k, extras);
      if !tail.found {
        NoTailNoPlan(p, k, extras, tail);
        return Ok(best);
      }
      var cost :- DynamicAdd(step.interest, tail.cost);
      var whole := Tail(true, cost, [step] + tail.steps);
      WholeIsSound(p, k, extras, tail);
      var kept := if !best.found || cost < best.cost || (cost == best.cost && |tail.steps| + 1 < |best.steps|) then whole else best;
      if !truncated {
        WholeIsBest(p, k, extras, tail, kept);
      }
      return Ok(kept);
    }
  }

  // ---------- Splits in progress ----------

  /** The start of a split: whole quanta on the first loans, within balances and the surplus. */
  predicate Begun(p: Problem, k: Key, extras: seq<nat>)
    requires KeyFits(p, k) && Payable(p, k)
  {
    && |extras| <= |p.loans| && Sum(extras) <= Surplus(p, k)
    && forall i :: 0 <= i < |extras| ==> extras[i] % p.quantum == 0 && extras[i] <= LeftAfterDue(p, k, i)
  }

  /** A plan whose first split begins a given way. */
  ghost predicate Extends(p: Problem, k: Key, extras: seq<nat>, steps: seq<Step>)
    requires KeyFits(p, k) && !Settled(k)
  {
    Plan(p, k, steps) && |extras| <= |steps[0].extras| == |p.loans| && steps[0].extras[..|extras|] == extras
  }

  /** A plan whose first split begins a given way and pays the next loan more than an amount. */
  ghost predicate Beyond(p: Problem, k: Key, extras: seq<nat>, amount: int, steps: seq<Step>)
    requires KeyFits(p, k) && !Settled(k)
  {
    Extends(p, k, extras, steps) && |extras| < |p.loans| && steps[0].extras[|extras|] > amount
  }

  lemma {:induction false} RequiredGrows(p: Problem, k: Key, n: nat)
    requires KeyFits(p, k) && n <= |p.loans|
    ensures RequiredOf(p, k, n) <= RequiredOf(p, k, |p.loans|)
    decreases |p.loans| - n
  {
    hide Required;
    if n < |p.loans| {
      RequiredGrows(p, k, n + 1);
    }
  }

  lemma EmptySplit(p: Problem, k: Key)
    requires KeyFits(p, k) && Payable(p, k)
    ensures Begun(p, k, []) && Sum([]) == 0 && Sound(p, k, NO_PLAN)
  {
    hide Payable, Surplus;
  }

  lemma NothingCostsLess(p: Problem, k: Key)
    requires KeyFits(p, k) && Settled(k)
    ensures Best(p, k, Tail(true, 0, []))
  {
  }

  lemma NoPlanWithout(p: Problem, k: Key)
    requires KeyFits(p, k) && !Settled(k) && (k.event == p.horizon || !Payable(p, k))
    ensures Best(p, k, NO_PLAN)
  {
  }

  lemma EveryPlanSplits(p: Problem, k: Key, t: Tail)
    requires KeyFits(p, k) && !Settled(k) && Sound(p, k, t)
    requires forall steps: seq<Step> :: Extends(p, k, [], steps) ==> AtLeast(t, steps)
    ensures Best(p, k, t)
  {
    hide Payable, Next, StepFor, Cost, AtLeast;
    forall steps: seq<Step> | Plan(p, k, steps)
      ensures AtLeast(t, steps)
    {
      assert Extends(p, k, [], steps);
    }
  }

  lemma TopIsAligned(p: Problem, k: Key, extras: seq<nat>)
    requires KeyFits(p, k) && Aligned(p, k) && Payable(p, k) && Begun(p, k, extras) && |extras| < |p.loans|
    ensures LeftAfterDue(p, k, |extras|) % p.quantum == 0 && (Surplus(p, k) - Sum(extras)) % p.quantum == 0
  {
    hide Payable, LeftAfterDue, Surplus, Sum, Aligned;
    AlignedParts(p, k, |extras|);
    SurplusIsAligned(p, k);
    SumIsAligned(extras, p.quantum);
    Money.MultiplesSubtract(Surplus(p, k), Sum(extras), p.quantum);
  }

  /** No plan pays one loan more than what is owed and what is left. */
  lemma NothingBeyond(p: Problem, k: Key, extras: seq<nat>, top: nat)
    requires KeyFits(p, k) && !Settled(k) && Payable(p, k) && Begun(p, k, extras) && |extras| < |p.loans|
    requires var balance, left := LeftAfterDue(p, k, |extras|), Surplus(p, k) - Sum(extras);
             top == if balance < left then balance else left
    ensures forall steps: seq<Step> :: !Beyond(p, k, extras, top, steps)
  {
    hide LeftAfterDue, Surplus, RequiredOf;
    forall steps: seq<Step> | Extends(p, k, extras, steps)
      ensures steps[0].extras[|extras|] <= top
    {
      var e, i := steps[0].extras, |extras|;
      PrefixSum(e, i + 1);
      assert e[..i + 1][..i] == e[..i];
    }
  }

  lemma Begin(p: Problem, k: Key, extras: seq<nat>, amount: nat)
    requires KeyFits(p, k) && Payable(p, k) && Begun(p, k, extras) && |extras| < |p.loans| && amount % p.quantum == 0
    requires amount <= LeftAfterDue(p, k, |extras|) && amount <= Surplus(p, k) - Sum(extras)
    ensures Begun(p, k, extras + [amount]) && Sum(extras + [amount]) == Sum(extras) + amount
    ensures |extras| + 1 == |p.loans| ==> Splits(p, k, extras + [amount])
  {
    hide LeftAfterDue, Surplus, Payable;
    assert (extras + [amount])[..|extras|] == extras;
  }

  /** A plan that pays at least the amount tried next either pays more, or pays exactly that. */
  lemma ExtendsByOne(p: Problem, k: Key, extras: seq<nat>, amount: nat, before: Tail, kept: Tail)
    requires KeyFits(p, k) && !Settled(k) && |extras| < |p.loans| && amount % p.quantum == 0 && NoWorse(kept, before)
    requires forall steps: seq<Step> :: Beyond(p, k, extras, amount, steps) ==> AtLeast(before, steps)
    requires forall steps: seq<Step> :: Extends(p, k, extras + [amount], steps) ==> AtLeast(kept, steps)
    ensures forall steps: seq<Step> :: Beyond(p, k, extras, amount - p.quantum, steps) ==> AtLeast(kept, steps)
  {
    hide Payable, Next, StepFor, Cost;
    forall steps: seq<Step> | Beyond(p, k, extras, amount - p.quantum, steps)
      ensures AtLeast(kept, steps)
    {
      var e := steps[0].extras;
      if e[|extras|] < amount {
        NextMultiple(e[|extras|], amount, p.quantum);
      } else if e[|extras|] == amount {
        assert e[..|extras| + 1] == extras + [amount];
        assert Extends(p, k, extras + [amount], steps);
      } else {
        assert AtLeast(before, steps);
      }
    }
  }

  lemma AllBeyond(p: Problem, k: Key, extras: seq<nat>, amount: int, kept: Tail)
    requires KeyFits(p, k) && !Settled(k) && |extras| < |p.loans| && amount < 0
    requires forall steps: seq<Step> :: Beyond(p, k, extras, amount, steps) ==> AtLeast(kept, steps)
    ensures forall steps: seq<Step> :: Extends(p, k, extras, steps) ==> AtLeast(kept, steps)
  {
    hide Payable, Next, StepFor, Cost, AtLeast;
    forall steps: seq<Step> | Extends(p, k, extras, steps)
      ensures AtLeast(kept, steps)
    {
      assert Beyond(p, k, extras, amount, steps);
    }
  }

  lemma NoTailNoPlan(p: Problem, k: Key, extras: seq<nat>, tail: Tail)
    requires KeyFits(p, k) && !Settled(k) && k.event < p.horizon && Payable(p, k) && Splits(p, k, extras) && !tail.found
    ensures Best(p, Next(p, k, extras), tail) ==> forall steps: seq<Step> :: !Extends(p, k, extras, steps)
  {
    hide Payable, Next, StepFor;
    forall steps: seq<Step> | Extends(p, k, extras, steps) && Best(p, Next(p, k, extras), tail)
      ensures false
    {
      assert steps[0].extras == extras;
      assert Plan(p, Next(p, k, extras), steps[1..]);
    }
  }

  lemma WholeIsSound(p: Problem, k: Key, extras: seq<nat>, tail: Tail)
    requires KeyFits(p, k) && !Settled(k) && k.event < p.horizon && Payable(p, k) && Splits(p, k, extras)
    requires tail.found && Sound(p, Next(p, k, extras), tail)
    ensures var step := StepFor(p, k, extras);
            Sound(p, k, Tail(true, step.interest + tail.cost, [step] + tail.steps))
  {
    hide Payable, Splits, Next;
    var steps := [StepFor(p, k, extras)] + tail.steps;
    assert steps[1..] == tail.steps;
  }

  lemma WholeIsBest(p: Problem, k: Key, extras: seq<nat>, tail: Tail, kept: Tail)
    requires KeyFits(p, k) && !Settled(k) && k.event < p.horizon && Payable(p, k) && Splits(p, k, extras)
    requires tail.found && Best(p, Next(p, k, extras), tail)
    requires var step := StepFor(p, k, extras);
             NoWorse(kept, Tail(true, step.interest + tail.cost, [step] + tail.steps))
    ensures forall steps: seq<Step> :: Extends(p, k, extras, steps) ==> AtLeast(kept, steps)
  {
    hide Payable, Next;
    forall steps: seq<Step> | Extends(p, k, extras, steps)
      ensures AtLeast(kept, steps)
    {
      assert steps[0].extras == extras;
      assert Plan(p, Next(p, k, extras), steps[1..]);
      assert AtLeast(tail, steps[1..]);
    }
  }

  // ---------- What a plan adds up to ----------

  function Paid(steps: seq<Step>): nat {
    if steps == [] then 0 else Sum(steps[0].required) + Sum(steps[0].extras) + Paid(steps[1..])
  }

  function CashAtEnd(k: Key, steps: seq<Step>): nat {
    if steps == [] then k.cash else steps[|steps| - 1].cash
  }

  /** One due date, over the first n loans: what was owed and charged is paid or still owed. */
  lemma {:induction false} StepBalances(p: Problem, k: Key, extras: seq<nat>, n: nat)
    requires KeyFits(p, k) && Payable(p, k) && Splits(p, k, extras) && k.event < p.horizon && n <= |p.loans|
    ensures Sum(k.balances[..n]) + InterestOf(p, k, n)
            == RequiredOf(p, k, n) + Sum(extras[..n]) + Sum(Next(p, k, extras).balances[..n])
    ensures Sum(StepFor(p, k, extras).required[..n]) == RequiredOf(p, k, n)
  {
    hide Accrued, Required, Payable, Surplus;
    var next, step := Next(p, k, extras), StepFor(p, k, extras);
    if n > 0 {
      StepBalances(p, k, extras, n - 1);
      assert k.balances[..n][..n - 1] == k.balances[..n - 1] && extras[..n][..n - 1] == extras[..n - 1];
      assert next.balances[..n][..n - 1] == next.balances[..n - 1] && step.required[..n][..n - 1] == step.required[..n - 1];
    }
  }

  lemma StepConserves(p: Problem, k: Key, extras: seq<nat>)
    requires KeyFits(p, k) && Payable(p, k) && Splits(p, k, extras) && k.event < p.horizon
    ensures var next, step := Next(p, k, extras), StepFor(p, k, extras);
            var paid := Sum(step.required) + Sum(extras);
            && Sum(k.balances) + step.interest == paid + Sum(next.balances)
            && k.cash + p.monthly == paid + next.cash && next.cash == step.cash && step.extras == extras
  {
    hide InterestOf, LeftAfterDue, Sum, Required;
    StepBalances(p, k, extras, |p.loans|);
    AllOf(k.balances, extras, Next(p, k, extras).balances, StepFor(p, k, extras).required, |p.loans|);
  }

  /**
   A plan pays off every balance and all interest, no more and no less, from the cash carried
   and one funding for each due date; nothing is lost on the way.
   */
  lemma {:induction false} PlanConserves(p: Problem, k: Key, steps: seq<Step>)
    requires KeyFits(p, k) && Plan(p, k, steps)
    ensures Paid(steps) == Sum(k.balances) + Cost(steps)
    ensures k.cash + |steps| * p.monthly == Paid(steps) + CashAtEnd(k, steps)
    ensures k.event + |steps| <= p.horizon
    decreases |steps|
  {
    hide Splits, Next, StepFor, Payable, Sum, Settled;
    if Settled(k) {
      NothingToSum(k.balances) by { SettledIsZero(k); }
    } else {
      StepConserves(p, k, steps[0].extras);
      PlanConserves(p, Next(p, k, steps[0].extras), steps[1..]);
      assert |steps| * p.monthly == p.monthly + (|steps| - 1) * p.monthly;
    }
  }

  lemma SettledIsZero(k: Key)
    requires Settled(k)
    ensures forall i :: 0 <= i < |k.balances| ==> k.balances[i] == 0
  {
  }

  lemma AllOf(a: seq<nat>, b: seq<nat>, c: seq<nat>, d: seq<nat>, n: nat)
    requires |a| == |b| == |c| == |d| == n
    ensures a[..n] == a && b[..n] == b && c[..n] == c && d[..n] == d
  {
  }

  lemma {:induction false} NothingToSum(s: seq<nat>)
    requires forall i :: 0 <= i < |s| ==> s[i] == 0
    ensures Sum(s) == 0
  {
    if s != [] {
      NothingToSum(s[..|s| - 1]);
    }
  }

  // ---------- A plan as a schedule ----------

  /** What each loan owes before every due date and after the last, from the day the debt is stated, and what it is charged. */
  datatype Trail = Trail(dates: seq<Date>, owed: seq<seq<nat>>, charged: seq<seq<nat>>)

  /** Each loan is charged its contract's interest on what it owes, for the days from one date to the next. */
  predicate Charges(p: Problem, from: Date, on: Date, owed: seq<nat>, charged: seq<nat>) {
    && |charged| == |owed| == |p.loans| && IsSet(from) && IsSet(on) && DaysBetween(from, on) > 0
    && forall i :: 0 <= i < |owed| ==> charged[i] == p.loans[i].contract.Interest(owed[i], DaysBetween(from, on))
  }

  /**
   One due date settled: every loan pays its instalment, or all it owes where that is less, and
   perhaps whole quanta more; what it owed and was charged is paid or still owed, and the cash
   carried and one funding are paid out or carried on.
   */
  predicate Settles(p: Problem, cash: nat, owed: seq<nat>, charged: seq<nat>, step: Step, left: seq<nat>) {
    && |owed| == |charged| == |step.required| == |step.extras| == |left| == |p.loans| && p.quantum > 0
    && (forall i :: 0 <= i < |owed| ==>
          var due := owed[i] + charged[i];
          && step.required[i] == (if due < p.loans[i].contract.scheduledPayment then due else p.loans[i].contract.scheduledPayment)
          && step.extras[i] % p.quantum == 0 && due == step.required[i] + step.extras[i] + left[i])
    && step.interest == Sum(charged)
    && cash + p.monthly == Sum(step.required) + Sum(step.extras) + step.cash
  }

  predicate AllZero(owed: seq<nat>) {
    forall i :: 0 <= i < |owed| ==> owed[i] == 0
  }

  /** One due date of a schedule: interest from the date before, something owed, and the due settled. */
  predicate DueDate(p: Problem, event: nat, from: Date, cash: nat, owed: seq<nat>, charged: seq<nat>, step: Step, left: seq<nat>)
    requires IsSet(p.valuation)
  {
    && step.on == Occurrence(p.valuation, p.day, event + 1) && !AllZero(owed)
    && Charges(p, from, step.on, owed, charged) && Settles(p, cash, owed, charged, step, left)
  }

  function CashBefore(k: Key, steps: seq<Step>, n: nat): nat
    requires n <= |steps|
  {
    if n == 0 then k.cash else steps[n - 1].cash
  }

  /**
   A schedule: due dates on the payment day of successive months, interest charged from each to
   the next without gap or overlap, every due met, and everything settled on the last of them and
   not before.
   */
  ghost predicate Schedule(p: Problem, k: Key, steps: seq<Step>, trail: Trail)
    requires KeyFits(p, k)
  {
    && |trail.dates| == |trail.owed| == |steps| + 1 && |trail.charged| == |steps| && k.event + |steps| <= p.horizon
    && trail.dates[0] == (if k.event == 0 then p.valuation else Occurrence(p.valuation, p.day, k.event))
    && trail.owed[0] == k.balances
    && (forall n :: 0 <= n < |steps| ==>
          && trail.dates[n + 1] == steps[n].on
          && DueDate(p, k.event + n, trail.dates[n], CashBefore(k, steps, n), trail.owed[n], trail.charged[n], steps[n],
                     trail.owed[n + 1]))
    && AllZero(trail.owed[|steps|])
  }

  ghost predicate Scheduled(p: Problem, k: Key, steps: seq<Step>)
    requires KeyFits(p, k)
  {
    exists trail: Trail :: Schedule(p, k, steps, trail)
  }

  /** Successive due dates are days apart, and so is the first from the valuation. */
  lemma DueDatesAreApart(p: Problem, event: nat)
    requires p.Valid()
    ensures DaysBetween(p.EventDate(event), Occurrence(p.valuation, p.day, event + 1)) > 0
  {
    hide DayNumber;
    LaterMonthIsAfter(p.EventDate(event), Occurrence(p.valuation, p.day, event + 1));
    CompareIsDayOrder(p.EventDate(event), Occurrence(p.valuation, p.day, event + 1));
  }

  function ChargesAt(p: Problem, k: Key): (charged: seq<nat>)
    requires KeyFits(p, k)
    ensures |charged| == |p.loans|
  {
    seq(|p.loans|, i requires 0 <= i < |p.loans| => Accrued(p, k, i))
  }

  lemma ChargesAreAccrued(p: Problem, k: Key, charged: seq<nat>)
    requires KeyFits(p, k)
    ensures Charges(p, p.EventDate(k.event), Occurrence(p.valuation, p.day, k.event + 1), k.balances, charged)
            <==> charged == ChargesAt(p, k)
    ensures Sum(ChargesAt(p, k)) == InterestOf(p, k, |p.loans|)
  {
    hide Contract.Interest, DayNumber, Clamp, Occurrence, DaysBetween;
    DueDatesAreApart(p, k.event);
    InterestAddsUp(p, k, |p.loans|);
    assert ChargesAt(p, k)[..|p.loans|] == ChargesAt(p, k);
  }

  lemma {:induction false} InterestAddsUp(p: Problem, k: Key, n: nat)
    requires KeyFits(p, k) && n <= |p.loans|
    ensures Sum(ChargesAt(p, k)[..n]) == InterestOf(p, k, n)
  {
    hide Accrued;
    if n > 0 {
      InterestAddsUp(p, k, n - 1);
      assert ChargesAt(p, k)[..n][..n - 1] == ChargesAt(p, k)[..n - 1];
    }
  }

  /** A step of a plan settles its due date, and leaves what the next key owes. */
  lemma StepSettles(p: Problem, k: Key, extras: seq<nat>)
    requires KeyFits(p, k) && Payable(p, k) && Splits(p, k, extras) && k.event < p.horizon
    ensures Settles(p, k.cash, k.balances, ChargesAt(p, k), StepFor(p, k, extras), Next(p, k, extras).balances)
  {
    hide Accrued, Sum, InterestOf, Surplus, KeyFits;
    ChargesAreAccrued(p, k, ChargesAt(p, k));
    StepConserves(p, k, extras);
    KeyHasQuantum(p, k);
  }

  lemma KeyHasQuantum(p: Problem, k: Key)
    requires KeyFits(p, k)
    ensures p.quantum > 0 && |k.balances| == |p.loans| && IsSet(p.valuation)
    ensures forall i :: 0 <= i < |p.loans| ==> p.loans[i].contract.scheduledPayment > 0
  {
  }

  /** A due date settled from a key is a step of a plan, whatever is paid beyond the dues. */
  lemma SettledIsAStep(p: Problem, k: Key, step: Step, left: seq<nat>)
    requires KeyFits(p, k) && k.event < p.horizon && step.on == Occurrence(p.valuation, p.day, k.event + 1)
    requires Settles(p, k.cash, k.balances, ChargesAt(p, k), step, left)
    ensures Payable(p, k) && Splits(p, k, step.extras) && step == StepFor(p, k, step.extras)
    ensures Next(p, k, step.extras) == Key(k.event + 1, step.cash, left)
  {
    hide Accrued, Sum, InterestOf, KeyFits, Occurrence, Required, LeftAfterDue, RequiredOf, Settles, ChargesAt;
    KeyHasQuantum(p, k);
    ChargesAreAccrued(p, k, ChargesAt(p, k));
    SettledDues(p, k, step, left);
    RequiredAddsUp(p, k, step.required, |p.loans|);
    assert step.required[..|p.loans|] == step.required;
    assert step.required == seq(|p.loans|, i requires 0 <= i < |p.loans| => Required(p, k, i));
    assert left == seq(|p.loans|, i requires 0 <= i < |p.loans| => LeftAfterDue(p, k, i) - step.extras[i]);
  }

  lemma SettledDues(p: Problem, k: Key, step: Step, left: seq<nat>)
    requires KeyFits(p, k) && Settles(p, k.cash, k.balances, ChargesAt(p, k), step, left)
    ensures |step.required| == |step.extras| == |left| == |p.loans| && step.interest == Sum(ChargesAt(p, k))
    ensures k.cash + p.monthly == Sum(step.required) + Sum(step.extras) + step.cash
    ensures forall i :: 0 <= i < |p.loans| ==>
              && step.required[i] == Required(p, k, i) && step.extras[i] % p.quantum == 0
              && left[i] == LeftAfterDue(p, k, i) - step.extras[i]
  {
    hide Accrued, Sum, KeyFits;
    KeyHasQuantum(p, k);
  }

  lemma {:induction false} RequiredAddsUp(p: Problem, k: Key, required: seq<nat>, n: nat)
    requires KeyFits(p, k) && n <= |p.loans| == |required| && forall i :: 0 <= i < |p.loans| ==> required[i] == Required(p, k, i)
    ensures Sum(required[..n]) == RequiredOf(p, k, n)
  {
    hide Required;
    if n > 0 {
      RequiredAddsUp(p, k, required, n - 1);
      assert required[..n][..n - 1] == required[..n - 1];
    }
  }

  lemma {:induction false} PlanIsScheduled(p: Problem, k: Key, steps: seq<Step>)
    requires KeyFits(p, k) && Plan(p, k, steps)
    ensures Scheduled(p, k, steps)
    decreases |steps|
  {
    hide Splits, Next, StepFor, Payable, Charges, Settles, ChargesAt;
    if Settled(k) {
      assert Schedule(p, k, steps, Trail([p.EventDate(k.event)], [k.balances], []));
    } else {
      var next := Next(p, k, steps[0].extras);
      PlanIsScheduled(p, next, steps[1..]);
      var rest: Trail :| Schedule(p, next, steps[1..], rest);
      ChargesAreAccrued(p, k, ChargesAt(p, k));
      StepSettles(p, k, steps[0].extras);
      StepGoesOn(p, k, steps[0].extras);
      OneStepMore(p, k, steps, next, ChargesAt(p, k), rest);
    }
  }

  lemma StepGoesOn(p: Problem, k: Key, extras: seq<nat>)
    requires KeyFits(p, k) && Payable(p, k) && Splits(p, k, extras) && k.event < p.horizon
    ensures StepFor(p, k, extras).on == Occurrence(p.valuation, p.day, k.event + 1)
    ensures Next(p, k, extras).cash == StepFor(p, k, extras).cash && Next(p, k, extras).event == k.event + 1
  {
    hide Accrued, Sum, InterestOf, Surplus;
  }

  lemma NextEventDate(p: Problem, k: Key, next: Key)
    requires KeyFits(p, k) && KeyFits(p, next) && next.event == k.event + 1
    ensures p.EventDate(k.event) == if k.event == 0 then p.valuation else Occurrence(p.valuation, p.day, k.event)
    ensures k.event + 1 <= p.horizon
  {
  }

  lemma CashCarriesOn(k: Key, next: Key, steps: seq<Step>, n: nat)
    requires n < |steps| && next.cash == steps[0].cash
    ensures CashBefore(k, steps, n) == if n == 0 then k.cash else CashBefore(next, steps[1..], n - 1)
  {
  }

  lemma OneStepMore(p: Problem, k: Key, steps: seq<Step>, next: Key, charged: seq<nat>, rest: Trail)
    requires KeyFits(p, k) && KeyFits(p, next) && steps != [] && !Settled(k) && next.event == k.event + 1 && next.cash == steps[0].cash
    requires DueDate(p, k.event, p.EventDate(k.event), k.cash, k.balances, charged, steps[0], next.balances)
    requires Schedule(p, next, steps[1..], rest) && rest.dates[0] == steps[0].on
    ensures Scheduled(p, k, steps)
  {
    hide DueDate, Occurrence, AllZero, KeyFits, Settled, CashBefore;
    KeyHasQuantum(p, k);
    NextEventDate(p, k, next);
    var from := p.EventDate(k.event);
    var trail := Trail([from] + rest.dates, [k.balances] + rest.owed, [charged] + rest.charged);
    forall n | 0 <= n < |steps|
      ensures trail.dates[n + 1] == steps[n].on
      ensures DueDate(p, k.event + n, trail.dates[n], CashBefore(k, steps, n), trail.owed[n], trail.charged[n], steps[n],
                      trail.owed[n + 1])
    {
      CashCarriesOn(k, next, steps, n);
      if n > 0 {
        assert steps[1..][n - 1] == steps[n];
        assert rest.dates[n] == steps[1..][n - 1].on;
        assert DueDate(p, next.event + (n - 1), rest.dates[n - 1], CashBefore(next, steps[1..], n - 1), rest.owed[n - 1],
                       rest.charged[n - 1], steps[1..][n - 1], rest.owed[n]);
      }
    }
    assert Schedule(p, k, steps, trail);
  }

  lemma NothingScheduled(p: Problem, k: Key, trail: Trail)
    requires KeyFits(p, k) && Schedule(p, k, [], trail)
    ensures Settled(k)
  {
    hide DueDate;
  }

  lemma DueDateIsAStep(p: Problem, k: Key, steps: seq<Step>, trail: Trail)
    requires KeyFits(p, k) && steps != [] && Schedule(p, k, steps, trail)
    ensures |trail.dates| == |trail.owed| == |steps| + 1 && |trail.charged| == |steps|
    ensures !Settled(k) && k.event < p.horizon && Payable(p, k) && Splits(p, k, steps[0].extras)
    ensures steps[0] == StepFor(p, k, steps[0].extras)
    ensures Next(p, k, steps[0].extras) == Key(k.event + 1, steps[0].cash, trail.owed[1])
  {
    hide Splits, Next, StepFor, Payable, Charges, Settles, ChargesAt, KeyFits, Occurrence;
    KeyHasQuantum(p, k);
    assert CashBefore(k, steps, 0) == k.cash;
    assert DueDate(p, k.event + 0, trail.dates[0], k.cash, trail.owed[0], trail.charged[0], steps[0], trail.owed[1]);
    ChargesAreAccrued(p, k, trail.charged[0]);
    SettledIsAStep(p, k, steps[0], trail.owed[1]);
  }

  lemma {:induction false} ScheduleIsAPlan(p: Problem, k: Key, steps: seq<Step>, trail: Trail)
    requires KeyFits(p, k) && Schedule(p, k, steps, trail)
    ensures Plan(p, k, steps)
    decreases |steps|
  {
    hide Splits, Next, StepFor, Payable, Schedule, Settled;
    if steps == [] {
      NothingScheduled(p, k, trail);
    } else {
      DueDateIsAStep(p, k, steps, trail);
      var next := Next(p, k, steps[0].extras);
      OneStepLess(p, k, steps, next, trail);
      ScheduleIsAPlan(p, next, steps[1..], Trail(trail.dates[1..], trail.owed[1..], trail.charged[1..]));
    }
  }

  lemma DueDateIsOn(p: Problem, event: nat, from: Date, cash: nat, owed: seq<nat>, charged: seq<nat>, step: Step, left: seq<nat>)
    requires IsSet(p.valuation) && DueDate(p, event, from, cash, owed, charged, step, left)
    ensures step.on == Occurrence(p.valuation, p.day, event + 1) && |left| == |p.loans|
  {
  }

  lemma OneStepLess(p: Problem, k: Key, steps: seq<Step>, next: Key, trail: Trail)
    requires KeyFits(p, k) && KeyFits(p, next) && steps != [] && Schedule(p, k, steps, trail)
    requires next == Key(k.event + 1, steps[0].cash, trail.owed[1])
    ensures Schedule(p, next, steps[1..], Trail(trail.dates[1..], trail.owed[1..], trail.charged[1..]))
  {
    hide DueDate, Occurrence, AllZero, Problem.Valid;
    KeyHasQuantum(p, k);
    var rest := Trail(trail.dates[1..], trail.owed[1..], trail.charged[1..]);
    forall n | 0 <= n < |steps| - 1
      ensures rest.dates[n + 1] == steps[1..][n].on
      ensures DueDate(p, next.event + n, rest.dates[n], CashBefore(next, steps[1..], n), rest.owed[n], rest.charged[n],
                      steps[1..][n], rest.owed[n + 1])
    {
      assert CashBefore(next, steps[1..], n) == CashBefore(k, steps, n + 1);
      assert DueDate(p, k.event + (n + 1), trail.dates[n + 1], CashBefore(k, steps, n + 1), trail.owed[n + 1], trail.charged[n + 1],
                     steps[n + 1], trail.owed[n + 2]);
      assert trail.dates[n + 2] == steps[n + 1].on;
    }
    assert trail.dates[1] == steps[0].on && DueDate(p, k.event, trail.dates[0], CashBefore(k, steps, 0), trail.owed[0],
                                                    trail.charged[0], steps[0], trail.owed[1]);
    DueDateIsOn(p, k.event, trail.dates[0], CashBefore(k, steps, 0), trail.owed[0], trail.charged[0], steps[0], trail.owed[1]);
  }

  /**
   The plans searched are exactly the schedules: no day is charged twice or left out, nothing else
   is charged, and no way of meeting the dues and splitting the rest is missed.
   */
  lemma PlansAreTheSchedules(p: Problem, k: Key, steps: seq<Step>)
    requires KeyFits(p, k)
    ensures Plan(p, k, steps) <==> Scheduled(p, k, steps)
  {
    hide Plan, Schedule;
    if Plan(p, k, steps) {
      PlanIsScheduled(p, k, steps);
    }
    if Scheduled(p, k, steps) {
      var trail: Trail :| Schedule(p, k, steps, trail);
      ScheduleIsAPlan(p, k, steps, trail);
    }
  }

  lemma PlansAreExactlySchedules(p: Problem, k: Key)
    requires KeyFits(p, k)
    ensures forall steps: seq<Step> :: Plan(p, k, steps) <==> Scheduled(p, k, steps)
  {
    hide Plan, Scheduled;
    forall steps: seq<Step> ensures Plan(p, k, steps) <==> Scheduled(p, k, steps) {
      PlansAreTheSchedules(p, k, steps);
    }
  }

  // ---------- The request ----------

  /** The reduced domain: synchronized fixed-instalment, fee-free loans on one calendar with constant funding. */
  predicate Domain(in_: Input) {
    var cash := in_.cash;
    && 0 < |in_.loans| <= 3
    && !in_.Separate() && cash.monthlyOverrides == map[] && cash.lumps == [] && cash.reserveFloor == 0 && !IsSet(cash.cashThrough)
    && (var first := in_.loans[0].contract;
        && 1 <= first.paymentDay <= 28 && in_.valuation.d == first.paymentDay && cash.payDay == 0
        && first.rounding.unit > 0
        && cash.monthly % first.rounding.unit == 0 && cash.openingCash % first.rounding.unit == 0
        && forall i :: 0 <= i < |in_.loans| ==> LoanInDomain(in_, in_.loans[i], first))
  }

  predicate LoanInDomain(in_: Input, l: Position, first: Contract)
    requires first.rounding.unit > 0
  {
    var c := l.contract;
    && l.from == in_.valuation && l.balance > 0 && !l.optionalExcluded
    && c.kind == Annuity && c.prepayment.effect == ShortenTerm && c.hasScheduled && c.scheduledPayment > 0
    && c.paymentDay == first.paymentDay && !IsSet(c.notBeforeDue) && !IsSet(c.effectiveThru)
    && (c.dayCount == Money.Actual365 || c.dayCount == Money.Actual360)
    && c.rounding == first.rounding
    && l.balance % first.rounding.unit == 0 && c.scheduledPayment % first.rounding.unit == 0
    && l.excess == ReducePrincipal && c.prepayment.charges == [] && c.prepayment.feeBP == 0 && c.prepayment.minAmount == 0
  }

  /** The request with its defaults filled in. */
  function EffectiveHorizon(in_: Input, horizon: int): int {
    if horizon != 0 then horizon else if in_.horizon != 0 then in_.horizon else 12
  }

  predicate Supported(in_: Input, horizon: int, maxStates: int, quantum: int) {
    var h, cap := EffectiveHorizon(in_, horizon), if maxStates == 0 then 10_000 else maxStates;
    && Accepted(in_) && UniqueIds(in_.loans) && !(in_.horizon > 0 && h > in_.horizon)
    && 1 <= h <= 24 && 1 <= cap <= 100_000 && Domain(in_)
    && (forall i :: 0 <= i < |in_.loans| ==>
          Dates.After(in_.loans[i].contract.maturity, Occurrence(in_.valuation, in_.loans[i].contract.paymentDay, h)))
    && (quantum == 0 || quantum == in_.loans[0].contract.rounding.unit)
  }

  function ProblemOf(in_: Input, horizon: int): Problem
    requires |in_.loans| > 0 && in_.cash.monthly >= 0 && EffectiveHorizon(in_, horizon) >= 0
  {
    var first := in_.loans[0].contract;
    Problem(in_.loans, in_.valuation, first.paymentDay, in_.cash.monthly, first.rounding.unit, EffectiveHorizon(in_, horizon))
  }

  function StartOf(in_: Input): Key
    requires in_.cash.openingCash >= 0 && forall i :: 0 <= i < |in_.loans| ==> in_.loans[i].balance >= 0
  {
    Key(0, in_.cash.openingCash, seq(|in_.loans|, i requires 0 <= i < |in_.loans| => in_.loans[i].balance))
  }

  lemma SupportedFits(in_: Input, horizon: int, maxStates: int, quantum: int)
    requires Supported(in_, horizon, maxStates, quantum)
    ensures in_.cash.monthly >= 0 && in_.cash.openingCash >= 0
    ensures forall i :: 0 <= i < |in_.loans| ==> in_.loans[i].balance > 0
    ensures KeyFits(ProblemOf(in_, horizon), StartOf(in_)) && Aligned(ProblemOf(in_, horizon), StartOf(in_))
    ensures !Settled(StartOf(in_))
  {
    hide RoutingValid, DayNumber, Occurrence;
    assert StartOf(in_).balances[0] > 0;
  }

  function OpeningDebt(loans: seq<Position>): int {
    if loans == [] then 0 else OpeningDebt(loans[..|loans| - 1]) + loans[|loans| - 1].balance
  }

  lemma {:induction false} BalancesAddUp(in_: Input, n: nat)
    requires in_.cash.openingCash >= 0 && n <= |in_.loans| && forall i :: 0 <= i < |in_.loans| ==> in_.loans[i].balance >= 0
    ensures Sum(StartOf(in_).balances[..n]) == OpeningDebt(in_.loans[..n])
  {
    if n > 0 {
      BalancesAddUp(in_, n - 1);
      assert in_.loans[..n][..n - 1] == in_.loans[..n - 1] && StartOf(in_).balances[..n][..n - 1] == StartOf(in_).balances[..n - 1];
    }
  }

  /** What a reported schedule pays is the debts and interest; it comes out of the opening cash and one funding a due date. */
  lemma ReportConserves(in_: Input, horizon: int, steps: seq<Step>)
    requires in_.cash.monthly >= 0 && in_.cash.openingCash >= 0 && forall i :: 0 <= i < |in_.loans| ==> in_.loans[i].balance >= 0
    requires |in_.loans| > 0 && EffectiveHorizon(in_, horizon) >= 0 && KeyFits(ProblemOf(in_, horizon), StartOf(in_))
    requires Plan(ProblemOf(in_, horizon), StartOf(in_), steps) && steps != []
    ensures Paid(steps) == OpeningDebt(in_.loans) + Cost(steps)
    ensures in_.cash.openingCash + |steps| * in_.cash.monthly == Paid(steps) + steps[|steps| - 1].cash
  {
    hide Plan, Cost, Paid, Sum, KeyFits;
    PlanConserves(ProblemOf(in_, horizon), StartOf(in_), steps);
    BalancesAddUp(in_, |in_.loans|);
    assert in_.loans[..|in_.loans|] == in_.loans && StartOf(in_).balances[..|in_.loans|] == StartOf(in_).balances;
  }

  datatype Strength = BoundedHeuristic | ExhaustiveDynamicDomain

  datatype Report = Report(steps: seq<Step>, cost: Option<nat>, payoff: Date, complete: bool, strength: Strength,
                           states: nat, expansions: nat)

  /**
   Refuses what lies outside the reduced domain. A complete report names the least interest of
   all schedules and one that attains it in the fewest due dates, or says that there is none;
   an incomplete one still only reports a real schedule and its true cost.
   */
  method SearchDynamic(in_: Input, horizon: int, maxStates: int, quantum: int) returns (r: Result<Report>)
    ensures r == Err(Unsupported) <==> !Supported(in_, horizon, maxStates, quantum)
    ensures r.Ok? ==>
              && in_.cash.monthly >= 0 && in_.cash.openingCash >= 0
              && (forall i :: 0 <= i < |in_.loans| ==> in_.loans[i].balance > 0)
              && |in_.loans| > 0 && EffectiveHorizon(in_, horizon) >= 0
              && KeyFits(ProblemOf(in_, horizon), StartOf(in_))
    ensures r.Ok? && r.value.cost.Some? ==>
              && Scheduled(ProblemOf(in_, horizon), StartOf(in_), r.value.steps) && Cost(r.value.steps) == r.value.cost.value
              && r.value.steps != [] && r.value.payoff == r.value.steps[|r.value.steps| - 1].on
              && Paid(r.value.steps) == OpeningDebt(in_.loans) + r.value.cost.value
              && in_.cash.openingCash + |r.value.steps| * in_.cash.monthly
                 == Paid(r.value.steps) + r.value.steps[|r.value.steps| - 1].cash
    ensures r.Ok? && r.value.complete ==>
              forall other :: Scheduled(ProblemOf(in_, horizon), StartOf(in_), other) ==>
                && r.value.cost.Some?
                && (r.value.cost.value < Cost(other)
                    || (r.value.cost.value == Cost(other) && |r.value.steps| <= |other|))
    ensures r.Ok? ==> (r.value.strength == ExhaustiveDynamicDomain <==> r.value.complete)
    ensures r.Ok? ==> r.value.expansions <= (if maxStates == 0 then 10_000 else maxStates)
  {
    if !Supported(in_, horizon, maxStates, quantum) {
      return Err(Unsupported);
    }
    hide Plan, Cost, Domain, Accepted, UniqueIds, Aligned, Scheduled;
    SupportedFits(in_, horizon, maxStates, quantum);
    PlansAreExactlySchedules(ProblemOf(in_, horizon), StartOf(in_));
    var s := new Search(ProblemOf(in_, horizon), if maxStates == 0 then 10_000 else maxStates);
    var tail :- s.Solve(StartOf(in_));
    var strength := if s.truncated then BoundedHeuristic else ExhaustiveDynamicDomain;
    if tail.found {
      PlanHasSteps(ProblemOf(in_, horizon), StartOf(in_), tail.steps);
      ReportConserves(in_, horizon, tail.steps);
      r := Ok(Report(tail.steps, Some(tail.cost), tail.steps[|tail.steps| - 1].on, !s.truncated, strength, s.states, s.work));
    } else {
      r := Ok(Report([], None, UNSET, !s.truncated, strength, s.states, s.work));
    }
  }

  lemma PlanHasSteps(p: Problem, k: Key, steps: seq<Step>)
    requires KeyFits(p, k) && Plan(p, k, steps) && !Settled(k)
    ensures steps != []
  {
  }
}
