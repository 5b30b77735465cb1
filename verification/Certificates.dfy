/** What a search covered and what it may claim. The strongest static claim is proved honest. */
module Certificates {
  import opened Contracts
  import opened Portfolio
  import opened Candidates
  import opened Ranking
  import Flow
  import MemoRun
  import Money
  import ProjectionMemo

  datatype Strength = ProvenOptimal | ExhaustiveStaticOrder | BoundedHeuristic | NamedStrategiesOnly

  /** A search space, and what had to be left out of it or only sampled. */
  datatype Space = Space(axes: Axes, truncated: bool, feeBearer: bool)

  predicate FeeBearing(in_: Input) {
    exists l :: l in in_.loans && (l.contract.prepayment.charges != [] || l.contract.prepayment.feeBP > 0)
  }

  /** Amounts worth trying: positive, each once. */
  predicate Marks(out: seq<int>) {
    (forall k :: 0 <= k < |out| ==> out[k] > 0) && forall j, k :: 0 <= j < k < |out| ==> out[j] != out[k]
  }

  function AddThreshold(out: seq<int>, a: int): (r: seq<int>)
    requires Marks(out)
    ensures Marks(r) && out <= r && (a > 0 ==> a in r)
  {
    if a > 0 && a !in out then out + [a] else out
  }

  /** The breakpoints of one contract: free allowances, the amounts that make a fixed fee one per cent, the minimum. */
  predicate HasBreakpoints(out: seq<int>, p: Prepayment) {
    && (p.minAmount > 0 ==> p.minAmount in out)
    && forall j :: 0 <= j < |p.charges| ==> HasRuleBreakpoints(out, p.charges[j])
  }

  predicate HasRuleBreakpoints(out: seq<int>, r: Charge) {
    (r.freeAllowance > 0 ==> r.freeAllowance in out) && (r.fixed > 0 ==> 100 * r.fixed in out)
  }

  lemma BreakpointsStay(out: seq<int>, more: seq<int>, p: Prepayment)
    requires out <= more && HasBreakpoints(out, p)
    ensures HasBreakpoints(more, p)
  {
    forall j | 0 <= j < |p.charges|
      ensures HasRuleBreakpoints(more, p.charges[j])
    {
      assert HasRuleBreakpoints(out, p.charges[j]);
    }
  }

  method AddBreakpoints(before: seq<int>, p: Prepayment) returns (out: seq<int>)
    requires Marks(before)
    ensures Marks(out) && before <= out && HasBreakpoints(out, p)
  {
    hide Marks;
    out := before;
    for j := 0 to |p.charges|
      invariant Marks(out) && before <= out && forall j' :: 0 <= j' < j ==> HasRuleBreakpoints(out, p.charges[j'])
    {
      out := AddThreshold(out, p.charges[j].freeAllowance);
      if p.charges[j].fixed > 0 {
        out := AddThreshold(out, 100 * p.charges[j].fixed);
      }
    }
    out := AddThreshold(out, p.minAmount);
  }

  /** The amounts worth waiting for when fees apply: contract breakpoints, each once. */
  method BatchThresholds(loans: seq<Position>) returns (out: seq<int>)
    ensures Marks(out) && forall i :: 0 <= i < |loans| ==> HasBreakpoints(out, loans[i].contract.prepayment)
  {
    hide HasBreakpoints;
    out := [];
    for i := 0 to |loans|
      invariant Marks(out) && forall i' :: 0 <= i' < i ==> HasBreakpoints(out, loans[i'].contract.prepayment)
    {
      var before := out;
      out := AddBreakpoints(before, loans[i].contract.prepayment);
      forall i' | 0 <= i' < i
        ensures HasBreakpoints(out, loans[i'].contract.prepayment)
      {
        BreakpointsStay(before, out, loans[i'].contract.prepayment);
      }
    }
  }

  /** What a space must hold for nothing to have been left out. */
  ghost predicate Covers(in_: Input, s: Space) {
    var n, a := |in_.loans|, s.axes;
    && (forall i, j :: 0 <= i < j < |a.orders| ==> a.orders[i].idx != a.orders[j].idx)
    && (forall i, j :: 0 <= i < j < |a.effects| ==> a.effects[i] != a.effects[j])
    && (forall i, j :: 0 <= i < j < |a.timings| ==> a.timings[i] != a.timings[j])
    && (!s.feeBearer ==> a.batches == [0])
    && (!s.truncated ==>
          && n <= MAX_EXHAUSTIVE_ORDERS && (forall p :: Has(a.orders, p) <==> IsOrder(p, n))
          && |FreeEffects(in_.loans)| <= MAX_VECTOR_LOANS
          && (forall v :: v in a.effects <==> IsChoice(v, n, BorrowerChooses, FreeEffects(in_.loans), ShortenTerm, ReduceInstalment))
          && a.Total() <= MAX_POLICIES)
  }

  /** Builds the axes, dropping permutations where the product would be too large, and says what was left out. */
  method BuildSpace(in_: Input, named: seq<Order>) returns (s: Space)
    requires forall k :: 0 <= k < |named| ==> IsOrder(named[k].idx, |in_.loans|)
    ensures Covers(in_, s) && (s.feeBearer <==> FeeBearing(in_)) && s.axes.effects != [] && s.axes.timings != []
    ensures s.axes.Total() > MAX_POLICIES ==> s.truncated
  {
    hide IsOrder, Has, Deduped, FreeEffects, FreeTimings, IsChoice, Charges;
    var n := |in_.loans|;
    var feeBearer := FeeBearing(in_);
    var truncated := n > MAX_EXHAUSTIVE_ORDERS;
    var orders := AllOrders(n, named);
    var effects := EffectVectors(in_.loans);
    var timings := TimingVectors(in_.cash.payDay, in_.loans);
    if |FreeEffects(in_.loans)| > MAX_VECTOR_LOANS {
      truncated := true;
    }
    if in_.cash.payDay > 0 && |FreeTimings(in_.loans)| > MAX_VECTOR_LOANS {
      truncated := true;
    }
    var batches := [0];
    if feeBearer {
      var thresholds := BatchThresholds(in_.loans);
      batches := batches + thresholds;
    }
    var axes := Axes(orders, effects, timings, batches);
    if axes.Total() > MAX_POLICIES {
      orders := DedupeOrders(named);
      DedupedDiffer(named, orders);
      truncated := true;
      axes := axes.(orders := orders);
    } else if n > MAX_EXHAUSTIVE_ORDERS {
      DedupedDiffer(named, orders);
    }
    return Space(axes, truncated, feeBearer);
  }

  lemma DedupedDiffer(os: seq<Order>, out: seq<Order>)
    requires Deduped(os, out)
    ensures forall i, j :: 0 <= i < j < |out| ==> out[i].idx != out[j].idx
  {
  }

  /** How strong a claim the space allows, once it is known whether the attempts were capped. */
  function StrengthOf(in_: Input, s: Space, capped: bool): Strength {
    if s.truncated || capped then
      (if |in_.loans| > MAX_EXHAUSTIVE_ORDERS && |s.axes.effects| == 1 && |s.axes.timings| == 1 then NamedStrategiesOnly
       else BoundedHeuristic)
    else if s.feeBearer then BoundedHeuristic
    else ExhaustiveStaticOrder
  }

  predicate Attempts(p: Policy, order: seq<nat>, effect: seq<PrepaymentEffect>, timing: seq<Timing>) {
    p.order == order && p.effect == effect && p.timing == timing
  }

  /**
   The exhaustive claim is honest: every order of the loans, with every choice of effects the
   contracts leave open and every timing vector, was attempted exactly once.
   */
  lemma ExhaustiveIsHonest(in_: Input, s: Space, r: Rollover, out: seq<Policy>, capped: bool,
                           order: seq<nat>, effect: seq<PrepaymentEffect>, timing: seq<Timing>)
    requires Covers(in_, s) && StrengthOf(in_, s, capped) == ExhaustiveStaticOrder
    requires Enumerates(s.axes, r, out) && |out| == s.axes.Total()
    requires IsOrder(order, |in_.loans|) && timing in s.axes.timings
    requires IsChoice(effect, |in_.loans|, BorrowerChooses, FreeEffects(in_.loans), ShortenTerm, ReduceInstalment)
    ensures exists m :: 0 <= m < |out| && Attempts(out[m], order, effect, timing) && out[m].minPrepay == 0
    ensures forall m, m' :: 0 <= m < m' < |out| && Attempts(out[m], order, effect, timing) ==>
              !Attempts(out[m'], order, effect, timing)
  {
    hide IsOrder, FreeEffects, IsChoice, Rank;
    var a := s.axes;
    assert Has(a.orders, order);
    var i :| 0 <= i < |a.orders| && a.orders[i].idx == order;
    var j :| 0 <= j < |a.effects| && a.effects[j] == effect;
    var k :| 0 <= k < |a.timings| && a.timings[k] == timing;
    RankFits(a, i, j, k, 0);
    var at := Rank(a, i, j, k, 0);
    assert out[at] == Candidate(a, r, i, j, k, 0);
    forall m | 0 <= m < |out| && Attempts(out[m], order, effect, timing)
      ensures m == at
    {
      var i', j', k', l' := Unrank(a, m);
      assert out[m] == Candidate(a, r, i', j', k', l');
      assert i' == i && j' == j && k' == k && l' == 0;
    }
  }

  // ---------- The claim of optimality ----------

  /** A global claim is only made for a run that costs nothing at all. */
  predicate Provable(in_: Input, s: Space, capped: bool, goal: Goal, best: Ranked) {
    && goal.kind == LeastInterest && !s.feeBearer && !s.truncated && !capped && !in_.Separate() && best.Cost() == 0
    && forall i :: 0 <= i < |in_.loans| ==> !in_.loans[i].optionalExcluded
  }

  function Certify(in_: Input, s: Space, capped: bool, goal: Goal, best: Ranked): Strength {
    if Provable(in_, s, capped, goal, best) then ProvenOptimal else StrengthOf(in_, s, capped)
  }

  /** No run of any policy, from any memo, costs less than nothing: interest and fees are only ever added. */
  lemma RunsNeverPay(in_: Input, p: Policy, memo: ProjectionMemo.Memo)
    requires Flow.RunOf(in_, p, memo).0.Finished?
    ensures Flow.RunOf(in_, p, memo).0.result.totalInterest >= 0 && Flow.RunOf(in_, p, memo).0.result.totalFees >= 0
  {
    hide Accepted, Flow.Started, Flow.Completed;
    MemoRun.ValuationIsADay(in_);
    var w := Flow.WorldOf(in_, p);
    var start := Flow.Started(w, memo);
    if start.err.None? {
      assert Flow.Over(w, start);
      var end := Flow.StopOf(w, start);
      assert Flow.Onward(start, end) && Flow.Onward(end, Flow.Completed(end));
    }
  }

  /** A certified optimum costs no more than the finished run of any policy, enumerated or not. */
  lemma ProvenOptimalIsLeast(in_: Input, s: Space, capped: bool, goal: Goal, best: Ranked, p: Policy, memo: ProjectionMemo.Memo)
    requires Certify(in_, s, capped, goal, best) == ProvenOptimal && Flow.RunOf(in_, p, memo).0.Finished?
    ensures best.Cost() <= Ranked(p, Flow.RunOf(in_, p, memo).0.result).Cost()
  {
    hide Flow.RunOf;
    RunsNeverPay(in_, p, memo);
  }
}
