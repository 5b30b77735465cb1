/**
 Ranking and the certificate: how simulated candidates become one answer. The comparator of
 every goal is a strict total order on policies with different names, so the best answer does
 not depend on the order of the runs, and the strongest claim a certificate makes is honest.
 */
module Ranking {
  import opened Dates
  import opened Contracts
  import opened Portfolio
  import opened Candidates
  import opened PolicyIds
  import opened Flow
  import SimState
  import Sorting

  datatype GoalKind = LeastInterest | Fastest | Relief | FirstWin

  datatype Goal = Goal(kind: GoalKind, cap: int, free: int)

  /** A feasible run of one policy. */
  datatype Ranked = Ranked(policy: Policy, result: Result) {
    function Id(): string {
      IdOf(policy)
    }

    function Cost(): int {
      result.totalInterest + result.totalFees
    }
  }

  const NEVER := 0x4000_0000

  /** The month from which a timeline's required totals stay within a target; a huge number if they never do. */
  function ReliefFrom(timeline: seq<SimState.MonthState>, target: int): (i: nat)
    ensures i <= |timeline|
    ensures forall k :: i <= k < |timeline| ==> timeline[k].required <= target
    ensures i > 0 ==> timeline[i - 1].required > target
  {
    if timeline != [] && timeline[|timeline| - 1].required <= target then
      var before := ReliefFrom(timeline[..|timeline| - 1], target);
      before
    else |timeline|
  }

  function Target(goal: Goal, baseline: int): int {
    if goal.free > 0 then baseline - goal.free else goal.cap
  }

  function ReliefMonth(goal: Goal, baseline: int, timeline: seq<SimState.MonthState>): int {
    var target := Target(goal, baseline);
    var i := ReliefFrom(timeline, target);
    if target < 0 || timeline == [] || i == |timeline| then NEVER else i + 1
  }

  /** Walks back from the end while the required total is within the target. */
  method FindReliefMonth(goal: Goal, baseline: int, timeline: seq<SimState.MonthState>) returns (month: int)
    ensures month == ReliefMonth(goal, baseline, timeline)
  {
    var target := Target(goal, baseline);
    if target < 0 || |timeline| == 0 {
      return NEVER;
    }
    var i := |timeline|;
    while i > 0 && timeline[i - 1].required <= target
      invariant 0 <= i <= |timeline|
      invariant forall k :: i <= k < |timeline| ==> timeline[k].required <= target
    {
      i := i - 1;
    }
    ReliefIs(timeline, target, i);
    return if i == |timeline| then NEVER else i + 1;
  }

  /** There is one such month: the first of the last stretch within the target. */
  lemma ReliefIs(timeline: seq<SimState.MonthState>, target: int, i: nat)
    requires i <= |timeline| && forall k :: i <= k < |timeline| ==> timeline[k].required <= target
    requires i > 0 ==> timeline[i - 1].required > target
    ensures ReliefFrom(timeline, target) == i
  {
    var j := ReliefFrom(timeline, target);
  }

  /** From the month of relief on the required totals stay within the cap, or free at least what is asked of the baseline. */
  lemma ReliefLasts(goal: Goal, baseline: int, timeline: seq<SimState.MonthState>, k: nat)
    requires ReliefMonth(goal, baseline, timeline) != NEVER && ReliefMonth(goal, baseline, timeline) - 1 <= k < |timeline|
    ensures if goal.free > 0 then baseline - timeline[k].required >= goal.free else timeline[k].required <= goal.cap
  {
  }

  // ---------- The comparator ----------

  /** The written comparator of each goal. */
  predicate Better(goal: Goal, baseline: int, a: Ranked, b: Ranked) {
    var cc, pd := a.Cost() - b.Cost(), Compare(a.result.payoff, b.result.payoff);
    var permuted, permuted' := a.policy.name == "order", b.policy.name == "order";
    var byName := if permuted != permuted' then !permuted else Sorting.StrLess(a.Id(), b.Id());
    match goal.kind
    case Fastest =>
      if pd != 0 then pd < 0
      else if cc != 0 then cc < 0
      else if a.result.peakRequired != b.result.peakRequired then a.result.peakRequired < b.result.peakRequired
      else byName
    case Relief =>
      var ra, rb := ReliefMonth(goal, baseline, a.result.timeline), ReliefMonth(goal, baseline, b.result.timeline);
      if ra != rb then ra < rb
      else if cc != 0 then cc < 0
      else byName
    case FirstWin =>
      var fa, fb := a.result.firstClearOn, b.result.firstClearOn;
      if IsSet(fa) != IsSet(fb) then IsSet(fa)
      else if Compare(fa, fb) != 0 then Compare(fa, fb) < 0
      else if cc != 0 then cc < 0
      else byName
    case LeastInterest =>
      if cc != 0 then cc < 0
      else if pd != 0 then pd < 0
      else if a.result.prepayments != b.result.prepayments then a.result.prepayments < b.result.prepayments
      else byName
  }

  /** What a goal measures, most important first. */
  function Measures(goal: Goal, baseline: int, a: Ranked): (m: seq<int>)
    ensures |m| == 4
  {
    var named := if a.policy.name == "order" then 1 else 0;
    match goal.kind
    case Fastest => [DayNumber(a.result.payoff), a.Cost(), a.result.peakRequired, named]
    case Relief => [ReliefMonth(goal, baseline, a.result.timeline), a.Cost(), named, 0]
    case FirstWin =>
      [if IsSet(a.result.firstClearOn) then 0 else 1, DayNumber(a.result.firstClearOn), a.Cost(), named]
    case LeastInterest => [a.Cost(), DayNumber(a.result.payoff), a.result.prepayments, named]
  }

  /** The comparator is the order of what the goal measures, ties broken by policy name. */
  lemma BetterIsLexicographic(goal: Goal, baseline: int, a: Ranked, b: Ranked)
    ensures var x, y := Measures(goal, baseline, a), Measures(goal, baseline, b);
            Better(goal, baseline, a, b) <==> Sorting.LexLess(x, y) || (x == y && Sorting.StrLess(a.Id(), b.Id()))
  {
    hide DayNumber, ReliefMonth, Sorting.LexLess, Compare, Sorting.StrLess, IdOf;
    CompareIsDayOrder(a.result.payoff, b.result.payoff);
    CompareIsDayOrder(a.result.firstClearOn, b.result.firstClearOn);
    Sorting.LexOfFour(Measures(goal, baseline, a), Measures(goal, baseline, b));
  }

  /** What each goal is about decides first: total cost, the last pay-off, the month of relief, or the first loan cleared. */
  lemma GoalsDecide(goal: Goal, baseline: int, a: Ranked, b: Ranked)
    ensures goal.kind == LeastInterest && a.Cost() < b.Cost() ==> Better(goal, baseline, a, b)
    ensures goal.kind == Fastest && Before(a.result.payoff, b.result.payoff) ==> Better(goal, baseline, a, b)
    ensures goal.kind == Relief && ReliefMonth(goal, baseline, a.result.timeline) < ReliefMonth(goal, baseline, b.result.timeline) ==>
              Better(goal, baseline, a, b)
    ensures var first, second := a.result.firstClearOn, b.result.firstClearOn;
            goal.kind == FirstWin && IsSet(first) && (!IsSet(second) || Before(first, second)) ==> Better(goal, baseline, a, b)
    ensures a.Cost() == a.result.totalInterest + a.result.totalFees
  {
    hide DayNumber, ReliefMonth, Sorting.StrLess, IdOf;
  }

  /** A strict order: irreflexive, transitive, and total on policies with different names. */
  lemma BetterIsAnOrder(goal: Goal, baseline: int, a: Ranked, b: Ranked, c: Ranked)
    ensures !Better(goal, baseline, a, a)
    ensures Better(goal, baseline, a, b) && Better(goal, baseline, b, c) ==> Better(goal, baseline, a, c)
    ensures Better(goal, baseline, a, c) ==> Better(goal, baseline, a, b) || Better(goal, baseline, b, c)
    ensures a.Id() != b.Id() ==> Better(goal, baseline, a, b) != Better(goal, baseline, b, a)
  {
    hide Better, Measures, Sorting.LexLess, Sorting.StrLess, IdOf;
    var x, y, z := Measures(goal, baseline, a), Measures(goal, baseline, b), Measures(goal, baseline, c);
    BetterIsLexicographic(goal, baseline, a, a);
    BetterIsLexicographic(goal, baseline, a, b);
    BetterIsLexicographic(goal, baseline, b, a);
    BetterIsLexicographic(goal, baseline, b, c);
    BetterIsLexicographic(goal, baseline, a, c);
    Sorting.LexIsTotal(x, x);
    Sorting.LexIsTotal(x, y);
    Sorting.LexIsTotal(y, z);
    Sorting.LexIsTotal(x, z);
    Sorting.StrLessIsTotal(a.Id(), a.Id());
    Sorting.StrLessIsTotal(a.Id(), b.Id());
    Sorting.StrLessIsTotal(b.Id(), c.Id());
    Sorting.StrLessIsTotal(a.Id(), c.Id());
    if Sorting.LexLess(x, y) && Sorting.LexLess(y, z) {
      Sorting.LexIsTransitive(x, y, z);
    }
    if Sorting.LexLess(z, y) && Sorting.LexLess(y, x) {
      Sorting.LexIsTransitive(z, y, x);
    }
    if Sorting.StrLess(a.Id(), b.Id()) && Sorting.StrLess(b.Id(), c.Id()) {
      Sorting.StrLessIsTransitive(a.Id(), b.Id(), c.Id());
    }
    if Sorting.StrLess(c.Id(), b.Id()) && Sorting.StrLess(b.Id(), a.Id()) {
      Sorting.StrLessIsTransitive(c.Id(), b.Id(), a.Id());
    }
  }

  function Comparator(goal: Goal, baseline: int): (Ranked, Ranked) -> bool {
    (a: Ranked, b: Ranked) => Better(goal, baseline, a, b)
  }

  predicate DistinctIds(rs: seq<Ranked>) {
    forall i, j :: 0 <= i < j < |rs| ==> rs[i].Id() != rs[j].Id()
  }

  lemma ComparatorSorts(goal: Goal, baseline: int)
    ensures Sorting.StrictOrder(Comparator(goal, baseline))
  {
    hide Better;
    forall a: Ranked, b: Ranked, c: Ranked
      ensures !Better(goal, baseline, a, a)
      ensures Better(goal, baseline, a, b) && Better(goal, baseline, b, c) ==> Better(goal, baseline, a, c)
      ensures Better(goal, baseline, a, c) ==> Better(goal, baseline, a, b) || Better(goal, baseline, b, c)
    {
      BetterIsAnOrder(goal, baseline, a, b, c);
    }
  }

  lemma DistinctIdsAreUntied(goal: Goal, baseline: int, rs: seq<Ranked>)
    requires DistinctIds(rs)
    ensures Sorting.Untied(rs, Comparator(goal, baseline))
  {
    hide Better;
    forall i, j | 0 <= i < j < |rs|
      ensures Better(goal, baseline, rs[i], rs[j]) || Better(goal, baseline, rs[j], rs[i])
    {
      BetterIsAnOrder(goal, baseline, rs[i], rs[j], rs[j]);
    }
  }

  /** The runs of one rollover. */
  function OfRollover(rs: seq<Ranked>, want: Rollover): seq<Ranked> {
    if rs == [] then []
    else OfRollover(rs[..|rs| - 1], want) + if rs[|rs| - 1].policy.rollover == want then [rs[|rs| - 1]] else []
  }

  lemma {:induction false} RolloverKeepsRuns(rs: seq<Ranked>, want: Rollover)
    ensures forall r :: multiset(OfRollover(rs, want))[r] == if r.policy.rollover == want then multiset(rs)[r] else 0
  {
    if rs != [] {
      RolloverKeepsRuns(rs[..|rs| - 1], want);
      assert rs == rs[..|rs| - 1] + [rs[|rs| - 1]];
    }
  }

  function WantedRollover(goal: Goal): Rollover {
    if goal.kind == Relief then KeepFreed else RollFreed
  }

  /** Ranks the runs that fit the goal's rollover. */
  method RankRuns(goal: Goal, baseline: int, runs: seq<Ranked>) returns (ranked: seq<Ranked>)
    ensures ranked == Sorting.Sort(OfRollover(runs, WantedRollover(goal)), Comparator(goal, baseline))
    ensures multiset(ranked) == multiset(OfRollover(runs, WantedRollover(goal)))
    ensures forall r :: multiset(ranked)[r] ==
              if r.policy.rollover == (if goal.kind == Relief then KeepFreed else RollFreed) then multiset(runs)[r] else 0
    ensures DistinctIds(OfRollover(runs, WantedRollover(goal))) ==>
              forall k :: 0 < k < |ranked| ==> Better(goal, baseline, ranked[0], ranked[k])
  {
    hide Better;
    RolloverKeepsRuns(runs, WantedRollover(goal));
    var want := WantedRollover(goal);
    var kept: seq<Ranked> := [];
    for i := 0 to |runs|
      invariant kept == OfRollover(runs[..i], want)
    {
      assert runs[..i + 1][..i] == runs[..i];
      if runs[i].policy.rollover == want {
        kept := kept + [runs[i]];
      }
    }
    assert runs[..|runs|] == runs;
    var less := Comparator(goal, baseline);
    ranked := Sorting.Sort(kept, less);
    Sorting.SortKeeps(kept, less);
    ComparatorSorts(goal, baseline);
    Sorting.SortOrders(kept, less);
    if DistinctIds(kept) {
      DistinctIdsAreUntied(goal, baseline, kept);
      Sorting.UntiedIgnoresOrder(kept, ranked, less);
      Sorting.FirstPrecedes(ranked, less);
    }
  }

  /** The ranking, and so the answer, does not depend on the order the runs finished in. */
  lemma RankingIgnoresOrder(goal: Goal, baseline: int, rs: seq<Ranked>, rs': seq<Ranked>)
    requires multiset(rs) == multiset(rs') && DistinctIds(rs)
    ensures Sorting.Sort(rs, Comparator(goal, baseline)) == Sorting.Sort(rs', Comparator(goal, baseline))
  {
    hide Better;
    ComparatorSorts(goal, baseline);
    DistinctIdsAreUntied(goal, baseline, rs);
    Sorting.SortIgnoresOrder(rs, rs', Comparator(goal, baseline));
  }

  // ---------- Distinct names ----------

  /** The names the orders of the axes carry. */
  predicate PlainNames(a: Axes) {
    forall i :: 0 <= i < |a.orders| ==> PlainName(a.orders[i].name)
  }

  /** Axes without repetition over one portfolio, with non-negative thresholds. */
  predicate DistinctAxes(a: Axes, n: nat) {
    && (forall i, j :: 0 <= i < j < |a.orders| ==> a.orders[i].idx != a.orders[j].idx)
    && (forall i, j :: 0 <= i < j < |a.effects| ==> a.effects[i] != a.effects[j])
    && (forall i, j :: 0 <= i < j < |a.timings| ==> a.timings[i] != a.timings[j])
    && (forall i, j :: 0 <= i < j < |a.batches| ==> a.batches[i] != a.batches[j])
    && (forall i :: 0 <= i < |a.effects| ==> |a.effects[i]| == n) && (forall i :: 0 <= i < |a.timings| ==> |a.timings[i]| == n)
    && (forall i :: 0 <= i < |a.batches| ==> a.batches[i] >= 0)
  }

  /** Every attempted candidate has a name of its own, whatever the rollovers. */
  lemma CandidatesHaveDistinctIds(a: Axes, n: nat, r: Rollover, out: seq<Policy>, r': Rollover, out': seq<Policy>, m: nat, m': nat)
    requires DistinctAxes(a, n) && PlainNames(a)
    requires Enumerates(a, r, out) && |out| <= a.Total() && Enumerates(a, r', out') && |out'| <= a.Total()
    requires m < |out| && m' < |out'| && (m != m' || r != r')
    ensures IdOf(out[m]) != IdOf(out'[m'])
  {
    hide IdOf, PlainName, Enumerates, Candidates.Rank;
    var i, j, k, l := Unrank(a, m);
    var i', j', k', l' := Unrank(a, m');
    CandidateAt(a, r, out, i, j, k, l);
    CandidateAt(a, r', out', i', j', k', l');
    IdNamesOnePolicy(out[m], out'[m']);
  }
}
