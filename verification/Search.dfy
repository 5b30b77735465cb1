/**
 Simulating every candidate: serially, with a memo of canonical policies, or on any number of
 workers that claim candidates from a shared counter, each with its own memo of projections. All
 three give what each candidate's run gives on its own, or the same first fault in candidate
 order, for every input and every schedule of the workers.
 */
module Search {
  import opened Contracts
  import opened Portfolio
  import opened Flow
  import MemoRun
  import PolicyIds
  import ProjectionMemo
  import Simulator

  /** How one candidate's run ended: an infeasible one is dropped, any other failure is a fault. */
  datatype Attempt = Feasible(policy: Policy, result: Flow.Result) | Infeasible | Fault(why: Failure)

  datatype Collected = Results(results: seq<Ran>) | FirstFault(why: Failure) | Cancelled

  /** A feasible result and the policy it belongs to. */
  datatype Ran = Ran(policy: Policy, result: Flow.Result)

  /** A policy that cannot be followed is infeasible: its cash or its permission falls short. */
  function AttemptOf(p: Policy, o: Outcome): Attempt {
    match o
    case Finished(result) => Feasible(p, result)
    case Failed(why) => if why.ShortOfCash? || why.OverLimit? then Infeasible else Fault(why)
  }

  /** The feasible results in candidate order, or the first fault in candidate order. */
  function Collect(os: seq<Attempt>): (c: Collected)
    ensures !c.Cancelled?
  {
    if os == [] then Results([])
    else
      match Collect(os[..|os| - 1])
      case FirstFault(e) => FirstFault(e)
      case Cancelled => Results([])
      case Results(rs) =>
        match os[|os| - 1]
        case Feasible(p, r) => Results(rs + [Ran(p, r)])
        case Infeasible => Results(rs)
        case Fault(e) => FirstFault(e)
  }

  /** A fault decides, and it is the earliest one; without any the feasible results come in order. */
  lemma {:induction false} CollectIsTheFirstFault(os: seq<Attempt>)
    ensures Collect(os).FirstFault? <==> exists i :: 0 <= i < |os| && os[i].Fault?
    ensures Collect(os).FirstFault? ==>
              exists i :: 0 <= i < |os| && os[i] == Fault(Collect(os).why) && forall j :: 0 <= j < i ==> !os[j].Fault?
    ensures Collect(os).Results? ==>
              forall p, r :: Ran(p, r) in Collect(os).results <==> Feasible(p, r) in os
  {
    if os != [] {
      var n := |os| - 1;
      CollectIsTheFirstFault(os[..n]);
      assert os == os[..n] + [os[n]];
      if Collect(os[..n]).FirstFault? {
        var i :| 0 <= i < n && os[..n][i] == Fault(Collect(os[..n]).why) && forall j :: 0 <= j < i ==> !os[..n][j].Fault?;
        assert os[i] == os[..n][i];
        forall j | 0 <= j < i ensures !os[j].Fault? {
          assert os[j] == os[..n][j];
        }
      } else if os[n].Fault? {
        forall j | 0 <= j < n ensures !os[j].Fault? {
          assert os[j] == os[..n][j];
        }
      }
    }
  }

  lemma {:induction false} FaultStays(os: seq<Attempt>, k: nat)
    requires k <= |os| && Collect(os[..k]).FirstFault?
    ensures Collect(os) == Collect(os[..k])
    decreases |os|
  {
    if k < |os| {
      assert os[..|os| - 1][..k] == os[..k];
      FaultStays(os[..|os| - 1], k);
    } else {
      assert os[..k] == os;
    }
  }

  // ---------- One candidate ----------

  const BLANK: ProjectionMemo.Memo := ProjectionMemo.Tables(map[], map[])

  /** What a candidate's run finds from a memo, and the memo it leaves. */
  ghost function With(in_: Input, memo: ProjectionMemo.Memo, p: Policy): (Attempt, ProjectionMemo.Memo) {
    hide RunOf;
    var (o, left) := RunOf(in_, p, memo);
    (AttemptOf(p, o), left)
  }

  /** What a candidate's run finds on its own, with a memo of its own. */
  ghost function Alone(in_: Input, p: Policy): Attempt {
    With(in_, BLANK, p).0
  }

  ghost function AloneAll(in_: Input, ps: seq<Policy>): (os: seq<Attempt>)
    ensures |os| == |ps| && forall i :: 0 <= i < |ps| ==> os[i] == Alone(in_, ps[i])
  {
    seq(|ps|, i requires 0 <= i < |ps| => Alone(in_, ps[i]))
  }

  /** Policies that differ only in effects their contracts do not leave open run alike, from any memo. */
  lemma FixedEffectsAreNotChosen(in_: Input, p: Policy, q: Policy, memo: ProjectionMemo.Memo)
    requires q == p.(effect := q.effect) && |q.effect| == |p.effect| == |in_.loans|
    requires forall i :: 0 <= i < |in_.loans| && in_.loans[i].contract.prepayment.effect == BorrowerChooses ==> q.effect[i] == p.effect[i]
    ensures RunOf(in_, q, memo) == RunOf(in_, p, memo)
  {
    hide Started, OutcomeOf;
    forall i | 0 <= i < |in_.loans|
      ensures Canonical(in_, q).effect[i] == Canonical(in_, p).effect[i]
    {
      ContractsDecideEffects(in_.loans[i].contract, p.effect[i]);
      ContractsDecideEffects(in_.loans[i].contract, q.effect[i]);
    }
    assert Canonical(in_, q).effect == Canonical(in_, p).effect;
    assert WorldOf(in_, q) == WorldOf(in_, p);
  }

  /** A memo that runs of the input may have left. */
  ghost predicate Speaks(in_: Input, memo: ProjectionMemo.Memo) {
    MemoRun.Tells(in_, memo)
  }

  /** Such a memo never changes what a run finds, and a run leaves such a memo. */
  lemma MemosAreTransparent(in_: Input, memo: ProjectionMemo.Memo, p: Policy)
    requires Speaks(in_, memo)
    ensures With(in_, memo, p).0 == Alone(in_, p) && Speaks(in_, With(in_, memo, p).1) && Speaks(in_, BLANK)
  {
    hide RunOf, MemoRun.Tells;
    MemoRun.BlankTells(in_);
    MemoRun.AnyMemoRunsAlike(in_, p, memo, BLANK);
    MemoRun.RunIsHeard(in_, p, memo);
  }

  /** Where loans that share a memo entry open alike, a run with a memo finds what one without any does. */
  lemma AloneIsFresh(in_: Input, p: Policy)
    requires MemoRun.Consistent(in_)
    ensures Alone(in_, p) == AttemptOf(p, RunOf(in_, p, ProjectionMemo.Forgetful).0)
  {
    hide RunOf, MemoRun.Tells, MemoRun.Consistent;
    MemoRun.BlankTells(in_);
    MemoRun.MemoNeverShows(in_, p, BLANK);
  }

  /** One run from a memo: the simulator's own run over the input as it hears it. */
  method RunWith(in_: Input, p: Policy, ghost memo: ProjectionMemo.Memo) returns (o: Outcome, ghost left: ProjectionMemo.Memo)
    requires Speaks(in_, memo)
    ensures (o, left) == RunOf(in_, p, memo) && Speaks(in_, left) && o != Failed(Invariant)
  {
    hide RunOf, MemoRun.Tells, MemoRun.Heard;
    MemoRun.RunIsHeard(in_, p, memo);
    var found, _ := Simulator.Run(MemoRun.Heard(in_), p);
    o := found;
    left := RunOf(in_, p, memo).1;
  }

  // ---------- One after another ----------

  /** The candidates run in order, each with the memo the one before left. */
  ghost function InTurn(in_: Input, memo: ProjectionMemo.Memo, ps: seq<Policy>): (os: seq<Attempt>)
    ensures |os| == |ps|
    decreases |ps|
  {
    hide With;
    if ps == [] then [] else var (o, left) := With(in_, memo, ps[0]); [o] + InTurn(in_, left, ps[1..])
  }

  /** Sharing one memo over all candidates changes none of their runs. */
  lemma {:induction false} SharingIsTransparent(in_: Input, memo: ProjectionMemo.Memo, ps: seq<Policy>)
    requires Speaks(in_, memo)
    ensures InTurn(in_, memo, ps) == AloneAll(in_, ps)
    decreases |ps|
  {
    hide With, Alone, Speaks;
    if ps != [] {
      MemosAreTransparent(in_, memo, ps[0]);
      SharingIsTransparent(in_, With(in_, memo, ps[0]).1, ps[1..]);
      assert AloneAll(in_, ps) == [Alone(in_, ps[0])] + AloneAll(in_, ps[1..]);
    }
  }

  /** The serial run: one memo for all candidates, the first fault ends it. */
  method SimulateSerially(in_: Input, ps: seq<Policy>) returns (c: Collected)
    ensures c == Collect(InTurn(in_, BLANK, ps)) == Collect(AloneAll(in_, ps))
  {
    hide RunOf, Speaks;
    BlankSpeaks(in_);
    SharingIsTransparent(in_, BLANK, ps);
    var out: seq<Ran> := [];
    ghost var all, memo := AloneAll(in_, ps), BLANK;
    for k := 0 to |ps|
      invariant Collect(all[..k]) == Results(out) && Speaks(in_, memo)
    {
      assert all[..k + 1][..k] == all[..k];
      MemosAreTransparent(in_, memo, ps[k]);
      var o;
      o, memo := RunWith(in_, ps[k], memo);
      match AttemptOf(ps[k], o) {
        case Feasible(p, r) => out := out + [Ran(p, r)];
        case Infeasible =>
        case Fault(why) =>
          FaultStays(all, k + 1);
          return FirstFault(why);
      }
    }
    assert all[..|ps|] == all;
    return Results(out);
  }

  lemma BlankSpeaks(in_: Input)
    ensures Speaks(in_, BLANK)
  {
    hide MemoRun.Tells;
    MemoRun.BlankTells(in_);
  }

  // ---------- Canonical policies ----------

  /** The key of a policy's run: the name of its canonical form. */
  function KeyOf(in_: Input, p: Policy): string {
    PolicyIds.IdOf(Canonical(in_, p))
  }

  /** Policies over the input's loans whose runs are remembered. */
  predicate Keyed(in_: Input, p: Policy) {
    Covers(p, |in_.loans|) && p.minPrepay >= 0
  }

  /** Policies have one key exactly when they have one canonical form, and then they run alike from every memo. */
  lemma KeysDecideRuns(in_: Input, p: Policy, q: Policy)
    requires Keyed(in_, p) && Keyed(in_, q)
    ensures KeyOf(in_, p) == KeyOf(in_, q) <==> Canonical(in_, p) == Canonical(in_, q)
    ensures KeyOf(in_, p) == KeyOf(in_, q) ==> forall memo :: RunOf(in_, p, memo) == RunOf(in_, q, memo)
  {
    hide Canonical, Accepted, Started, PolicyIds.IdOf, Stops;
    PolicyIds.IdNamesOnePolicy(Canonical(in_, p), Canonical(in_, q));
    if KeyOf(in_, p) == KeyOf(in_, q) {
      forall memo ensures RunOf(in_, p, memo) == RunOf(in_, q, memo) {
        assert WorldOf(in_, p) == WorldOf(in_, q);
      }
    }
  }

  /** Canonical form resolves effects and blanks the name, once and for all. */
  lemma CanonicalDecides(in_: Input, p: Policy, q: Policy)
    requires |p.effect| == |q.effect| == |in_.loans|
    ensures Canonical(in_, p) == Canonical(in_, q) <==>
              && p.order == q.order && p.timing == q.timing && p.rollover == q.rollover
              && p.minPrepay == q.minPrepay && p.requiredOnly == q.requiredOnly
              && forall i :: 0 <= i < |in_.loans| ==>
                   ResolvedEffect(in_.loans[i].contract, p.effect[i]) == ResolvedEffect(in_.loans[i].contract, q.effect[i])
    ensures Canonical(in_, Canonical(in_, p)) == Canonical(in_, p)
  {
    hide ResolvedEffect;
    var a, b := Canonical(in_, p), Canonical(in_, q);
    forall i | 0 <= i < |in_.loans|
      ensures a.effect[i] == ResolvedEffect(in_.loans[i].contract, p.effect[i])
      ensures b.effect[i] == ResolvedEffect(in_.loans[i].contract, q.effect[i])
    {
    }
    assert a == b <==> a.effect == b.effect && p.order == q.order && p.timing == q.timing && p.rollover == q.rollover
                       && p.minPrepay == q.minPrepay && p.requiredOnly == q.requiredOnly;
    forall i | 0 <= i < |in_.loans|
      ensures Canonical(in_, a).effect[i] == a.effect[i]
    {
      ResolvedTwice(in_.loans[i].contract, p.effect[i]);
    }
  }

  lemma ResolvedTwice(c: Contract, e: PrepaymentEffect)
    ensures ResolvedEffect(c, ResolvedEffect(c, e)) == ResolvedEffect(c, e)
  {
  }

  lemma SameAsBlank(in_: Input, p: Policy, memo: ProjectionMemo.Memo)
    requires Speaks(in_, memo)
    ensures RunOf(in_, p, memo).0 == RunOf(in_, p, BLANK).0
  {
    hide RunOf, MemoRun.Tells;
    MemoRun.BlankTells(in_);
    MemoRun.AnyMemoRunsAlike(in_, p, memo, BLANK);
  }

  /** A universe that remembers the run of every canonical policy, failures included, and shares one memo over them. */
  class Universe {
    const input: Input
    var runs: map<string, Outcome>
    ghost var memo: ProjectionMemo.Memo

    ghost predicate Valid()
      reads this
    {
      && Speaks(input, memo)
      && forall p {:trigger KeyOf(input, p)} :: Keyed(input, p) && KeyOf(input, p) in runs ==>
           runs[KeyOf(input, p)] == RunOf(input, p, BLANK).0
    }

    constructor (input: Input)
      ensures Valid() && this.input == input && runs == map[] && memo == BLANK
    {
      this.input, runs, memo := input, map[], BLANK;
      BlankSpeaks(input);
    }

    /** Simulates one policy, once for each canonical form; the result is the policy's own. */
    method Simulate(p: Policy) returns (o: Attempt)
      requires Valid() && Keyed(input, p)
      modifies this
      ensures Valid() && o == Alone(input, p)
      ensures runs.Keys == old(runs).Keys + {KeyOf(input, p)}
      ensures memo == if KeyOf(input, p) in old(runs) then old(memo) else RunOf(input, p, old(memo)).1
    {
      hide RunOf, KeyOf, Keyed, Speaks;
      var k := KeyOf(input, p);
      if k in runs {
        return AttemptOf(p, runs[k]);
      }
      SameAsBlank(input, p, memo);
      var found;
      found, memo := RunWith(input, p, memo);
      forall q | Keyed(input, q) && KeyOf(input, q) == k
        ensures RunOf(input, q, BLANK).0 == found
      {
        KeysDecideRuns(input, p, q);
      }
      runs := runs[k := found];
      return AttemptOf(p, found);
    }

    method SimulateAll(ps: seq<Policy>) returns (c: Collected)
      requires Valid() && forall k :: 0 <= k < |ps| ==> Keyed(input, ps[k])
      modifies this
      ensures Valid() && c == Collect(AloneAll(input, ps))
    {
      hide Valid, Keyed, Alone;
      var out: seq<Ran> := [];
      ghost var all := AloneAll(input, ps);
      for k := 0 to |ps|
        invariant Valid() && Collect(all[..k]) == Results(out)
      {
        assert all[..k + 1][..k] == all[..k];
        var o := Simulate(ps[k]);
        match o {
          case Feasible(p, r) => out := out + [Ran(p, r)];
          case Infeasible =>
          case Fault(why) =>
            FaultStays(all, k + 1);
            return FirstFault(why);
        }
      }
      assert all[..|ps|] == all;
      return Results(out);
    }
  }

  // ---------- Workers ----------

  datatype Worker = Idle(memo: ProjectionMemo.Memo) | Running(candidate: nat, memo: ProjectionMemo.Memo) | Stopped

  /** Slots filled by workers, the shared counter, and whether the run was cancelled. */
  datatype State = State(slots: seq<Option<Attempt>>, next: nat, workers: seq<Worker>, cancelled: bool)

  datatype Move = Cancel | Take(worker: nat) | Store(worker: nat) | Stop(worker: nat)

  ghost predicate Init(in_: Input, ps: seq<Policy>, s: State) {
    && s.slots == seq(|ps|, _ => None) && s.next == 0 && !s.cancelled && s.workers != []
    && forall w :: 0 <= w < |s.workers| ==> s.workers[w] == Idle(BLANK)
  }

  /** One atomic step of one worker, or an outside cancellation. */
  ghost predicate Step(in_: Input, ps: seq<Policy>, s: State, m: Move, s': State) {
    match m
    case Cancel => s' == s.(cancelled := true)
    case Take(w) =>
      && w < |s.workers| && s.workers[w].Idle?
      && s' == s.(next := s.next + 1,
                  workers := s.workers[w := if s.next < |ps| then Running(s.next, s.workers[w].memo) else Stopped])
    case Store(w) =>
      && w < |s.workers| && s.workers[w].Running? && s.workers[w].candidate < |ps| == |s.slots|
      && (var (o, memo) := With(in_, s.workers[w].memo, ps[s.workers[w].candidate]);
          s' == s.(slots := s.slots[s.workers[w].candidate := Some(o)], workers := s.workers[w := Idle(memo)]))
    case Stop(w) =>
      w < |s.workers| && s.workers[w].Idle? && s.cancelled && s' == s.(workers := s.workers[w := Stopped])
  }

  /**
   Every candidate below the counter is stored with what a lone run finds or is being run by
   some worker, every memo speaks truly, and no worker has stopped early unless cancelled.
   */
  ghost predicate Inv(in_: Input, ps: seq<Policy>, s: State) {
    && |s.slots| == |ps| && s.workers != []
    && (forall i :: 0 <= i < |ps| && s.slots[i].Some? ==> s.slots[i].value == Alone(in_, ps[i]))
    && (forall i :: 0 <= i < |ps| && i < s.next && s.slots[i].None? ==> BeingRun(s, i))
    && (forall w :: 0 <= w < |s.workers| && s.workers[w].Running? ==> s.workers[w].candidate < |ps|)
    && (forall w :: 0 <= w < |s.workers| && !s.workers[w].Stopped? ==> Speaks(in_, s.workers[w].memo))
    && (forall w :: 0 <= w < |s.workers| && s.workers[w].Stopped? ==> s.cancelled || s.next >= |ps|)
  }

  ghost predicate BeingRun(s: State, i: nat) {
    exists w :: 0 <= w < |s.workers| && s.workers[w].Running? && s.workers[w].candidate == i
  }

  lemma InitInv(in_: Input, ps: seq<Policy>, s: State)
    requires Init(in_, ps, s)
    ensures Inv(in_, ps, s)
  {
    hide Speaks;
    BlankSpeaks(in_);
  }

  /** A worker's change leaves every other worker's candidate being run. */
  lemma OthersStillRun(s: State, s': State, w: nat, i: nat)
    requires w < |s.workers| && |s'.workers| == |s.workers| && s'.workers == s.workers[w := s'.workers[w]]
    requires BeingRun(s, i) && !(s.workers[w].Running? && s.workers[w].candidate == i)
    ensures BeingRun(s', i)
  {
    var v :| 0 <= v < |s.workers| && s.workers[v].Running? && s.workers[v].candidate == i;
    assert s'.workers[v] == s.workers[v];
  }

  lemma NextInv(in_: Input, ps: seq<Policy>, s: State, m: Move, s': State)
    requires Inv(in_, ps, s) && Step(in_, ps, s, m, s')
    ensures Inv(in_, ps, s')
  {
    hide BeingRun;
    match m
    case Cancel =>
      forall i | BeingRun(s, i) ensures BeingRun(s', i) {
        StillRun(s, s', i);
      }
    case Take(w) =>
      assert s.workers[w].Idle? && s'.workers[w] == s.workers[w := s'.workers[w]][w];
      forall i | BeingRun(s, i) ensures BeingRun(s', i) {
        OthersStillRun(s, s', w, i);
      }
      if s.next < |ps| {
        NowRun(s', w);
      }
    case Store(w) =>
      var i0 := s.workers[w].candidate;
      forall i | BeingRun(s, i) && i != i0 ensures BeingRun(s', i) {
        OthersStillRun(s, s', w, i);
      }
      MemosAreTransparent(in_, s.workers[w].memo, ps[i0]);
    case Stop(w) =>
      forall i | BeingRun(s, i) ensures BeingRun(s', i) {
        OthersStillRun(s, s', w, i);
      }
  }

  lemma StillRun(s: State, s': State, i: nat)
    requires BeingRun(s, i) && s'.workers == s.workers
    ensures BeingRun(s', i)
  {
  }

  lemma NowRun(s: State, w: nat)
    requires w < |s.workers| && s.workers[w].Running?
    ensures BeingRun(s, s.workers[w].candidate)
  {
  }

  /** A run of the workers: any interleaving of their steps. */
  ghost predicate Execution(in_: Input, ps: seq<Policy>, states: seq<State>, moves: seq<Move>) {
    && |states| == |moves| + 1 && Init(in_, ps, states[0])
    && forall k :: 0 <= k < |moves| ==> Step(in_, ps, states[k], moves[k], states[k + 1])
  }

  lemma {:induction false} ExecutionInv(in_: Input, ps: seq<Policy>, states: seq<State>, moves: seq<Move>, k: nat)
    requires Execution(in_, ps, states, moves) && k <= |moves|
    ensures Inv(in_, ps, states[k])
  {
    hide Inv, Step, Init;
    if k == 0 {
      InitInv(in_, ps, states[0]);
    } else {
      ExecutionInv(in_, ps, states, moves, k - 1);
      NextInv(in_, ps, states[k - 1], moves[k - 1], states[k]);
    }
  }

  /** What the main thread makes of the slots once every worker has stopped. */
  function Merge(s: State): Collected {
    if s.cancelled then Cancelled
    else Collect(seq(|s.slots|, i requires 0 <= i < |s.slots| => match s.slots[i] case Some(o) => o case None => Infeasible))
  }

  /**
   Schedule independence: however the workers interleave and however many there are, an
   uncancelled parallel simulation returns exactly what the serial one returns.
   */
  lemma ParallelIsSerial(in_: Input, ps: seq<Policy>, states: seq<State>, moves: seq<Move>)
    requires Execution(in_, ps, states, moves)
    requires forall w :: 0 <= w < |states[|moves|].workers| ==> states[|moves|].workers[w].Stopped?
    ensures var s := states[|moves|];
            Merge(s) == if s.cancelled then Cancelled else Collect(InTurn(in_, BLANK, ps))
    ensures Collect(InTurn(in_, BLANK, ps)) == Collect(AloneAll(in_, ps))
  {
    hide Step, Speaks;
    BlankSpeaks(in_);
    SharingIsTransparent(in_, BLANK, ps);
    ExecutionInv(in_, ps, states, moves, |moves|);
    var s := states[|moves|];
    if !s.cancelled {
      assert s.workers[0].Stopped?;
      forall i | 0 <= i < |ps|
        ensures s.slots[i] == Some(Alone(in_, ps[i]))
      {
      }
      var merged := seq(|s.slots|, i requires 0 <= i < |s.slots| => match s.slots[i] case Some(o) => o case None => Infeasible);
      assert merged == AloneAll(in_, ps);
    }
  }

  // ---------- Termination ----------

  function Active(workers: seq<Worker>): nat {
    if workers == [] then 0
    else
      Active(workers[..|workers| - 1])
      + match workers[|workers| - 1] case Idle(_) => 1 case Running(_, _) => 2 case Stopped => 0
  }

  /** What is left for the workers to do. */
  function Left(ps: seq<Policy>, s: State): nat {
    Active(s.workers) + 2 * if s.next < |ps| then |ps| - s.next else 0
  }

  function Weight(w: Worker): nat {
    match w case Idle(_) => 1 case Running(_, _) => 2 case Stopped => 0
  }

  lemma {:induction false} ActiveUpdate(workers: seq<Worker>, w: nat, x: Worker)
    requires w < |workers|
    ensures Active(workers[w := x]) == Active(workers) - Weight(workers[w]) + Weight(x)
  {
    var n := |workers| - 1;
    if w < n {
      assert workers[w := x][..n] == workers[..n][w := x];
      ActiveUpdate(workers[..n], w, x);
    } else {
      assert workers[w := x][..n] == workers[..n];
    }
  }

  /** Every step of a worker leaves less to do, so no schedule runs forever. */
  lemma WorkersFinish(in_: Input, ps: seq<Policy>, s: State, m: Move, s': State)
    requires Step(in_, ps, s, m, s')
    ensures if m.Cancel? then Left(ps, s') == Left(ps, s) else Left(ps, s') < Left(ps, s)
  {
    if !m.Cancel? {
      ActiveUpdate(s.workers, m.worker, s'.workers[m.worker]);
    }
  }
}
