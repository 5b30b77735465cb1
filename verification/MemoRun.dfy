/**
 What a run hears through its memo. The memo answers for a loan with the contract it resolved
 first under the loan's fingerprint, so a run with a memo over an input is a run without one over
 the input as heard: every loan that owes anything has the bank's first due date of the first such
 loan it shares a fingerprint with. That holds event by event, from any memo earlier runs of the
 input have left, and for every input; where alike loans open alike, what is heard is what is said.
 */
module MemoRun {
  import opened Dates
  import opened Contracts
  import opened Portfolio
  import opened SimState
  import opened LoanDues
  import opened Flow
  import Amortisation
  import Examples
  import Fees
  import Money
  import Routing
  import ProjectionMemo

  /** A state as it is without its memo. */
  function Plainly(s: Snap): Snap {
    s.(memo := ProjectionMemo.Forgetful)
  }

  function ContractsOf(in_: Input): seq<Contract> {
    seq(|in_.loans|, i requires 0 <= i < |in_.loans| => in_.loans[i].contract)
  }

  /** A position under the bank's word that nothing falls due before a date. */
  function Floored(p: Position, floor: Date): Position {
    p.(contract := p.contract.(notBeforeDue := floor))
  }

  /** The same positions, but for the dates the bank names. */
  predicate LoansBeside(ps: seq<Position>, qs: seq<Position>) {
    |ps| == |qs| && forall i :: 0 <= i < |ps| ==> qs[i] == Floored(ps[i], qs[i].contract.notBeforeDue)
  }

  /** The same world, but for the dates the bank names. */
  predicate Beside(w: World, v: World) {
    && v.policy == w.policy && v.input == w.input.(loans := v.input.loans) && |v.input.loans| == |w.input.loans|
    && LoansBeside(w.input.loans, v.input.loans)
  }

  /** The loans that owe anything: a run asks about no others. */
  function LiveOf(in_: Input): seq<bool> {
    seq(|in_.loans|, i requires 0 <= i < |in_.loans| => in_.loans[i].balance > 0)
  }

  predicate Owes(w: World, i: nat) {
    i < |w.input.loans| && w.input.loans[i].balance > 0
  }

  /** Every open loan owed something at the start. */
  predicate Owing(w: World, s: Snap) {
    forall i :: 0 <= i < |s.loans| && !s.loans[i].closed ==> Owes(w, i)
  }

  lemma OpenOwes(w: World, s: Snap, i: nat)
    requires Owing(w, s) && i < |s.loans| && !s.loans[i].closed
    ensures Owes(w, i)
  {
  }

  lemma StillOwing(w: World, s: Snap, r: Snap)
    requires Owing(w, s) && |s.loans| == |r.loans| && StaysShut(s.loans, r.loans)
    ensures Owing(w, r)
  {
    hide Owes;
  }

  /** A memo through which a run of one world hears the other. */
  ghost predicate Hearing(w: World, v: World, memo: ProjectionMemo.Memo) {
    Telling(w, v, memo) && |w.input.loans| == |v.input.loans| && forall i: nat :: Owes(w, i) ==> HearsLoan(w, v, memo, i)
  }

  /** What a memo tells of a world is what the other says. */
  ghost predicate Telling(w: World, v: World, memo: ProjectionMemo.Memo) {
    && ProjectionMemo.Voiced(ContractsOf(w.input), ContractsOf(v.input), LiveOf(w.input))
    && ProjectionMemo.Told(memo, ContractsOf(w.input), ContractsOf(v.input), LiveOf(w.input))
  }

  /** One loan is heard: the memo remembers its calendar, or it speaks for itself. */
  ghost predicate HearsLoan(w: World, v: World, memo: ProjectionMemo.Memo, i: nat)
    requires i < |w.input.loans| == |v.input.loans|
  {
    ProjectionMemo.Hears(memo, w.input.loans[i].contract, v.input.loans[i].contract)
  }

  /** What a step does through a memo it does in the world heard, without one, and it goes on hearing that world. */
  ghost predicate Alike(w: World, v: World, r: Snap, bare: Snap) {
    bare == Plainly(r) && Hearing(w, v, r.memo)
  }

  // ---------- What the bank's date does not move ----------

  lemma PositionBeside(w: World, v: World, i: nat)
    requires Beside(w, v) && i < |w.input.loans|
    ensures v.input.loans[i] == Floored(w.input.loans[i], v.input.loans[i].contract.notBeforeDue)
  {
  }

  /** Interest, quotes, allowances and what a credit does never read it. */
  lemma FloorIsNotRead(p: Position, floor: Date, l: LoanState, on: Date)
    requires IsSet(on)
    ensures AccruedTo(Floored(p, floor), l, on) == AccruedTo(p, l, on)
    ensures BookedOn(Floored(p, floor), l, on) == BookedOn(p, l, on)
  {
    hide Contract.Interest, DaysBetween;
    if IsSet(l.from) {
      InterestBeside(p.contract, floor, if l.balance > 0 then l.balance else 0, if After(on, l.from) then DaysBetween(l.from, on) else 0);
    }
  }

  lemma InterestBeside(c: Contract, floor: Date, balance: nat, days: nat)
    ensures c.(notBeforeDue := floor).Interest(balance, days) == c.Interest(balance, days)
  {
  }

  lemma QuotesBeside(p: Position, floor: Date, l: LoanState, on: Date, available: int)
    ensures QuoteOf(Floored(p, floor), l, on, available) == QuoteOf(p, l, on, available)
  {
    hide Fees.RulesFee, Fees.BasisPoints, Money.Quantise;
  }

  lemma CreditsBeside(c: Contract, floor: Date, l: LoanState, on: Date, q: Fees.Quote)
    ensures LoanCredited(c.(notBeforeDue := floor), l, on, q) == LoanCredited(c, l, on, q)
  {
  }

  lemma {:induction false} NamesBeside(ps: seq<Position>, qs: seq<Position>, id: string, k: nat)
    requires LoansBeside(ps, qs) && k <= |ps|
    ensures LoanNamed(qs, id, k) == LoanNamed(ps, id, k)
    decreases |ps| - k
  {
    if k < |ps| && ps[k].id != id {
      NamesBeside(ps, qs, id, k + 1);
    }
  }

  // ---------- Steps that never ask the memo ----------

  lemma PrepayingAlike(w: World, v: World, s: Snap, i: nat, on: Date, q: Fees.Quote, early: bool)
    requires Over(w, s) && Beside(w, v) && Hearing(w, v, s.memo) && i < |s.loans|
    ensures Alike(w, v, Prepaying(w, s, i, on, q, early), Prepaying(v, Plainly(s), i, on, q, early))
  {
    hide Hearing, LoansBeside, LoanCredited, ResultCredited, MonthCredited, Counted, Cleared, BudgetAfter, Freed;
    BudgetsBeside(w, v);
    PositionBeside(w, v, i);
    CreditsBeside(w.input.loans[i].contract, v.input.loans[i].contract.notBeforeDue, s.loans[i], on, q);
  }

  lemma BudgetsBeside(w: World, v: World)
    requires Beside(w, v)
    ensures forall budget, freed: nat :: BudgetAfter(v, budget, freed) == BudgetAfter(w, budget, freed)
    ensures forall outflow :: Counted(v, outflow) == Counted(w, outflow)
  {
    hide LoansBeside;
  }

  lemma QuotedAlike(w: World, v: World, s: Snap, i: nat, on: Date, available: int)
    requires Over(w, s) && Beside(w, v) && Hearing(w, v, s.memo) && i < |s.loans| && IsSet(on)
    ensures Alike(w, v, Quoted(w, s, i, on, available).0, Quoted(v, Plainly(s), i, on, available).0)
    ensures Quoted(w, s, i, on, available).1 == Quoted(v, Plainly(s), i, on, available).1
  {
    hide Hearing, LoansBeside, AccruedTo, QuoteOf;
    PositionBeside(w, v, i);
    var p, floor := w.input.loans[i], v.input.loans[i].contract.notBeforeDue;
    FloorIsNotRead(p, floor, s.loans[i], on);
    QuotesBeside(p, floor, AccruedTo(p, s.loans[i], on), on, available);
  }

  lemma OfferedAlike(w: World, v: World, s: Snap, i: nat, on: Date, surplus: int)
    requires Over(w, s) && Beside(w, v) && Hearing(w, v, s.memo) && i < |s.loans| && IsDay(on)
    ensures Alike(w, v, Offered(w, s, i, on, surplus).0, Offered(v, Plainly(s), i, on, surplus).0)
    ensures Offered(w, s, i, on, surplus).1 == Offered(v, Plainly(s), i, on, surplus).1
  {
    hide Hearing, LoansBeside, Quoted, Prepaying, HeldBack;
    QuotedAlike(w, v, s, i, on, surplus);
    var (asked, q) := Quoted(w, s, i, on, surplus);
    PositionBeside(w, v, i);
    HeldBackAlike(w, v, asked, q);
    PrepayingAlike(w, v, asked, i, on, q, true);
  }

  lemma {:induction false} OfferedFromAlike(w: World, v: World, s: Snap, on: Date, surplus: int, k: nat)
    requires Over(w, s) && Beside(w, v) && Hearing(w, v, s.memo) && IsDay(on) && k <= |w.policy.order|
    ensures Alike(w, v, OfferedFrom(w, s, on, surplus, k), OfferedFrom(v, Plainly(s), on, surplus, k))
    decreases |w.policy.order| - k
  {
    hide Hearing, LoansBeside, Offered;
    if k < |w.policy.order| {
      var i := w.policy.order[k];
      if 0 <= i < |s.loans| {
        PositionBeside(w, v, i);
      }
      if 0 <= i < |s.loans| && !s.loans[i].closed && !w.input.loans[i].optionalExcluded && surplus > 0 {
        OfferedAlike(w, v, s, i, on, surplus);
        var (one, left) := Offered(w, s, i, on, surplus);
        if one.err.None? {
          OfferedFromAlike(w, v, one, on, left, k + 1);
        }
      } else {
        OfferedFromAlike(w, v, s, on, surplus, k + 1);
      }
    }
  }

  lemma PaidTowardsAlike(w: World, v: World, s: Snap, i: nat, on: Date, want: int)
    requires Over(w, s) && Beside(w, v) && Hearing(w, v, s.memo) && i < |s.loans| && IsDay(on)
    ensures Alike(w, v, PaidTowards(w, s, i, on, want), PaidTowards(v, Plainly(s), i, on, want))
  {
    hide Hearing, LoansBeside, Quoted, Prepaying;
    QuotedAlike(w, v, s, i, on, want);
    var (asked, q) := Quoted(w, s, i, on, want);
    PrepayingAlike(w, v, asked, i, on, q, false);
  }

  lemma SurplusAlike(w: World, v: World, s: Snap, on: Date)
    requires Beside(w, v)
    requires IsDay(on)
    ensures SurplusIn(v, Plainly(s), on) == SurplusIn(w, s, on)
  {
    hide Reservations, Claims, PeriodEnd;
  }

  lemma HeldPaidAlike(w: World, v: World, s: Snap, i: nat, on: Date)
    requires Over(w, s) && Beside(w, v) && Hearing(w, v, s.memo) && i < |s.loans| && IsDay(on)
    ensures Alike(w, v, HeldPaid(w, s, i, on).0, HeldPaid(v, Plainly(s), i, on).0)
    ensures HeldPaid(w, s, i, on).1 == HeldPaid(v, Plainly(s), i, on).1
  {
    hide Hearing, LoansBeside, PaidTowards, WantedIn, Lapsed;
    FreedAlike(s, i);
    WantedAlike(w, v, s, i, on);
    PaidTowardsAlike(w, v, Lapsed(s, i), i, on, WantedIn(w, s, i, on));
  }

  lemma FreedAlike(s: Snap, i: nat)
    requires i < |s.loans|
    ensures Lapsed(Plainly(s), i) == Plainly(Lapsed(s, i)) && Lapsed(s, i).memo == s.memo
  {
  }

  lemma WantedAlike(w: World, v: World, s: Snap, i: nat, on: Date)
    requires Beside(w, v)
    requires i < |s.loans| && IsDay(on)
    ensures WantedIn(v, Plainly(s), i, on) == WantedIn(w, s, i, on)
  {
    hide SurplusIn, Lapsed;
    FreedAlike(s, i);
    SurplusAlike(w, v, Lapsed(s, i), on);
  }

  lemma DueTakenAlike(w: World, v: World, s: Snap, i: nat, on: Date, required: nat)
    requires Over(w, s) && Beside(w, v) && Hearing(w, v, s.memo) && i < |s.loans|
    ensures Alike(w, v, DueTaken(w, s, i, on, required), DueTaken(v, Plainly(s), i, on, required))
  {
    hide Hearing, LoansBeside, DueCredited, Shut;
    CreditedAlike(w, v, s, i, required);
    ShutAlike(w, v, DueCredited(w, s, i, required), i, on);
  }

  lemma CreditedAlike(w: World, v: World, s: Snap, i: nat, required: nat)
    requires Beside(w, v)
    requires Over(w, s) && i < |s.loans|
    ensures DueCredited(v, Plainly(s), i, required) == Plainly(DueCredited(w, s, i, required))
    ensures DueCredited(w, s, i, required).memo == s.memo
  {
    hide Counted, LoansBeside;
    BudgetsBeside(w, v);
  }

  lemma ShutAlike(w: World, v: World, s: Snap, i: nat, on: Date)
    requires Beside(w, v)
    requires Over(w, s) && i < |s.loans|
    ensures Shut(v, Plainly(s), i, on) == Plainly(Shut(w, s, i, on)) && Shut(w, s, i, on).memo == s.memo
  {
    hide Cleared, BudgetAfter, Freed, Retired, LoansBeside;
    BudgetsBeside(w, v);
  }

  lemma BookedAlike(w: World, v: World, s: Snap, i: nat, on: Date)
    requires Beside(w, v)
    requires Over(w, s) && i < |s.loans| && IsSet(on)
    ensures InterestBooked(v, Plainly(s), i, on) == Plainly(InterestBooked(w, s, i, on))
  {
    hide BookedOn, LoansBeside;
    PositionBeside(w, v, i);
    FloorIsNotRead(w.input.loans[i], v.input.loans[i].contract.notBeforeDue, s.loans[i], on);
  }

  lemma ReceivedOneAlike(s: Snap, e: CashEvent)
    ensures ReceivedOne(Plainly(s), e) == Plainly(ReceivedOne(s, e)) && ReceivedOne(s, e).memo == s.memo
  {
    hide RoutedIn;
    if e.routing.Some? {
      var buckets := RoutedIn(s.buckets, e);
      assert ReceivedOne(s, e) == s.(inflow := s.inflow + e.amount, buckets := buckets);
      assert ReceivedOne(Plainly(s), e) == Plainly(s).(inflow := s.inflow + e.amount, buckets := buckets);
    }
  }

  lemma {:induction false} ReceivedFromAlike(w: World, v: World, s: Snap, all: seq<CashEvent>, on: Date, k: nat, remaining: seq<CashEvent>)
    requires Beside(w, v) && Hearing(w, v, s.memo) && k <= |all|
    ensures Alike(w, v, ReceivedFrom(s, all, on, k, remaining), ReceivedFrom(Plainly(s), all, on, k, remaining))
    decreases |all| - k
  {
    hide Hearing, LoansBeside, ReceivedOne;
    if k < |all| {
      if all[k].on != on {
        ReceivedFromAlike(w, v, s, all, on, k + 1, remaining + [all[k]]);
      } else {
        ReceivedOneAlike(s, all[k]);
        ReceivedFromAlike(w, v, ReceivedOne(s, all[k]), all, on, k + 1, remaining);
      }
    }
  }

  lemma LumpReceivedAlike(w: World, v: World, s: Snap, k: nat, on: Date)
    requires Beside(w, v) && Hearing(w, v, s.memo) && k < |s.lumps|
    ensures Alike(w, v, LumpReceived(s, k, on), LumpReceived(Plainly(s), k, on))
  {
    hide Hearing, LoansBeside, ReceivedFrom;
    assert WithCycle(Plainly(s), on) == Plainly(WithCycle(s, on));
    if s.hasRouting {
      ReceivedFromAlike(w, v, WithCycle(s, on), s.lumps, on, 0, []);
    }
  }

  lemma ClosedCycleAlike(s: Snap)
    ensures ClosedCycle(Plainly(s)) == Plainly(ClosedCycle(s)) && ClosedCycle(s).memo == s.memo
  {
    hide OpenBalance, Restricted, CycleRecorded;
  }

  lemma TurnedAlike(s: Snap, on: Date)
    ensures Turned(Plainly(s), on) == Plainly(Turned(s, on)) && Turned(s, on).memo == s.memo
  {
    hide ClosedCycle;
    ClosedCycleAlike(s);
  }

  lemma PayDayBeside(w: World, v: World, on: Date)
    requires Beside(w, v) && IsSet(on)
    ensures NextPayDay(v, on) == NextPayDay(w, on)
  {
    hide LoansBeside;
  }

  lemma IncomeTakenAlike(w: World, v: World, s: Snap, on: Date)
    requires Beside(w, v) && Hearing(w, v, s.memo) && IsSet(on)
    ensures Alike(w, v, IncomeTaken(w, s, on), IncomeTaken(v, Plainly(s), on))
  {
    hide Hearing, LoansBeside, Turned, NextPayDay, CreditIn;
    PayDayBeside(w, v, on);
    TurnedAlike(s, on);
    CreditAlike(w, v, s, on);
  }

  lemma CreditAlike(w: World, v: World, s: Snap, on: Date)
    requires Beside(w, v)
    ensures CreditIn(v, Plainly(s), on) == CreditIn(w, s, on)
  {
  }

  lemma GrantedAlike(w: World, v: World, s: Snap, on: Date)
    requires Beside(w, v) && Hearing(w, v, s.memo) && w.input.Separate() && IsDay(on)
    ensures Alike(w, v, Granted(w, s, on), Granted(v, Plainly(s), on))
  {
    hide Hearing, LoansBeside, PeriodStart, LimitOn, SpentIn;
    SpentAlike(w, v, s, on);
  }

  lemma SpentAlike(w: World, v: World, s: Snap, on: Date)
    requires Beside(w, v)
    requires w.input.Separate() && IsDay(on)
    ensures SpentIn(v, Plainly(s), on) == SpentIn(w, s, on)
  {
    hide PeriodStart, LoansBeside;
  }

  lemma PeriodTurnedAlike(w: World, v: World, s: Snap, on: Date)
    requires Beside(w, v)
    ensures PeriodTurned(v, Plainly(s), on) == Plainly(PeriodTurned(w, s, on)) && PeriodTurned(w, s, on).memo == s.memo
  {
    hide Turned, HandedOver;
    HandedOverAlike(w, v, s);
    TurnedAlike(s, on);
    TurnedAlike(HandedOver(w, s), on);
  }

  lemma HandedOverAlike(w: World, v: World, s: Snap)
    requires Beside(w, v)
    ensures HandedOver(v, Plainly(s)) == Plainly(HandedOver(w, s)) && HandedOver(w, s).memo == s.memo
  {
    hide Reservations;
  }

  lemma TermsRenewedAlike(w: World, v: World, s: Snap, on: Date, newPeriod: bool, terms: (CarryRule, int, Date))
    requires Beside(w, v) && Hearing(w, v, s.memo) && w.input.Separate() && IsDay(on)
    ensures Alike(w, v, TermsRenewed(w, s, on, newPeriod, terms), TermsRenewed(v, Plainly(s), on, newPeriod, terms))
  {
    hide Hearing, LoansBeside, PeriodTurned, NextChange, Released, CarryIn;
    var released := s.(nextPeriod := NextChange(w.input.cash.spending.value, on), loans := Released(s.loans));
    PeriodTurnedAlike(w, v, released, on);
    CarryAlike(if newPeriod then PeriodTurned(w, released, on) else released, on, terms);
  }

  lemma CarryAlike(s: Snap, on: Date, terms: (CarryRule, int, Date))
    ensures CarryIn(Plainly(s), on, terms) == Plainly(CarryIn(s, on, terms)) && CarryIn(s, on, terms).memo == s.memo
  {
    hide Before, After;
  }

  // ---------- Steps that ask it ----------

  /** A fresh obligation for a loan that is heard is the one the world heard gives it. */
  lemma RenewedHears(w: World, v: World, s: Snap, i: nat)
    requires Beside(w, v) && |s.loans| <= |w.input.loans| && i < |s.loans| && Telling(w, v, s.memo) && Owes(w, i) && HearsLoan(w, v, s.memo, i)
    ensures var r := Renewed(w, s, i);
            && Renewed(v, Plainly(s), i) == Plainly(r) && Telling(w, v, r.memo) && ProjectionMemo.Grows(s.memo, r.memo)
            && (IsSet(s.loans[i].from) && r.err.None? && s.memo.Tables? ==>
                  r.memo.Tables? && ProjectionMemo.FingerprintOf(w.input.loans[i].contract) in r.memo.calendars)
  {
    hide LoansBeside, ProjectionMemo.Voiced, ProjectionMemo.Told, ProjectionMemo.Hears, ProjectionMemo.NextFor,
      ProjectionMemo.Ask, Refreshed;
    if IsSet(s.loans[i].from) {
      var cs, vs, t := ContractsOf(w.input), ContractsOf(v.input), TermsOf(s.loans[i]);
      assert cs[i] == w.input.loans[i].contract && vs[i] == v.input.loans[i].contract;
      ProjectionMemo.AskingHears(s.memo, cs, vs, LiveOf(w.input), i, t);
      AskingNothing(vs[i], t);
    }
  }

  lemma StillHearing(w: World, v: World, memo: ProjectionMemo.Memo, memo': ProjectionMemo.Memo)
    requires Hearing(w, v, memo) && Telling(w, v, memo') && ProjectionMemo.Grows(memo, memo')
    ensures Hearing(w, v, memo')
  {
    hide Telling, ProjectionMemo.Hears, ProjectionMemo.Grows;
    forall i: nat | Owes(w, i) ensures HearsLoan(w, v, memo', i) {
      assert HearsLoan(w, v, memo, i);
      ProjectionMemo.HearsStill(memo, memo', w.input.loans[i].contract, v.input.loans[i].contract);
    }
  }

  lemma RenewedAlike(w: World, v: World, s: Snap, i: nat)
    requires |s.loans| <= |w.input.loans| && Beside(w, v) && Hearing(w, v, s.memo) && i < |s.loans| && Owes(w, i)
    ensures Alike(w, v, Renewed(w, s, i), Renewed(v, Plainly(s), i))
  {
    hide LoansBeside, Telling, Renewed, Owes, HearsLoan;
    RenewedHears(w, v, s, i);
    StillHearing(w, v, s.memo, Renewed(w, s, i).memo);
  }

  /** A due asks what the calendar heard asks. */
  lemma DueMetAlike(w: World, v: World, s: Snap, i: nat, on: Date)
    requires Over(w, s) && Beside(w, v) && Hearing(w, v, s.memo) && i < |s.loans| && Owes(w, i) && IsSet(on)
    ensures Alike(w, v, DueMet(w, s, i, on), DueMet(v, Plainly(s), i, on))
  {
    hide LoansBeside, InterestBooked, AskedToday, DuePaid, ProjectionMemo.Resolve, ProjectionMemo.Voiced,
      ProjectionMemo.Told, ProjectionMemo.Hears, ProjectionMemo.ProjectsAs, Amortisation.PaymentDates;
    var cs, vs := ContractsOf(w.input), ContractsOf(v.input);
    assert cs[i] == w.input.loans[i].contract && vs[i] == v.input.loans[i].contract;
    assert HearsLoan(w, v, s.memo, i);
    ProjectionMemo.ResolvingHears(s.memo, cs, vs, LiveOf(w.input), i);
    ResolvingNothing(vs[i]);
    BookedAlike(w, v, s, i, on);
    var (calendar, memo) := ProjectionMemo.Resolve(s.memo, cs[i]);
    StillHearing(w, v, s.memo, memo);
    match calendar {
      case Err(_) =>
      case Ok(c) =>
        var booked := InterestBooked(w, s, i, on);
        SameAsked(c, vs[i], booked.loans[i], on);
        DuePaidAlike(w, v, booked.(memo := memo), i, on, AskedToday(c, booked.loans[i], on));
    }
  }

  lemma ResolvingNothing(c: Contract)
    ensures ProjectionMemo.Resolve(ProjectionMemo.Forgetful, c)
            == (match Amortisation.PaymentDates(c) case Ok(_) => Amortisation.Ok(c) case Err(why) => Amortisation.Err(why), ProjectionMemo.Forgetful)
  {
  }

  lemma SameAsked(c: Contract, c': Contract, l: LoanState, on: Date)
    requires ProjectionMemo.ProjectsAs(c, c')
    ensures AskedToday(c, l, on) == AskedToday(c', l, on)
  {
    hide ProjectionMemo.NextFor, Amortisation.DatesAhead;
  }

  lemma DuePaidAlike(w: World, v: World, s: Snap, i: nat, on: Date, required: nat)
    requires Over(w, s) && Beside(w, v) && Hearing(w, v, s.memo) && i < |s.loans| && IsSet(on)
    ensures Alike(w, v, DuePaid(w, s, i, on, required), DuePaid(v, Plainly(s), i, on, required))
  {
    hide LoansBeside, Hearing, DueTaken;
    DueTakenAlike(w, v, s, i, on, required);
  }

  lemma AskingNothing(c: Contract, t: ProjectionMemo.Terms)
    requires IsSet(t.from)
    ensures ProjectionMemo.Ask(ProjectionMemo.Forgetful, c, t) == (ProjectionMemo.NextFor(c, t), ProjectionMemo.Forgetful)
  {
  }

  lemma BucketSpentAlike(w: World, v: World, s: Snap, k: nat, i: nat, on: Date, dueLoan: int, q: Fees.Quote, early: bool)
    requires Over(w, s) && Beside(w, v) && Hearing(w, v, s.memo) && i < |s.loans| && Owes(w, i) && k < |s.buckets|
    ensures Alike(w, v, BucketSpent(w, s, k, i, on, dueLoan, q, early), BucketSpent(v, Plainly(s), k, i, on, dueLoan, q, early))
  {
    hide Hearing, LoansBeside, Prepaying, Renewed, Moved;
    if q.outflow <= s.buckets[k].remaining {
      MovedAlike(s, k, q.outflow);
      PrepayingAlike(w, v, Moved(s, k, q.outflow), i, on, q, early);
      RenewedAlike(w, v, Prepaying(w, Moved(s, k, q.outflow), i, on, q, early), i);
    }
  }

  lemma MovedAlike(s: Snap, k: nat, amount: nat)
    requires k < |s.buckets| && amount <= s.buckets[k].remaining
    ensures Moved(Plainly(s), k, amount) == Plainly(Moved(s, k, amount)) && Moved(s, k, amount).memo == s.memo
  {
  }

  lemma RoutedToAlike(w: World, v: World, s: Snap, k: nat, i: nat, on: Date, dueLoan: int)
    requires Over(w, s) && Beside(w, v) && Hearing(w, v, s.memo) && i < |s.loans| && Owes(w, i) && k < |s.buckets| && IsDay(on)
    ensures Alike(w, v, RoutedTo(w, s, k, i, on, dueLoan), RoutedTo(v, Plainly(s), k, i, on, dueLoan))
  {
    hide Hearing, LoansBeside, Quoted, BucketSpent, SurplusIn, Before, HeldBack;
    var b := s.buckets[k];
    var richer := s.(cash := s.cash + b.remaining);
    SurplusAlike(w, v, richer, on);
    assert Plainly(s).(cash := s.cash + b.remaining) == Plainly(richer);
    var surplus := SurplusIn(w, richer, on);
    var available := if surplus > b.remaining then b.remaining else surplus;
    QuotedAlike(w, v, s, i, on, available);
    var (asked, q) := Quoted(w, s, i, on, available);
    HeldBackAlike(w, v, asked, q);
    BucketSpentAlike(w, v, asked, k, i, on, dueLoan, q, i != dueLoan && s.loans[i].timing == OnReceipt && Before(on, s.loans[i].due));
  }

  lemma HeldBackAlike(w: World, v: World, s: Snap, q: Fees.Quote)
    requires Beside(w, v)
    ensures HeldBack(v, Plainly(s), q) == HeldBack(w, s, q)
  {
  }

  lemma RoutedOneAlike(w: World, v: World, s: Snap, k: nat, on: Date, dueLoan: int)
    requires Over(w, s) && Beside(w, v) && Hearing(w, v, s.memo) && Owing(w, s) && k < |s.buckets| && IsDay(on)
    ensures Alike(w, v, RoutedOne(w, s, k, on, dueLoan), RoutedOne(v, Plainly(s), k, on, dueLoan))
  {
    hide Hearing, LoansBeside, Owing, Owes, RoutedTo, Routing.Reconsidered, Routing.Spendable;
    var b := Routing.Reconsidered(s.buckets[k], on);
    var kept := s.(buckets := s.buckets[k := b]);
    assert Plainly(s).(buckets := s.buckets[k := b]) == Plainly(kept);
    var i := LoanNamed(w.input.loans, b.target, 0);
    NamesBeside(w.input.loans, v.input.loans, b.target, 0);
    if 0 <= i && !s.loans[i].closed {
      OpenOwes(w, s, i);
      RoutedToAlike(w, v, kept, k, i, on, dueLoan);
    }
  }

  lemma {:induction false} RoutedFromAlike(w: World, v: World, s: Snap, k: nat, on: Date, dueLoan: int)
    requires Over(w, s) && Beside(w, v) && Hearing(w, v, s.memo) && Owing(w, s) && k <= |s.buckets| && IsDay(on)
    ensures Alike(w, v, RoutedFrom(w, s, k, on, dueLoan), RoutedFrom(v, Plainly(s), k, on, dueLoan))
    decreases |s.buckets| - k
  {
    hide Hearing, LoansBeside, RoutedOne;
    if k < |s.buckets| {
      RoutedOneAlike(w, v, s, k, on, dueLoan);
      var one := RoutedOne(w, s, k, on, dueLoan);
      StillOwing(w, s, one);
      if one.err.None? {
        RoutedFromAlike(w, v, one, k + 1, on, dueLoan);
      }
    }
  }

  lemma AllocatedAlike(w: World, v: World, s: Snap, on: Date)
    requires Over(w, s) && Beside(w, v) && Hearing(w, v, s.memo) && Owing(w, s) && IsDay(on)
    ensures Alike(w, v, Allocated(w, s, on), Allocated(v, Plainly(s), on))
  {
    hide Hearing, LoansBeside, RoutedFrom, OfferedFrom, SurplusIn;
    RoutedFromAlike(w, v, s, 0, on, -1);
    var routed := Routed(w, s, on, -1);
    SurplusAlike(w, v, routed, on);
    OfferedFromAlike(w, v, routed, on, SurplusIn(w, routed, on), 0);
  }

  lemma EarnedAlike(w: World, v: World, s: Snap, on: Date)
    requires Over(w, s) && Beside(w, v) && Hearing(w, v, s.memo) && Owing(w, s) && IsDay(on)
    ensures Alike(w, v, Earned(w, s, on), Earned(v, Plainly(s), on))
  {
    hide Hearing, LoansBeside, IncomeTaken, Allocated;
    IncomeTakenAlike(w, v, s, on);
    StillOwing(w, s, IncomeTaken(w, s, on));
    AllocatedAlike(w, v, IncomeTaken(w, s, on), on);
  }

  lemma RestMetAlike(w: World, v: World, s: Snap, i: nat, on: Date)
    requires Over(w, s) && Beside(w, v) && Hearing(w, v, s.memo) && i < |s.loans| && Owes(w, i) && IsDay(on)
    ensures Alike(w, v, RestMet(w, s, i, on), RestMet(v, Plainly(s), i, on))
  {
    hide Hearing, LoansBeside, Renewed, HeldPaid;
    RenewedAlike(w, v, s, i);
    var renewed := if w.input.Separate() then Renewed(w, s, i) else s;
    HeldPaidAlike(w, v, renewed, i, on);
    RenewedAlike(w, v, HeldPaid(w, renewed, i, on).0, i);
  }

  lemma DueArrivedAlike(w: World, v: World, s: Snap, on: Date)
    requires Over(w, s) && Beside(w, v) && Hearing(w, v, s.memo) && Owing(w, s) && IsDay(on)
    ensures Alike(w, v, DueArrived(w, s, on), DueArrived(v, Plainly(s), on))
  {
    hide Hearing, LoansBeside, Earned, Owing, StaysShut;
    EarnedAlike(w, v, s, on);
    WithCycleAlike(s, on);
    WithCycleAlike(Earned(w, s, on), on);
  }

  lemma WithCycleAlike(s: Snap, on: Date)
    ensures WithCycle(Plainly(s), on) == Plainly(WithCycle(s, on)) && WithCycle(s, on).memo == s.memo
  {
  }

  lemma DueSettledAlike(w: World, v: World, s: Snap, i: nat, on: Date)
    requires Over(w, s) && Beside(w, v) && Hearing(w, v, s.memo) && i < |s.loans| && Owes(w, i) && IsDay(on)
    ensures Alike(w, v, DueSettled(w, s, i, on), DueSettled(v, Plainly(s), i, on))
  {
    hide Hearing, LoansBeside, DueMet, RestMet, StaysShut;
    DueMetAlike(w, v, s, i, on);
    RestMetAlike(w, v, DueMet(w, s, i, on), i, on);
  }

  lemma DuePassedAlike(w: World, v: World, s: Snap, i: nat, on: Date)
    requires Over(w, s) && Beside(w, v) && Hearing(w, v, s.memo) && i < |s.loans| && Owes(w, i) && Owing(w, s) && IsDay(on)
    ensures Alike(w, v, DuePassed(w, s, i, on), DuePassed(v, Plainly(s), i, on))
  {
    hide Hearing, LoansBeside, DueArrived, DueSettled, RoutedFrom, Owing, StaysShut, Owes;
    DueArrivedAlike(w, v, s, on);
    var arrived := DueArrived(w, s, on);
    DueSettledAlike(w, v, arrived, i, on);
    StillOwing(w, s, arrived);
    StillOwing(w, arrived, DueSettled(w, arrived, i, on));
    RoutedFromAlike(w, v, DueSettled(w, arrived, i, on), 0, on, i);
  }

  lemma LumpTakenAlike(w: World, v: World, s: Snap, k: nat, on: Date)
    requires Over(w, s) && Beside(w, v) && Hearing(w, v, s.memo) && Owing(w, s) && k < |s.lumps| && IsDay(on)
    ensures Alike(w, v, LumpTaken(w, s, k, on), LumpTaken(v, Plainly(s), k, on))
  {
    hide Hearing, LoansBeside, LumpReceived, Allocated, Owing, StaysShut;
    StillOwing(w, s, LumpReceived(s, k, on));
    LumpReceivedAlike(w, v, s, k, on);
    AllocatedAlike(w, v, LumpReceived(s, k, on), on);
  }

  lemma ReviewedAlike(w: World, v: World, s: Snap, on: Date)
    requires Over(w, s) && Beside(w, v) && Hearing(w, v, s.memo) && Owing(w, s) && w.input.Separate() && IsDay(on)
    ensures Alike(w, v, Reviewed(w, s, on), Reviewed(v, Plainly(s), on))
  {
    hide Hearing, LoansBeside, Granted, TermsRenewed, Allocated, CarryAfter, InForce;
    var p, granted := w.input.cash.spending.value, Granted(w, s, on);
    GrantedAlike(w, v, s, on);
    var terms := CarryAfter(p, InForce(p.changes, on));
    TermsRenewedAlike(w, v, granted, on, s.periodStart != granted.periodStart, terms);
    StillOwing(w, s, granted);
    StillOwing(w, granted, TermsRenewed(w, granted, on, s.periodStart != granted.periodStart, terms));
    AllocatedAlike(w, v, TermsRenewed(w, granted, on, s.periodStart != granted.periodStart, terms), on);
  }

  lemma HappenedAlike(w: World, v: World, s: Snap, e: Event, on: Date)
    requires Over(w, s) && Beside(w, v) && Hearing(w, v, s.memo) && Owing(w, s) && (e.DueEvent? ==> Owes(w, e.loan))
    ensures Alike(w, v, Happened(w, s, e, on), Happened(v, Plainly(s), e, on))
  {
    hide Hearing, LoansBeside, Reviewed, Earned, Allocated, DuePassed, LumpTaken, WithCycle, Owing, StaysShut, Owes;
    if IsDay(on) {
      match e {
        case PeriodEvent =>
          if w.input.Separate() {
            ReviewedAlike(w, v, s, on);
          }
        case LumpEvent(k) =>
          if k < |s.lumps| {
            LumpTakenAlike(w, v, s, k, on);
          }
        case IncomeEvent => EarnedAlike(w, v, s, on);
        case RouteEvent =>
          WithCycleAlike(s, on);
          CycleKeepsLoans(s, on);
          StillOwing(w, s, WithCycle(s, on));
          AllocatedAlike(w, v, WithCycle(s, on), on);
        case DueEvent(i) =>
          if i < |s.loans| {
            DuePassedAlike(w, v, s, i, on);
          }
      }
    }
  }

  lemma CycleKeepsLoans(s: Snap, on: Date)
    ensures WithCycle(s, on).loans == s.loans && StaysShut(s.loans, s.loans)
  {
  }

  lemma PickedAlike(s: Snap)
    ensures Picked(Plainly(s)) == Picked(s)
  {
    hide BestWake, BestLump, BestDue;
  }

  /** A due is picked for an open loan. */
  lemma PickedIsOpen(s: Snap)
    ensures Picked(s).Some? && Picked(s).value.0.DueEvent? ==>
              Picked(s).value.0.loan < |s.loans| && !s.loans[Picked(s).value.0.loan].closed
  {
    hide BestDue, BestLump, BestWake, Better;
    var start: Option<(Event, Date)> := None;
    var period := if IsSet(s.nextPeriod) then Better(start, PeriodEvent, s.nextPeriod) else start;
    BetterIsEither(start, PeriodEvent, s.nextPeriod);
    BetterIsEither(period, IncomeEvent, s.nextIncome);
    var income := if IsSet(s.nextIncome) then Better(period, IncomeEvent, s.nextIncome) else period;
    WakeIsNoDue(income, s.buckets);
    LumpIsNoDue(BestWake(income, s.buckets), s.lumps);
    DueIsOpen(BestLump(BestWake(income, s.buckets), s.lumps), s.loans);
  }

  lemma BetterIsEither(best: Option<(Event, Date)>, e: Event, on: Date)
    ensures Better(best, e, on) == best || Better(best, e, on) == Some((e, on))
  {
  }

  predicate NoDue(best: Option<(Event, Date)>) {
    best.Some? ==> !best.value.0.DueEvent?
  }

  lemma {:induction false} WakeIsNoDue(best: Option<(Event, Date)>, buckets: seq<CashBucket>)
    requires NoDue(best)
    ensures NoDue(BestWake(best, buckets))
  {
    if buckets != [] {
      WakeIsNoDue(best, buckets[..|buckets| - 1]);
    }
  }

  lemma {:induction false} LumpIsNoDue(best: Option<(Event, Date)>, lumps: seq<CashEvent>)
    requires NoDue(best)
    ensures NoDue(BestLump(best, lumps))
  {
    if lumps != [] {
      LumpIsNoDue(best, lumps[..|lumps| - 1]);
    }
  }

  lemma {:induction false} DueIsOpen(best: Option<(Event, Date)>, loans: seq<LoanState>)
    requires NoDue(best)
    ensures var r := BestDue(best, loans); r.Some? && r.value.0.DueEvent? ==> r.value.0.loan < |loans| && !loans[r.value.0.loan].closed
  {
    if loans != [] {
      DueIsOpen(best, loans[..|loans| - 1]);
    }
  }

  lemma NextAlike(w: World, v: World, s: Snap)
    requires Over(w, s) && Beside(w, v) && Hearing(w, v, s.memo) && Owing(w, s) && IsDay(w.input.valuation)
    ensures Alike(w, v, Next(w, s), Next(v, Plainly(s)))
  {
    hide Hearing, LoansBeside, Happened, Picked;
    PickedAlike(s);
    match Picked(s) {
      case None =>
      case Some(pick) =>
        PickedIsOpen(s);
        HappenedAlike(w, v, s, pick.0, pick.1);
    }
  }

  // ---------- Whole runs ----------

  lemma {:induction false} StepsAlike(w: World, v: World, s: Snap, n: nat)
    requires Over(w, s) && Beside(w, v) && Hearing(w, v, s.memo) && Owing(w, s) && IsDay(w.input.valuation)
    ensures Alike(w, v, Steps(w, s, n), Steps(v, Plainly(s), n))
    decreases n
  {
    hide Hearing, LoansBeside, Next, Owing;
    if n > 0 && !Ended(s) {
      NextAlike(w, v, s);
      StillOwing(w, s, Next(w, s));
      StepsAlike(w, v, Next(w, s), n - 1);
    }
  }

  /** Steps that agree stop together. */
  lemma StopsAlike(w: World, v: World, s: Snap)
    requires Over(w, s) && Beside(w, v) && Hearing(w, v, s.memo) && Owing(w, s) && IsDay(w.input.valuation)
    ensures Stops(w, s) <==> Stops(v, Plainly(s))
    ensures Stops(w, s) ==> Alike(w, v, StopOf(w, s), StopOf(v, Plainly(s)))
  {
    hide Hearing, LoansBeside, Steps, Alike, Owing;
    forall n: nat ensures Ended(Steps(w, s, n)) <==> Ended(Steps(v, Plainly(s), n)) {
      StepsAlike(w, v, s, n);
      EndedAlike(w, v, Steps(w, s, n), Steps(v, Plainly(s), n));
    }
    if Stops(w, s) {
      var n: nat :| Ended(Steps(w, s, n)) && StopOf(w, s) == Steps(w, s, n);
      StepsAlike(w, v, s, n);
      var m: nat :| Ended(Steps(v, Plainly(s), m)) && StopOf(v, Plainly(s)) == Steps(v, Plainly(s), m);
      EndIsUnique(v, Plainly(s), n, m);
    }
  }

  lemma EndedAlike(w: World, v: World, r: Snap, bare: Snap)
    requires Alike(w, v, r, bare)
    ensures (Ended(r) <==> Ended(bare)) && OutcomeOf(r) == OutcomeOf(bare)
  {
    EndedPlainly(r);
  }

  lemma EndedPlainly(r: Snap)
    ensures (Ended(r) <==> Ended(Plainly(r))) && OutcomeOf(r) == OutcomeOf(Plainly(r))
  {
    hide ClosedCycle;
    ClosedCycleAlike(r);
  }

  // ---------- Taking up the loans ----------

  /** A loan that owes speaks for itself, or a loan alike to it is taken up before it. */
  ghost predicate Introduced(w: World, v: World, memo: ProjectionMemo.Memo, k: nat)
    requires |w.input.loans| == |v.input.loans|
  {
    Owes(w, k) ==>
      || ProjectionMemo.ProjectsAs(w.input.loans[k].contract, v.input.loans[k].contract)
      || (memo.Tables? && exists j: nat :: j < k && Owes(w, j) && ProjectionMemo.Alike(w.input.loans[j].contract, w.input.loans[k].contract))
  }

  /** The memo remembers the calendar of every loan taken up. */
  predicate Resolved(w: World, memo: ProjectionMemo.Memo, n: nat) {
    memo.Tables? ==> forall j: nat :: j < n && Owes(w, j) ==> ProjectionMemo.FingerprintOf(w.input.loans[j].contract) in memo.calendars
  }

  lemma IntroducedIsHeard(w: World, v: World, memo: ProjectionMemo.Memo, k: nat)
    requires |w.input.loans| == |v.input.loans| && Owes(w, k) && Introduced(w, v, memo, k) && Resolved(w, memo, k)
    ensures HearsLoan(w, v, memo, k)
  {
    hide ProjectionMemo.ProjectsAs;
  }

  lemma StartsWhereItStands(w: World, v: World, k: nat)
    requires Beside(w, v) && k < |w.input.loans|
    ensures var timing, effect := TimingOf(w.policy, k), EffectOf(w.policy, k);
            && Starting(v.input.loans[k], timing, effect) == Starting(w.input.loans[k], timing, effect)
            && Starting(w.input.loans[k], timing, effect).from == w.input.loans[k].from
  {
  }

  lemma LoanTakenHears(w: World, v: World, s: Snap)
    requires Beside(w, v) && |s.loans| < |w.input.loans| && Telling(w, v, s.memo) && IsSet(w.input.loans[|s.loans|].from)
    requires s.err.None? && Introduced(w, v, s.memo, |s.loans|) && Resolved(w, s.memo, |s.loans|)
    ensures var r := LoanTaken(w, s);
            && LoanTaken(v, Plainly(s)) == Plainly(r) && Telling(w, v, r.memo) && (r.memo.Forgetful? <==> s.memo.Forgetful?)
            && (r.err.None? ==> Resolved(w, r.memo, |r.loans|))
  {
    hide LoansBeside, Telling, Renewed, Introduced, HearsLoan, SameMoney, Starting;
    var k := |s.loans|;
    PositionBeside(w, v, k);
    StartsWhereItStands(w, v, k);
    if Owes(w, k) {
      var added := s.(loans := s.loans + [Starting(w.input.loans[k], TimingOf(w.policy, k), EffectOf(w.policy, k))]);
      IntroducedIsHeard(w, v, s.memo, k);
      RenewedHears(w, v, added, k);
    }
  }

  lemma {:induction false} LoansTakenHears(w: World, v: World, s: Snap)
    requires Beside(w, v) && |s.loans| <= |w.input.loans| && Telling(w, v, s.memo) && Resolved(w, s.memo, |s.loans|)
    requires s.err.None? && forall k: nat :: k < |w.input.loans| ==> Introduced(w, v, s.memo, k) && IsSet(w.input.loans[k].from)
    ensures var r := LoansTaken(w, s);
            && LoansTaken(v, Plainly(s)) == Plainly(r) && Telling(w, v, r.memo) && (r.memo.Forgetful? <==> s.memo.Forgetful?)
            && (r.err.None? ==> Resolved(w, r.memo, |w.input.loans|))
    decreases |w.input.loans| - |s.loans|
  {
    hide LoansBeside, Telling, LoanTaken, Resolved, ProjectionMemo.ProjectsAs;
    if |s.loans| < |w.input.loans| {
      LoanTakenHears(w, v, s);
      var one := LoanTaken(w, s);
      if one.err.None? {
        LoansTakenHears(w, v, one);
      }
    }
  }

  lemma {:induction false} LumpsTakenPlainly(s: Snap, events: seq<CashEvent>)
    ensures LumpsTaken(Plainly(s), events) == Plainly(LumpsTaken(s, events)) && LumpsTaken(s, events).memo == s.memo
  {
    hide RoutedIn;
    if events != [] {
      LumpsTakenPlainly(s, events[..|events| - 1]);
    }
  }

  /** Loans taken up are open only where they owe. */
  lemma {:induction false} TakenOwe(w: World, s: Snap)
    requires |s.loans| <= |w.input.loans| && Owing(w, s)
    ensures Owing(w, LoansTaken(w, s))
    decreases |w.input.loans| - |s.loans|
  {
    if s.err.None? && |s.loans| < |w.input.loans| {
      TakenOwes(w, s);
      TakenOwe(w, LoanTaken(w, s));
    }
  }

  lemma TakenOwes(w: World, s: Snap)
    requires |s.loans| < |w.input.loans| && Owing(w, s)
    ensures Owing(w, LoanTaken(w, s))
  {
    hide Refreshed, ProjectionMemo.Ask;
    var k := |s.loans|;
    var added := s.(loans := s.loans + [Starting(w.input.loans[k], TimingOf(w.policy, k), EffectOf(w.policy, k))]);
    assert Owing(w, added);
    RenewedKeepsOpen(w, added, k);
  }

  lemma RenewedKeepsOpen(w: World, s: Snap, i: nat)
    requires i < |s.loans| <= |w.input.loans| && Owing(w, s)
    ensures Owing(w, Renewed(w, s, i))
  {
    hide ProjectionMemo.Ask;
  }

  lemma OneIsHeard(w: World, v: World, memo: ProjectionMemo.Memo, i: nat)
    requires |w.input.loans| == |v.input.loans| && Owes(w, i) && Resolved(w, memo, |w.input.loans|)
    requires memo.Forgetful? ==> Introduced(w, v, memo, i)
    ensures HearsLoan(w, v, memo, i)
  {
    hide ProjectionMemo.ProjectsAs;
  }

  /** Every loan taken up is heard from then on. */
  lemma TakenIsHearing(w: World, v: World, memo: ProjectionMemo.Memo)
    requires |w.input.loans| == |v.input.loans| && Telling(w, v, memo) && Resolved(w, memo, |w.input.loans|)
    requires memo.Forgetful? ==> forall k: nat :: k < |w.input.loans| ==> Introduced(w, v, memo, k)
    ensures Hearing(w, v, memo)
  {
    hide Telling, ProjectionMemo.ProjectsAs, HearsLoan;
    forall i: nat | Owes(w, i) ensures HearsLoan(w, v, memo, i) {
      if memo.Forgetful? {
        assert Introduced(w, v, memo, i);
      }
      OneIsHeard(w, v, memo, i);
    }
  }

  lemma StartedHears(w: World, v: World, memo: ProjectionMemo.Memo)
    requires Beside(w, v) && IsDay(w.input.valuation) && Telling(w, v, memo)
    requires forall k: nat :: k < |w.input.loans| ==> Introduced(w, v, memo, k) && IsSet(w.input.loans[k].from)
    ensures var r := Started(w, memo);
            && Started(v, ProjectionMemo.Forgetful) == Plainly(r) && Telling(w, v, r.memo)
            && (r.err.None? ==> Hearing(w, v, r.memo) && Owing(w, r))
  {
    hide LoansBeside, Telling, LoansTaken, LumpsTaken, ProjectionMemo.ProjectsAs, Introduced, Hearing;
    var blank := Blank(w, memo);
    assert Blank(v, ProjectionMemo.Forgetful) == Plainly(blank);
    LoansTakenHears(w, v, blank);
    var taken := LoansTaken(w, blank);
    LumpsTakenPlainly(taken, w.input.cash.lumps);
    TakenOwe(w, blank);
    if taken.err.None? {
      forall k: nat | k < |w.input.loans| ensures Introduced(w, v, taken.memo, k) {
        SameIntroductions(w, v, memo, taken.memo, k);
      }
      TakenIsHearing(w, v, taken.memo);
    }
  }

  lemma SameIntroductions(w: World, v: World, memo: ProjectionMemo.Memo, memo': ProjectionMemo.Memo, k: nat)
    requires |w.input.loans| == |v.input.loans| && Introduced(w, v, memo, k) && (memo.Forgetful? <==> memo'.Forgetful?)
    ensures Introduced(w, v, memo', k)
  {
    hide ProjectionMemo.ProjectsAs;
  }

  // ---------- What is accepted ----------

  lemma TargetsBeside(ps: seq<Position>, qs: seq<Position>, id: string, amount: int)
    requires LoansBeside(ps, qs)
    ensures TargetAccepts(ps, id, amount) <==> TargetAccepts(qs, id, amount)
  {
    if TargetAccepts(ps, id, amount) {
      var i :| 0 <= i < |ps| && ps[i].id == id && ps[i].balance > 0 && !ps[i].optionalExcluded && ps[i].excess == ReducePrincipal
               && amount % ps[i].contract.rounding.Unit() == 0;
      assert qs[i].id == id;
    }
    if TargetAccepts(qs, id, amount) {
      var i :| 0 <= i < |qs| && qs[i].id == id && qs[i].balance > 0 && !qs[i].optionalExcluded && qs[i].excess == ReducePrincipal
               && amount % qs[i].contract.rounding.Unit() == 0;
      assert ps[i].id == id;
    }
  }

  /** Acceptance does not read the dates the bank names. */
  lemma AcceptedBeside(in_: Input, out: Input)
    requires out == in_.(loans := out.loans) && LoansBeside(in_.loans, out.loans)
    ensures Accepted(in_) <==> Accepted(out)
  {
    hide TargetAccepts, FundingValid;
    FundingBeside(in_, out);
    forall id, amount ensures TargetAccepts(in_.loans, id, amount) <==> TargetAccepts(out.loans, id, amount) {
      TargetsBeside(in_.loans, out.loans, id, amount);
    }
    assert UniqueIds(in_.loans) <==> UniqueIds(out.loans);
    assert forall e :: RoutingAccepted(in_, e) <==> RoutingAccepted(out, e);
  }

  lemma FundingBeside(in_: Input, out: Input)
    requires out == in_.(loans := out.loans)
    ensures FundingValid(in_) <==> FundingValid(out)
  {
  }

  lemma WorldsBeside(in_: Input, out: Input, policy: Policy)
    requires out == in_.(loans := out.loans) && LoansBeside(in_.loans, out.loans)
    ensures Beside(WorldOf(in_, policy), WorldOf(out, policy))
  {
    var a, b := Canonical(in_, policy), Canonical(out, policy);
    assert forall i :: 0 <= i < |policy.effect| ==> a.effect[i] == b.effect[i];
    assert a.effect == b.effect;
  }

  /** A run through a memo that tells of another input is that input's run without a memo. */
  lemma RunHears(in_: Input, out: Input, policy: Policy, memo: ProjectionMemo.Memo)
    requires out == in_.(loans := out.loans) && LoansBeside(in_.loans, out.loans)
    requires var w, v := WorldOf(in_, policy), WorldOf(out, policy);
             Telling(w, v, memo) && forall k: nat :: k < |in_.loans| ==> Introduced(w, v, memo, k)
    ensures RunOf(in_, policy, memo).0 == RunOf(out, policy, ProjectionMemo.Forgetful).0
    ensures Telling(WorldOf(in_, policy), WorldOf(out, policy), RunOf(in_, policy, memo).1)
  {
    hide LoansBeside, Telling, Introduced, Accepted, Covers, Started, Stops, OutcomeOf, WorldOf, Hearing, Owing;
    AcceptedBeside(in_, out);
    WorldsBeside(in_, out, policy);
    WorldIs(in_, policy);
    WorldIs(out, policy);
    if Accepted(in_) && Covers(policy, |in_.loans|) {
      ValuationIsADay(in_);
      var w, v := WorldOf(in_, policy), WorldOf(out, policy);
      StartedHears(w, v, memo);
      var start := Started(w, memo);
      EndedPlainly(start);
      if start.err.None? {
        StopsAlike(w, v, start);
        if Stops(w, start) {
          EndedAlike(w, v, StopOf(w, start), StopOf(v, Plainly(start)));
          HearingTells(w, v, StopOf(w, start).memo);
        }
      }
    }
  }

  lemma WorldIs(in_: Input, policy: Policy)
    ensures WorldOf(in_, policy).input == in_
  {
  }

  lemma HearingTells(w: World, v: World, memo: ProjectionMemo.Memo)
    requires Hearing(w, v, memo)
    ensures Telling(w, v, memo)
  {
  }

  lemma ValuationIsADay(in_: Input)
    requires Accepted(in_)
    ensures IsDay(in_.valuation) && forall k :: 0 <= k < |in_.loans| ==> IsSet(in_.loans[k].from)
  {
    hide RoutingValid, FundingValid;
  }

  // ---------- The input as heard ----------

  /** The first loan that owes anything under a loan's fingerprint, from one on; the loan itself where none does. */
  function SpeakerOf(ps: seq<Position>, i: nat, k: nat): (j: nat)
    requires i < |ps| && k <= |ps|
    ensures j < |ps| && (j == i || (k <= j && ps[j].balance > 0 && ProjectionMemo.Alike(ps[j].contract, ps[i].contract)))
    decreases |ps| - k
  {
    if k == |ps| then i
    else if ps[k].balance > 0 && ProjectionMemo.Alike(ps[k].contract, ps[i].contract) then k
    else SpeakerOf(ps, i, k + 1)
  }

  /** The input as a run hears it through its memo: every loan under the bank's date of the loan that speaks for it. */
  function Heard(in_: Input): (out: Input)
    ensures out == in_.(loans := out.loans) && |out.loans| == |in_.loans|
  {
    in_.(loans := seq(|in_.loans|, i requires 0 <= i < |in_.loans| =>
                        Floored(in_.loans[i], in_.loans[SpeakerOf(in_.loans, i, 0)].contract.notBeforeDue)))
  }

  lemma HeardIsBeside(in_: Input)
    ensures LoansBeside(in_.loans, Heard(in_).loans)
  {
  }

  lemma {:induction false} AlikeHaveOneSpeaker(ps: seq<Position>, i: nat, j: nat, k: nat)
    requires i < |ps| && j < |ps| && k <= |ps| && ps[j].balance > 0 && k <= j && ProjectionMemo.Alike(ps[i].contract, ps[j].contract)
    ensures SpeakerOf(ps, i, k) == SpeakerOf(ps, j, k) <= j
    decreases |ps| - k
  {
    if !(ps[k].balance > 0 && ProjectionMemo.Alike(ps[k].contract, ps[i].contract)) {
      AlikeHaveOneSpeaker(ps, i, j, k + 1);
    }
  }

  /** What is heard is one voice for each fingerprint, and it is the first loan's. */
  lemma HeardIsVoiced(in_: Input)
    ensures ProjectionMemo.Voiced(ContractsOf(in_), ContractsOf(Heard(in_)), LiveOf(in_))
  {
    hide ProjectionMemo.ProjectsAs;
    var cs, vs, live, ps := ContractsOf(in_), ContractsOf(Heard(in_)), LiveOf(in_), in_.loans;
    forall i, j | 0 <= i < |cs| && 0 <= j < |cs| && live[i] && live[j] && ProjectionMemo.Alike(cs[i], cs[j])
      ensures ProjectionMemo.ProjectsAs(vs[i], vs[j])
    {
      AlikeHaveOneSpeaker(ps, i, j, 0);
      ProjectionMemo.SameFloorProjectsAs(vs[i], vs[j]);
    }
  }

  lemma HeardIsIntroduced(in_: Input, policy: Policy, memo: ProjectionMemo.Memo, k: nat)
    requires memo.Tables? && k < |in_.loans|
    ensures Introduced(WorldOf(in_, policy), WorldOf(Heard(in_), policy), memo, k)
  {
    hide ProjectionMemo.ProjectsAs;
    if in_.loans[k].balance > 0 {
      AlikeHaveOneSpeaker(in_.loans, k, k, 0);
      var j := SpeakerOf(in_.loans, k, 0);
      var w := WorldOf(in_, policy);
      if j == k {
        ProjectionMemo.SameFloorProjectsAs(in_.loans[k].contract, Heard(in_).loans[k].contract);
      } else {
        assert Owes(w, j) && ProjectionMemo.Alike(w.input.loans[j].contract, w.input.loans[k].contract);
      }
    }
  }

  /** A memo that earlier runs of the input may have left: every calendar in it is the first owing loan's. */
  ghost predicate Tells(in_: Input, memo: ProjectionMemo.Memo) {
    memo.Tables? && ProjectionMemo.Told(memo, ContractsOf(in_), ContractsOf(Heard(in_)), LiveOf(in_))
  }

  lemma BlankTells(in_: Input)
    ensures Tells(in_, ProjectionMemo.Tables(map[], map[]))
  {
    hide Heard;
    ProjectionMemo.EmptyTells(ContractsOf(in_), ContractsOf(Heard(in_)), LiveOf(in_));
  }

  lemma RunsKeepTables(in_: Input, policy: Policy, memo: ProjectionMemo.Memo)
    requires memo.Tables?
    ensures RunOf(in_, policy, memo).1.Tables?
  {
    hide Accepted, Covers, LoansTaken, LumpsTaken;
    if Accepted(in_) && Covers(policy, |in_.loans|) {
      ValuationIsADay(in_);
      var w := WorldOf(in_, policy);
      assert Started(w, memo).memo.Tables?;
    }
  }

  /**
   For every input and policy, a run from any memo that earlier runs of the input may have left,
   an empty one included, is the run without a memo over the input as heard; and it leaves such a
   memo.
   */
  lemma RunIsHeard(in_: Input, policy: Policy, memo: ProjectionMemo.Memo)
    requires Tells(in_, memo)
    ensures RunOf(in_, policy, memo).0 == RunOf(Heard(in_), policy, ProjectionMemo.Forgetful).0
    ensures Tells(in_, RunOf(in_, policy, memo).1)
  {
    hide Heard, LoansBeside, ProjectionMemo.Voiced, ProjectionMemo.Told, Introduced, RunOf;
    HeardIsBeside(in_);
    HeardIsVoiced(in_);
    WorldIs(in_, policy);
    WorldIs(Heard(in_), policy);
    forall k: nat | k < |in_.loans| ensures Introduced(WorldOf(in_, policy), WorldOf(Heard(in_), policy), memo, k) {
      HeardIsIntroduced(in_, policy, memo, k);
    }
    RunHears(in_, Heard(in_), policy, memo);
    RunsKeepTables(in_, policy, memo);
  }

  /** Two memos that earlier runs of the input may have left never make a difference. */
  lemma AnyMemoRunsAlike(in_: Input, policy: Policy, m: ProjectionMemo.Memo, n: ProjectionMemo.Memo)
    requires Tells(in_, m) && Tells(in_, n)
    ensures RunOf(in_, policy, m).0 == RunOf(in_, policy, n).0
  {
    hide RunOf, Tells;
    RunIsHeard(in_, policy, m);
    RunIsHeard(in_, policy, n);
  }

  // ---------- Where what is heard is what is said ----------

  /** Contracts with calendars that open alike. */
  predicate OpenAlike(c: Contract, d: Contract) {
    Amortisation.PaymentDates(c).Ok? && Amortisation.PaymentDates(d).Ok? ==> ProjectionMemo.SameOpening(c, d)
  }

  /** Loans that owe anything open alike wherever the memo cannot tell them apart. */
  ghost predicate Consistent(in_: Input) {
    var ps := in_.loans;
    forall i, j :: 0 <= i < |ps| && 0 <= j < |ps| && ps[i].balance > 0 && ps[j].balance > 0 ==>
      (ProjectionMemo.Alike(ps[i].contract, ps[j].contract) ==> OpenAlike(ps[i].contract, ps[j].contract))
  }

  lemma ConsistentIsIntroduced(in_: Input, policy: Policy, memo: ProjectionMemo.Memo, k: nat)
    requires Consistent(in_) && k < |in_.loans|
    ensures Introduced(WorldOf(in_, policy), WorldOf(Heard(in_), policy), memo, k)
  {
    hide ProjectionMemo.ProjectsAs, ProjectionMemo.SameOpening, Amortisation.PaymentDates;
    if in_.loans[k].balance > 0 {
      AlikeHaveOneSpeaker(in_.loans, k, k, 0);
      var c, d, v := in_.loans[k].contract, in_.loans[SpeakerOf(in_.loans, k, 0)].contract, Heard(in_).loans[k].contract;
      ProjectionMemo.SameOpeningProjectsAs(c, d);
      ProjectionMemo.SameFloorProjectsAs(d, v);
      ProjectionMemo.ProjectsAsIsAnEquivalence(c, d, v);
    }
  }

  /** Over such loans no run shows its memo: it has the outcome of a run that remembers nothing. */
  lemma MemoNeverShows(in_: Input, policy: Policy, memo: ProjectionMemo.Memo)
    requires Consistent(in_) && Tells(in_, memo)
    ensures RunOf(in_, policy, memo).0 == RunOf(in_, policy, ProjectionMemo.Forgetful).0
    ensures Tells(in_, RunOf(in_, policy, memo).1)
  {
    hide Heard, Consistent, LoansBeside, ProjectionMemo.Voiced, ProjectionMemo.Told, Introduced, RunOf, Tells;
    RunIsHeard(in_, policy, memo);
    ForgetfulTells(in_, policy);
    HeardIsBeside(in_);
    forall k: nat | k < |in_.loans|
      ensures Introduced(WorldOf(in_, policy), WorldOf(Heard(in_), policy), ProjectionMemo.Forgetful, k)
    {
      ConsistentIsIntroduced(in_, policy, ProjectionMemo.Forgetful, k);
    }
    RunHears(in_, Heard(in_), policy, ProjectionMemo.Forgetful);
  }

  lemma ForgetfulTells(in_: Input, policy: Policy)
    ensures Telling(WorldOf(in_, policy), WorldOf(Heard(in_), policy), ProjectionMemo.Forgetful)
    ensures Telling(WorldOf(in_, policy), WorldOf(Heard(in_), policy), ProjectionMemo.Tables(map[], map[]))
  {
    hide Heard, ProjectionMemo.Voiced, ProjectionMemo.Told;
    HeardIsVoiced(in_);
    WorldIs(in_, policy);
    WorldIs(Heard(in_), policy);
    ProjectionMemo.EmptyTells(ContractsOf(in_), ContractsOf(Heard(in_)), LiveOf(in_));
  }

  /** Over such loans a run with an empty memo starts as one without. */
  lemma StartsAlike(in_: Input, policy: Policy)
    requires Consistent(in_) && IsDay(in_.valuation) && forall k: nat :: k < |in_.loans| ==> IsSet(in_.loans[k].from)
    ensures var w := WorldOf(in_, policy);
            Plainly(Started(w, ProjectionMemo.Tables(map[], map[]))) == Plainly(Started(w, ProjectionMemo.Forgetful))
  {
    hide Heard, Consistent, LoansBeside, Telling, Introduced, Started, Hearing, Owing;
    ForgetfulTells(in_, policy);
    HeardIsBeside(in_);
    WorldsBeside(in_, Heard(in_), policy);
    WorldIs(in_, policy);
    var w, v := WorldOf(in_, policy), WorldOf(Heard(in_), policy);
    forall k: nat | k < |in_.loans|
      ensures Introduced(w, v, ProjectionMemo.Forgetful, k) && Introduced(w, v, ProjectionMemo.Tables(map[], map[]), k)
    {
      ConsistentIsIntroduced(in_, policy, ProjectionMemo.Forgetful, k);
      ConsistentIsIntroduced(in_, policy, ProjectionMemo.Tables(map[], map[]), k);
    }
    StartedHears(w, v, ProjectionMemo.Forgetful);
    StartedHears(w, v, ProjectionMemo.Tables(map[], map[]));
  }

  // ---------- Where a memo shows ----------

  function FirstTerms(p: Position, effect: PrepaymentEffect): ProjectionMemo.Terms {
    ProjectionMemo.Terms(p.balance, p.from, effect, 0)
  }

  /** Two loans that the memo cannot tell apart, and of which only the first has a projection of its own. */
  predicate Twins(p: Position, q: Position) {
    && ProjectionMemo.Alike(p.contract, q.contract) && p.balance > 0 && q.balance > 0 && IsDay(p.from) && q.from == p.from
    && (var effect := ResolvedEffect(p.contract, ShortenTerm);
        && ProjectionMemo.NextFor(p.contract, FirstTerms(p, effect)).Ok? && ProjectionMemo.NextFor(p.contract, FirstTerms(q, effect)).Ok?
        && ProjectionMemo.NextFor(q.contract, FirstTerms(q, effect)).Err?)
  }

  function Both(p: Position, q: Position): Input {
    Input(p.from, CashPlan(UNSET, None, 0, 0, 0, 0, [], map[]), [p, q], 0)
  }

  const IN_ORDER: Policy := Policy("", false, [0, 1], [OnDue, OnDue], [ShortenTerm, ShortenTerm], RollFreed, 0)

  /**
   Over such loans an accepted input shows the memo: without one the run refuses the second loan
   at the start, with one it takes the loan up on the first loan's dates and goes ahead.
   */
  lemma MemoShowsOverTwins(p: Position, q: Position)
    requires Twins(p, q)
    ensures Accepted(Both(p, q)) && Covers(IN_ORDER, 2) && !Consistent(Both(p, q))
    ensures var w := WorldOf(Both(p, q), IN_ORDER);
            && Started(w, ProjectionMemo.Forgetful).err.Some? && Started(w, ProjectionMemo.Forgetful).err.value.NoProjection?
            && Started(w, ProjectionMemo.Tables(map[], map[])).err.None?
  {
    hide ProjectionMemo.NextFor, DayNumber, Consistent, Refreshed, Heard;
    var in_, w := Both(p, q), WorldOf(Both(p, q), IN_ORDER);
    var effect := ResolvedEffect(p.contract, ShortenTerm);
    assert EffectOf(w.policy, 0) == effect == EffectOf(w.policy, 1);
    ShowsFromBlank(w, p, q, ProjectionMemo.Forgetful, effect);
    ShowsFromBlank(w, p, q, ProjectionMemo.Tables(map[], map[]), effect);
    assert FromOpening(in_.cash.lumps) == 0;
    if Consistent(in_) {
      StartsAlike(in_, IN_ORDER);
    }
  }

  /** The two loans taken up in turn, from no memo or an empty one. */
  lemma ShowsFromBlank(w: World, p: Position, q: Position, memo: ProjectionMemo.Memo, effect: PrepaymentEffect)
    requires Twins(p, q) && w.input == Both(p, q) && IsDay(w.input.valuation) && effect == ResolvedEffect(p.contract, ShortenTerm)
    requires EffectOf(w.policy, 0) == effect == EffectOf(w.policy, 1)
    requires memo.Forgetful? || memo == ProjectionMemo.Tables(map[], map[])
    ensures var r := Started(w, memo);
            if memo.Forgetful? then r.err.Some? && r.err.value.NoProjection? else r.err.None?
  {
    hide ProjectionMemo.NextFor, DayNumber, Refreshed;
    var blank := Blank(w, memo);
    var one := LoanTaken(w, blank);
    assert (blank.loans + [Starting(p, TimingOf(w.policy, 0), effect)])[0] == Starting(p, TimingOf(w.policy, 0), effect);
    var t, u := FirstTerms(p, effect), FirstTerms(q, effect);
    ProjectionMemo.SameDates(p.contract, q.contract);
    HasACalendar(p.contract, t);
    assert one.err.None? && one.memo == ProjectionMemo.Ask(memo, p.contract, t).1;
    var added := one.loans + [Starting(q, TimingOf(w.policy, 1), effect)];
    assert added[1] == Starting(q, TimingOf(w.policy, 1), effect);
    var two := LoanTaken(w, one);
    assert LoansTaken(w, blank) == LoansTaken(w, one);
    assert ProjectionMemo.Ask(one.memo, q.contract, u).0.Ok? <==> !memo.Forgetful?;
    assert two.err.None? ==> LoansTaken(w, one) == two;
    assert two.err.Some? ==> LoansTaken(w, one) == two;
  }

  lemma HasACalendar(c: Contract, t: ProjectionMemo.Terms)
    requires IsSet(t.from) && ProjectionMemo.NextFor(c, t).Ok?
    ensures Amortisation.PaymentDates(c).Ok?
  {
  }

  /** Such loans exist: one agreement held twice, where for one of them the bank names a first due past maturity. */
  lemma TwinsExist()
    ensures Twins(Examples.HOUSE, Examples.HOUSE.(id := "shut", contract := Examples.SHUT_HOME))
  {
    hide Amortisation.Next, Amortisation.PaymentDates;
    Examples.HomeProjects();
  }
}
