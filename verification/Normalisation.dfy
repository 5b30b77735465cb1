/**
 Bringing stale positions up to the valuation: instalments due strictly before it are assumed
 paid as the contract schedules them, a bounded number of times. What is left has no unpaid
 due behind the valuation, and normalising it again changes nothing.
 */
module Normalisation {
  import opened Dates
  import opened Contracts
  import opened Portfolio
  import Amortisation
  import Money

  const MAX_ASSUMED := 3

  datatype Problem = Invalid | Stale(loan: nat) | NotProjected(loan: nat)
  datatype Result<+T> = Ok(value: T) | Err(problem: Problem)

  /** A position's next unpaid due lies strictly before the valuation. */
  predicate Behind(p: Position, valuation: Date) {
    p.balance > 0 &&
    var dates := Amortisation.DatesAhead(p.contract, p.from);
    dates.Ok? && Before(dates.value[0], valuation)
  }

  /** The position once its next instalment is assumed paid; none when the schedule cannot be built. */
  function Assumed(p: Position): Option<Position> {
    match Amortisation.Build(p.contract, p.balance, p.from)
    case Ok(s) => if s.rows == [] then None else Some(p.(balance := s.rows[0].closing, from := s.rows[0].due))
    case Err(_) => None
  }

  datatype Advance = Current(position: Position) | TooStale | Unbuilt

  function Advanced(p: Position, valuation: Date, left: nat): Advance
    decreases left
  {
    hide Behind, Assumed;
    if !Behind(p, valuation) then Current(p)
    else if left == 0 then TooStale
    else match Assumed(p) case None => Unbuilt case Some(p') => Advanced(p', valuation, left - 1)
  }

  function NormalisedFrom(ps: seq<Position>, valuation: Date): Result<seq<Position>> {
    if ps == [] then Ok([])
    else
      var n := |ps| - 1;
      match NormalisedFrom(ps[..n], valuation)
      case Err(e) => Err(e)
      case Ok(before) =>
        match Advanced(ps[n], valuation, MAX_ASSUMED)
        case Current(p) => Ok(before + [p])
        case TooStale => Err(Stale(n))
        case Unbuilt => Err(NotProjected(n))
  }

  lemma {:induction false} ProblemStays(ps: seq<Position>, k: nat, valuation: Date)
    requires k <= |ps| && NormalisedFrom(ps[..k], valuation).Err?
    ensures NormalisedFrom(ps, valuation) == NormalisedFrom(ps[..k], valuation)
    decreases |ps| - k
  {
    if k == |ps| {
      assert ps[..k] == ps;
    } else {
      assert ps[..k + 1][..k] == ps[..k];
      ProblemStays(ps, k + 1, valuation);
    }
  }

  /** An input with every position brought up to the valuation. */
  function Normal(in_: Input): Result<Input> {
    if !Accepted(in_) then Err(Invalid)
    else match NormalisedFrom(in_.loans, in_.valuation)
         case Ok(ps) => Ok(in_.(loans := ps))
         case Err(e) => Err(e)
  }

  lemma PrefixGrows(out: seq<Position>, ps: seq<Position>, i: nat, p: Position)
    requires i < |out| == |ps| && forall j :: i <= j < |out| ==> out[j] == ps[j]
    ensures out[i := p][..i + 1] == out[..i] + [p]
    ensures forall j :: i + 1 <= j < |out| ==> out[i := p][j] == ps[j]
  {
  }

  /** Advances one position at a time, each by at most the allowed number of instalments. */
  method Normalise(in_: Input) returns (r: Result<Input>)
    ensures r == Normal(in_)
  {
    hide Accepted, Advanced;
    if !Accepted(in_) {
      return Err(Invalid);
    }
    var out := in_.loans;
    for i := 0 to |in_.loans|
      invariant |out| == |in_.loans| && forall j :: i <= j < |out| ==> out[j] == in_.loans[j]
      invariant NormalisedFrom(in_.loans[..i], in_.valuation) == Ok(out[..i])
    {
      assert in_.loans[..i + 1][..i] == in_.loans[..i];
      var a := AdvanceOne(out[i], in_.valuation);
      match a {
        case Current(p) =>
          PrefixGrows(out, in_.loans, i, p);
          out := out[i := p];
        case TooStale =>
          ProblemStays(in_.loans, i + 1, in_.valuation);
          return Err(Stale(i));
        case Unbuilt =>
          ProblemStays(in_.loans, i + 1, in_.valuation);
          return Err(NotProjected(i));
      }
    }
    assert in_.loans[..|in_.loans|] == in_.loans && out[..|in_.loans|] == out;
    return Ok(in_.(loans := out));
  }

  /** Assumes instalments paid while the next one lies behind the valuation, up to the allowed number. */
  method AdvanceOne(p: Position, valuation: Date) returns (a: Advance)
    ensures a == Advanced(p, valuation, MAX_ASSUMED)
  {
    hide Behind, Assumed;
    var at, n := p, 0;
    while Behind(at, valuation)
      invariant 0 <= n <= MAX_ASSUMED
      invariant Advanced(at, valuation, MAX_ASSUMED - n) == Advanced(p, valuation, MAX_ASSUMED)
      decreases MAX_ASSUMED - n
    {
      if n >= MAX_ASSUMED {
        return TooStale;
      }
      match Assumed(at) {
        case None => return Unbuilt;
        case Some(next) => at, n := next, n + 1;
      }
    }
    return Current(at);
  }

  // ---------- What normalising keeps ----------

  /** Assuming an instalment retires no more than the balance and moves the anchor to a due before the valuation. */
  lemma AssumedIsOneInstalment(p: Position, valuation: Date)
    requires Behind(p, valuation) && Assumed(p).Some?
    ensures var p' := Assumed(p).value;
            && p' == p.(balance := p'.balance, from := p'.from) && p'.balance >= 0
            && p'.from == Amortisation.DatesAhead(p.contract, p.from).value[0]
            && IsSet(p'.from) && Before(p'.from, valuation) && (IsSet(p.from) ==> After(p'.from, p.from))
  {
    hide Amortisation.Build, Amortisation.DatesAhead, Amortisation.TotalPaid, Amortisation.TotalInterest, DayNumber;
    Amortisation.BuildSettlesThePrincipal(p.contract, p.balance, p.from);
    Amortisation.DatesAheadAreAhead(p.contract, p.from);
  }

  /** A current position has nothing due behind the valuation, is anchored before it, and is the same loan. */
  lemma {:induction false} AdvancedIsCurrent(p: Position, valuation: Date, left: nat)
    requires Advanced(p, valuation, left).Current?
    ensures var p' := Advanced(p, valuation, left).position;
            && !Behind(p', valuation)
            && p' == p.(balance := p'.balance, from := p'.from)
            && (p' == p || (p'.balance >= 0 && IsSet(p'.from) && Before(p'.from, valuation)))
            && (forall more: nat :: Advanced(p', valuation, more) == Current(p'))
    decreases left
  {
    hide Behind, Assumed, DayNumber;
    if Behind(p, valuation) {
      AssumedIsOneInstalment(p, valuation);
      AdvancedIsCurrent(Assumed(p).value, valuation, left - 1);
    }
  }

  /** Normalising keeps the loans and their order, leaves none behind, and is done in one go. */
  lemma {:induction false} NormalisedIsCurrent(ps: seq<Position>, valuation: Date)
    requires NormalisedFrom(ps, valuation).Ok?
    ensures var out := NormalisedFrom(ps, valuation).value;
            && |out| == |ps| && NormalisedFrom(out, valuation) == Ok(out)
            && forall i :: 0 <= i < |ps| ==>
                 && !Behind(out[i], valuation) && out[i] == ps[i].(balance := out[i].balance, from := out[i].from)
                 && (out[i] == ps[i] || (out[i].balance >= 0 && IsSet(out[i].from) && Before(out[i].from, valuation)))
  {
    hide Behind, Assumed, DayNumber, Advanced;
    if ps != [] {
      var n := |ps| - 1;
      NormalisedIsCurrent(ps[..n], valuation);
      AdvancedIsCurrent(ps[n], valuation, MAX_ASSUMED);
      var out := NormalisedFrom(ps, valuation).value;
      assert out[..n] == NormalisedFrom(ps[..n], valuation).value;
    }
  }

  // ---------- When a normalised input is still accepted ----------

  /** One of the instalments assumed paid clears the loan. */
  predicate Retires(p: Position, valuation: Date, left: nat)
    decreases left
  {
    && Behind(p, valuation) && left > 0 && Assumed(p).Some?
    && (Assumed(p).value.balance <= 0 || Retires(Assumed(p).value, valuation, left - 1))
  }

  /** Some receipt is earmarked for the loan. */
  predicate Targeted(in_: Input, id: string) {
    exists k :: 0 <= k < |in_.cash.lumps| && in_.cash.lumps[k].routing.Some? && Earmarks(in_.cash.lumps[k].routing.value, id)
  }

  predicate Earmarks(r: CashRouting, id: string) {
    (r.loanId == id && id != "") || exists j :: 0 <= j < |r.splits| && r.splits[j].loanId == id
  }

  /** A live position stays live unless it retires. */
  lemma {:induction false} LiveUnlessRetired(p: Position, valuation: Date, left: nat)
    requires p.balance > 0 && Advanced(p, valuation, left).Current?
    ensures Advanced(p, valuation, left).position.balance > 0 <==> !Retires(p, valuation, left)
    decreases left
  {
    hide Behind, Assumed;
    if Behind(p, valuation) {
      var p' := Assumed(p).value;
      if p'.balance > 0 {
        LiveUnlessRetired(p', valuation, left - 1);
      } else {
        NothingIsBehind(p', valuation);
      }
    }
  }

  lemma NothingIsBehind(p: Position, valuation: Date)
    requires p.balance <= 0
    ensures !Behind(p, valuation)
  {
  }

  lemma {:induction false} NormalisedAt(ps: seq<Position>, valuation: Date, i: nat)
    requires NormalisedFrom(ps, valuation).Ok? && i < |ps|
    ensures |NormalisedFrom(ps, valuation).value| == |ps|
    ensures Advanced(ps[i], valuation, MAX_ASSUMED) == Current(NormalisedFrom(ps, valuation).value[i])
  {
    hide Advanced;
    var n := |ps| - 1;
    if i < n {
      NormalisedAt(ps[..n], valuation, i);
    } else {
      NormalisedIsCurrent(ps[..n], valuation);
    }
  }

  /** One earmark is accepted before and after normalising unless its loan retires. */
  lemma TargetStays(in_: Input, out: seq<Position>, id: string, amount: int)
    requires UniqueIds(in_.loans) && NormalisedFrom(in_.loans, in_.valuation) == Ok(out)
    requires TargetAccepts(in_.loans, id, amount)
    ensures TargetAccepts(out, id, amount)
            <==> forall i :: 0 <= i < |in_.loans| && in_.loans[i].id == id ==> !Retires(in_.loans[i], in_.valuation, MAX_ASSUMED)
  {
    hide Advanced, Retires, Behind, UniqueIds, NormalisedFrom;
    NormalisedIsCurrent(in_.loans, in_.valuation);
    var i :| 0 <= i < |in_.loans| && in_.loans[i].id == id && in_.loans[i].balance > 0
             && !in_.loans[i].optionalExcluded && in_.loans[i].excess == ReducePrincipal
             && amount % in_.loans[i].contract.rounding.Unit() == 0;
    NormalisedAt(in_.loans, in_.valuation, i);
    LiveUnlessRetired(in_.loans[i], in_.valuation, MAX_ASSUMED);
    IdsAreUnique(in_.loans, i);
    assert out[i].id == id;
  }

  lemma IdsAreUnique(ps: seq<Position>, i: nat)
    requires UniqueIds(ps) && i < |ps|
    ensures forall j :: 0 <= j < |ps| && ps[j].id == ps[i].id ==> j == i
  {
  }

  /** No receipt is earmarked for a loan that an assumed instalment clears. */
  predicate KeepsTargets(in_: Input) {
    forall i :: 0 <= i < |in_.loans| && Targeted(in_, in_.loans[i].id) ==>
      !Retires(in_.loans[i], in_.valuation, MAX_ASSUMED)
  }

  /**
   A normalised input is accepted again if and only if, before normalising, no receipt is
   earmarked for a loan whose assumed instalments clear it.
   */
  lemma NormalIsAcceptedExactlyWhen(in_: Input)
    requires Normal(in_).Ok?
    ensures Accepted(Normal(in_).value) <==> KeepsTargets(in_)
  {
    hide RoutingValid, DayNumber, NormalisedFrom, Behind, Retires, Targeted, SpendingValid;
    NormalisedIsCurrent(in_.loans, in_.valuation);
    RoutingStaysExactlyWhen(in_);
  }

  lemma RoutingStaysExactlyWhen(in_: Input)
    requires Normal(in_).Ok?
    ensures RoutingValid(Normal(in_).value) <==> KeepsTargets(in_)
  {
    hide DayNumber, NormalisedFrom, Behind, Retires, FundingValid, RoutingAccepted, UniqueIds, Targeted;
    var out := Normal(in_).value;
    NormalisedIsCurrent(in_.loans, in_.valuation);
    if HasRouting(in_.cash.lumps) {
      SameIds(in_, out.loans);
      forall k | 0 <= k < |in_.cash.lumps|
        ensures RoutingAccepted(out, in_.cash.lumps[k]) <==> EarmarksKept(in_, in_.cash.lumps[k])
      {
        ReceiptStaysExactlyWhen(in_, out.loans, in_.cash.lumps[k]);
      }
    }
    KeptOneByOne(in_);
  }

  lemma SameIds(in_: Input, out: seq<Position>)
    requires UniqueIds(in_.loans) && |out| == |in_.loans| && forall i :: 0 <= i < |out| ==> out[i].id == in_.loans[i].id
    ensures UniqueIds(out)
  {
  }

  /** No loan a receipt is earmarked for retires. */
  predicate EarmarksKept(in_: Input, e: CashEvent) {
    e.routing.Some? ==>
      forall i :: 0 <= i < |in_.loans| && Earmarks(e.routing.value, in_.loans[i].id) ==>
        !Retires(in_.loans[i], in_.valuation, MAX_ASSUMED)
  }

  lemma KeptOneByOne(in_: Input)
    ensures KeepsTargets(in_) <==> forall k :: 0 <= k < |in_.cash.lumps| ==> EarmarksKept(in_, in_.cash.lumps[k])
    ensures !HasRouting(in_.cash.lumps) ==> KeepsTargets(in_)
  {
    hide Retires, Earmarks;
    if !KeepsTargets(in_) {
      var i :| 0 <= i < |in_.loans| && Targeted(in_, in_.loans[i].id) && Retires(in_.loans[i], in_.valuation, MAX_ASSUMED);
      var k :| 0 <= k < |in_.cash.lumps| && in_.cash.lumps[k].routing.Some?
               && Earmarks(in_.cash.lumps[k].routing.value, in_.loans[i].id);
      assert !EarmarksKept(in_, in_.cash.lumps[k]);
    }
  }

  lemma ReceiptStaysExactlyWhen(in_: Input, out: seq<Position>, e: CashEvent)
    requires UniqueIds(in_.loans) && NormalisedFrom(in_.loans, in_.valuation) == Ok(out)
    requires RoutingAccepted(in_, e)
    ensures RoutingAccepted(in_.(loans := out), e) <==> EarmarksKept(in_, e)
  {
    hide DayNumber, NormalisedFrom, Behind, Retires, TargetAccepts, UniqueIds;
    if e.routing.Some? {
      var r := e.routing.value;
      if r.loanId != "" {
        TargetStays(in_, out, r.loanId, e.amount);
      }
      forall j | 0 <= j < |r.splits|
        ensures TargetAccepts(out, r.splits[j].loanId, r.splits[j].amount)
                <==> forall i :: 0 <= i < |in_.loans| && in_.loans[i].id == r.splits[j].loanId ==>
                       !Retires(in_.loans[i], in_.valuation, MAX_ASSUMED)
      {
        TargetStays(in_, out, r.splits[j].loanId, r.splits[j].amount);
      }
    }
  }

  /** Without receipts nothing is earmarked. */
  lemma UnroutedStaysAccepted(in_: Input)
    requires Normal(in_).Ok? && Normal(in_).value.cash.lumps == []
    ensures Accepted(Normal(in_).value)
  {
    hide Accepted, NormalisedFrom, Retires;
    NormalIsAcceptedExactlyWhen(in_);
  }

  // ---------- An input that normalising refuses ----------

  /** One instalment of 100 due on 10 February, and a receipt of 10 earmarked for the loan on 5 March. */
  function LateTarget(): Input {
    var start: Date := Civil(2023, 1, 10);
    var due: Date := Civil(2023, 2, 10);
    var today: Date := Civil(2023, 3, 1);
    var receipt: Date := Civil(2023, 3, 5);
    var c := Contract("a", 1, "AMD", start, UNSET, 0, Money.Actual365, Annuity, start, due, 10, UNSET, 100, true,
                      Money.Policy(Money.HalfUp, 1), Prepayment(ShortenTerm, 0, [], 0), "");
    Input(today,
          CashPlan(UNSET, None, 0, 0, 0, 0,
                   [CashEvent("r", Some(CashRouting("a", [], UNSET, 0)), false, receipt, 10, false)], map[]),
          [Position("a", c, 100, start, ReducePrincipal, false)], 0)
  }

  /** Normalising the accepted input clears the loan its receipt is earmarked for, and the input is refused. */
  lemma NormalisingCanRefuse()
    ensures Accepted(LateTarget()) && Normal(LateTarget()).Ok? && !Accepted(Normal(LateTarget()).value)
  {
    hide DayNumber, Retires;
    var in_ := LateTarget();
    var p := in_.loans[0];
    LateTargetIsAccepted();
    LateTargetRetires();
    var p' := p.(balance := 0, from := Civil(2023, 2, 10));
    NothingIsBehind(p', in_.valuation);
    assert Advanced(p, in_.valuation, MAX_ASSUMED) == Current(p');
    NormalisedOne(p, in_.valuation, p');
    assert in_.loans == [p];
    assert Earmarks(in_.cash.lumps[0].routing.value, in_.loans[0].id);
    NormalIsAcceptedExactlyWhen(in_);
  }

  lemma NormalisedOne(p: Position, valuation: Date, p': Position)
    requires Advanced(p, valuation, MAX_ASSUMED) == Current(p')
    ensures NormalisedFrom([p], valuation) == Ok([p'])
  {
    hide Advanced;
    var ps, none: seq<Position> := [p], [];
    assert ps[..|ps| - 1] == none && none + [p'] == [p'];
    assert NormalisedFrom(none, valuation) == Ok(none);
  }

  lemma LateTargetIsAccepted()
    ensures Accepted(LateTarget())
  {
    var in_ := LateTarget();
    var lumps := in_.cash.lumps;
    assert in_.loans[0].balance > 0;
    assert TargetAccepts(in_.loans, "a", 10);
    assert lumps[..0] == [];
    assert FromOpening(lumps) == 0;
  }

  lemma LateTargetRetires()
    ensures var p := LateTarget().loans[0];
            && Behind(p, LateTarget().valuation)
            && Assumed(p) == Some(p.(balance := 0, from := Civil(2023, 2, 10)))
            && Retires(p, LateTarget().valuation, MAX_ASSUMED)
  {
    hide DayNumber;
    var p := LateTarget().loans[0];
    LateTargetCalendar();
    var due: Date := Civil(2023, 2, 10);
    var row := Amortisation.LevelRow(p.contract, 100, p.from, due, 100, 1);
    assert row.closing == 0 && row.due == due;
    assert Amortisation.LevelRows(p.contract, 100, p.from, [due], 100, 1) == [row];
  }

  lemma LateTargetCalendar()
    ensures var p := LateTarget().loans[0];
            var due: Date := Civil(2023, 2, 10);
            && Amortisation.PaymentDates(p.contract) == Amortisation.Ok([due])
            && Amortisation.DatesAhead(p.contract, p.from) == Amortisation.Ok([due]) && Before(p.from, due)
  {
    hide DayNumber;
    var c := LateTarget().loans[0].contract;
    var due, next: Date := Civil(2023, 2, 10), Civil(2023, 3, 10);
    assert Occurrence(c.start, 10, 1) == due && Occurrence(c.start, 10, 2) == next;
    assert Amortisation.DatesFrom(c, 2) == [];
    assert Amortisation.DatesFrom(c, 1) == [due];
  }

  /** Normalising twice is normalising once, wherever the first result is still accepted. */
  lemma NormalIsIdempotent(in_: Input)
    requires Normal(in_).Ok? && Accepted(Normal(in_).value)
    ensures Normal(Normal(in_).value) == Normal(in_)
  {
    hide Accepted, NormalisedFrom, Behind;
    NormalisedIsCurrent(in_.loans, in_.valuation);
  }
}
