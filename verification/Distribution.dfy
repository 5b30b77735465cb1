/**
 How a surplus is shared. The loans are asked in the policy's order, each about what those asked
 before it left; so a loan gains only out of what no loan ranked before it took.
 */
module Distribution {
  import opened Dates
  import opened Contracts
  import opened Portfolio
  import opened SimState
  import opened Fees
  import opened LoanDues
  import opened Flow

  /** Where a surplus is being shared: the loans, the pool, and what is left to offer. */
  datatype Turn = Turn(loans: seq<LoanState>, cash: int, left: int)

  /** A loan a surplus is offered to: open, and not kept from optional payments. */
  predicate Asked(p: Position, l: LoanState) {
    !l.closed && !p.optionalExcluded
  }

  /** The loan once a quoted payment is credited to it today. */
  function PaidNow(p: Position, l: LoanState, on: Date, q: Quote): LoanState {
    var credited := LoanCredited(p.contract, l, on, q);
    if q.closes then Retired(credited, on) else credited
  }

  /** A quote taken up: paid now where the lender credits it early, else put aside for the due date. */
  predicate TakenUp(p: Position, t: Turn, t': Turn, i: nat, booked: LoanState, on: Date, q: Quote)
    requires i < |t.loans|
  {
    && t'.left == t.left - q.outflow
    && if booked.timing == OnReceipt && p.excess == ReducePrincipal && Before(on, booked.due) then
         t'.loans == t.loans[i := PaidNow(p, booked, on, q)] && t'.cash == t.cash - q.outflow
       else
         t'.loans == t.loans[i := booked.(pending := booked.pending + q.outflow)] && t'.cash == t.cash
  }

  /** One loan asked about all that is left: it takes what it is quoted, unless that is too little to pay. */
  predicate AskedInTurn(w: World, s: Snap, t: Turn, t': Turn, i: nat, on: Date)
    requires i < |t.loans| == |w.input.loans| && IsSet(on)
  {
    var p, l := w.input.loans[i], t.loans[i];
    if !Asked(p, l) || t.left <= 0 then t' == t
    else
      var booked := AccruedTo(p, l, on);
      match QuoteOf(p, booked, on, t.left)
      case Err(_) => false
      case Ok(q) =>
        var tooLittle :=
          !q.closes && (q.principal < w.policy.minPrepay
                        || (w.input.Separate() && s.carryRule == BatchUntil && q.principal < s.carryMinimum));
        if q.outflow <= 0 || tooLittle then t' == t.(loans := t.loans[i := booked])
        else TakenUp(p, t, t', i, booked, on, q)
  }

  /** A loan whose quote fails, which ends the run. */
  predicate FailsAt(w: World, t: Turn, i: nat, on: Date)
    requires i < |t.loans| == |w.input.loans| && IsSet(on)
  {
    var p, l := w.input.loans[i], t.loans[i];
    Asked(p, l) && t.left > 0 && QuoteOf(p, AccruedTo(p, l, on), on, t.left).Err?
  }

  /** The turns of a surplus down a list of loans: one for each, or up to one whose quote fails. */
  ghost predicate Turns(w: World, s: Snap, order: seq<int>, on: Date, turns: seq<Turn>, failed: bool)
    requires IsSet(on)
  {
    && turns != [] && |turns| <= |order| + 1
    && (forall k :: 0 <= k < |turns| ==> |turns[k].loans| == |w.input.loans|)
    && (forall k :: 0 <= k < |order| ==> 0 <= order[k] < |w.input.loans|)
    && (forall k :: 0 <= k < |turns| - 1 ==> AskedInTurn(w, s, turns[k], turns[k + 1], order[k], on))
    && (if failed then |turns| <= |order| && FailsAt(w, turns[|turns| - 1], order[|turns| - 1], on) else |turns| == |order| + 1)
  }

  /**
   From one state to another by sharing a surplus in an order: the first loan is asked about the
   whole of it, and each later one about exactly what those before it left.
   */
  ghost predicate Shared(w: World, s: Snap, r: Snap, order: seq<int>, surplus: int, on: Date)
    requires IsSet(on)
  {
    exists turns: seq<Turn> ::
      && Turns(w, s, order, on, turns, r.err.Some?)
      && turns[0] == Turn(s.loans, s.cash, surplus)
      && (r.err.None? ==> turns[|order|].loans == r.loans && turns[|order|].cash == r.cash)
  }

  /** What the batching rule reads of a state. */
  predicate SameCarry(s: Snap, r: Snap) {
    r.carryRule == s.carryRule && r.carryMinimum == s.carryMinimum
  }

  // ---------- One offer ----------

  lemma OfferIsATurn(w: World, s: Snap, i: nat, on: Date, surplus: int)
    requires Over(w, s) && i < |s.loans| && IsDay(on) && s.err.None? && surplus > 0 && Asked(w.input.loans[i], s.loans[i])
    ensures var (r, left) := Offered(w, s, i, on, surplus);
            var t := Turn(s.loans, s.cash, surplus);
            && SameCarry(s, r)
            && (if r.err.Some? then FailsAt(w, t, i, on) else AskedInTurn(w, s, t, Turn(r.loans, r.cash, left), i, on))
  {
    hide QuoteFor, AccruedTo, LoanCredited, Before, ResultCredited, MonthCredited, Cleared, BudgetAfter, Retired, AllowanceUsed;
    var p := w.input.loans[i];
    var (asked, q) := Quoted(w, s, i, on, surplus);
    if asked.err.None? && q.outflow > 0 && !HeldBack(w, asked, q) {
      var booked := AccruedTo(p, s.loans[i], on);
      assert asked.loans[i] == booked;
      if EarlyCredit(w, i, booked, on) {
        PayingNow(w, asked, i, on, q);
        assert s.loans[i := booked][i := PaidNow(p, booked, on, q)] == s.loans[i := PaidNow(p, booked, on, q)];
      } else {
        var held := booked.(pending := booked.pending + q.outflow);
        assert s.loans[i := booked][i := held] == s.loans[i := held];
      }
    }
  }

  lemma PayingNow(w: World, s: Snap, i: nat, on: Date, q: Quote)
    requires Over(w, s) && i < |s.loans|
    ensures var r := Prepaying(w, s, i, on, q, true);
            && r.loans == s.loans[i := PaidNow(w.input.loans[i], s.loans[i], on, q)] && r.cash == s.cash - q.outflow
            && SameCarry(s, r) && r.err == s.err
  {
    hide LoanCredited, ResultCredited, MonthCredited, Cleared, BudgetAfter, Retired;
  }

  // ---------- Down the order ----------

  lemma {:induction false} TheRestIsShared(w: World, s: Snap, on: Date, surplus: int, k: nat)
    requires Over(w, s) && IsDay(on) && k <= |w.policy.order| && s.err.None? && Covers(w.policy, |w.input.loans|)
    ensures Shared(w, s, OfferedFrom(w, s, on, surplus, k), w.policy.order[k..], surplus, on)
    decreases |w.policy.order| - k
  {
    hide Offered, AskedInTurn, FailsAt;
    var order, t := w.policy.order[k..], Turn(s.loans, s.cash, surplus);
    var r := OfferedFrom(w, s, on, surplus, k);
    if k == |w.policy.order| {
      assert Turns(w, s, order, on, [t], false);
    } else {
      var i := w.policy.order[k];
      assert order[0] == i && order[1..] == w.policy.order[k + 1..];
      if surplus > 0 && Asked(w.input.loans[i], s.loans[i]) {
        OfferIsATurn(w, s, i, on, surplus);
        var (one, left) := Offered(w, s, i, on, surplus);
        if one.err.Some? {
          assert Turns(w, s, order, on, [t], true);
        } else {
          TheRestIsShared(w, one, on, left, k + 1);
          OneTurnMore(w, s, one, r, order, surplus, left, on);
        }
      } else {
        TheRestIsShared(w, s, on, surplus, k + 1);
        PassedOver(w, s, i, on, surplus);
        OneTurnMore(w, s, s, r, order, surplus, surplus, on);
      }
    }
  }

  lemma PassedOver(w: World, s: Snap, i: nat, on: Date, surplus: int)
    requires Over(w, s) && i < |s.loans| && IsSet(on) && (surplus <= 0 || !Asked(w.input.loans[i], s.loans[i]))
    ensures AskedInTurn(w, s, Turn(s.loans, s.cash, surplus), Turn(s.loans, s.cash, surplus), i, on)
  {
  }

  lemma OneTurnMore(w: World, s: Snap, one: Snap, r: Snap, order: seq<int>, surplus: int, left: int, on: Date)
    requires Over(w, s) && Over(w, one) && IsSet(on) && order != [] && 0 <= order[0] < |w.input.loans| && SameCarry(s, one)
    requires AskedInTurn(w, s, Turn(s.loans, s.cash, surplus), Turn(one.loans, one.cash, left), order[0], on)
    requires Shared(w, one, r, order[1..], left, on)
    ensures Shared(w, s, r, order, surplus, on)
  {
    hide AskedInTurn, FailsAt;
    var rest: seq<Turn> :| && Turns(w, one, order[1..], on, rest, r.err.Some?) && rest[0] == Turn(one.loans, one.cash, left)
                           && (r.err.None? ==> rest[|order| - 1].loans == r.loans && rest[|order| - 1].cash == r.cash);
    var turns := [Turn(s.loans, s.cash, surplus)] + rest;
    forall k | 0 <= k < |turns| - 1 ensures AskedInTurn(w, s, turns[k], turns[k + 1], order[k], on) {
      if k > 0 {
        assert order[1..][k - 1] == order[k];
        TheCarryDecides(w, one, s, rest[k - 1], rest[k], order[k], on);
      }
    }
    forall k | 0 <= k < |order| ensures 0 <= order[k] < |w.input.loans| {
      assert k > 0 ==> order[1..][k - 1] == order[k];
    }
    assert Turns(w, s, order, on, turns, r.err.Some?);
  }

  lemma TheCarryDecides(w: World, s: Snap, r: Snap, t: Turn, t': Turn, i: nat, on: Date)
    requires i < |t.loans| == |w.input.loans| && IsSet(on) && SameCarry(s, r) && AskedInTurn(w, s, t, t', i, on)
    ensures AskedInTurn(w, r, t, t', i, on)
  {
    hide QuoteOf, AccruedTo, TakenUp;
  }

  /** After the routed cash, what is left of cash and permission is shared in the policy's order. */
  ghost predicate AllocatedInOrder(w: World, s: Snap, r: Snap, on: Date)
    requires Over(w, s) && IsDay(on)
  {
    var routed := Routed(w, s, on, -1);
    var surplus := SurplusIn(w, routed, on);
    if routed.err.Some? || w.policy.requiredOnly || surplus <= 0 then r == routed
    else Shared(w, routed, r, w.policy.order, surplus, on)
  }

  lemma AllocatingSharesInOrder(w: World, s: Snap, on: Date)
    requires Over(w, s) && IsDay(on) && Covers(w.policy, |w.input.loans|)
    ensures AllocatedInOrder(w, s, Allocated(w, s, on), on)
  {
    hide Routed, SurplusIn, OfferedFrom, Shared;
    var routed := Routed(w, s, on, -1);
    var surplus := SurplusIn(w, routed, on);
    if routed.err.None? && !w.policy.requiredOnly && surplus > 0 {
      TheRestIsShared(w, routed, on, surplus, 0);
      assert w.policy.order[0..] == w.policy.order;
    }
  }

  // ---------- What the order means ----------

  /** A turn takes nothing from any other loan, and no more than what is left where the quotes stay within their allowance. */
  lemma ATurnTouchesOneLoan(w: World, s: Snap, t: Turn, t': Turn, i: nat, on: Date)
    requires i < |t.loans| == |w.input.loans| && IsSet(on) && AskedInTurn(w, s, t, t', i, on)
    ensures |t'.loans| == |t.loans| && forall j :: 0 <= j < |t.loans| && j != i ==> t'.loans[j] == t.loans[j]
    ensures t'.left <= t.left && (t.left >= 0 ==> t'.left >= 0) && t.cash - t'.cash <= t.left - t'.left
  {
    hide Fee, AccruedTo, LoanCredited, Retired;
    var p := w.input.loans[i];
    var booked := AccruedTo(p, t.loans[i], on);
    if booked.balance >= 0 && t.left >= 0 {
      QuoteStaysWithinAllowance(p.contract, on, booked.balance, booked.accrued, AllowanceUsed(p, booked, on), t.left);
    }
  }

  /** Once nothing is left, every later loan and the pool stay as they are. */
  lemma {:induction false} NothingLeftChangesNothing(w: World, s: Snap, order: seq<int>, on: Date, turns: seq<Turn>, k: nat, m: nat)
    requires IsSet(on) && Turns(w, s, order, on, turns, false) && k <= m <= |order| && turns[k].left <= 0
    ensures turns[m] == turns[k]
    decreases m
  {
    hide QuoteOf, AccruedTo, TakenUp, HeldBack;
    if k < m {
      NothingLeftChangesNothing(w, s, order, on, turns, k, m - 1);
      assert AskedInTurn(w, s, turns[m - 1], turns[m], order[m - 1], on);
    }
  }

  /** Loans asked later, and no others, can change from some turn on. */
  lemma {:induction false} OnlyTheAskedChange(w: World, s: Snap, order: seq<int>, on: Date, turns: seq<Turn>, k: nat, m: nat, i: nat)
    requires IsSet(on) && Turns(w, s, order, on, turns, false) && k <= m <= |order| && i < |w.input.loans|
    requires forall j :: k <= j < m ==> order[j] != i
    ensures turns[m].loans[i] == turns[k].loans[i] && turns[m].left <= turns[k].left
    decreases m
  {
    hide AskedInTurn;
    if k < m {
      OnlyTheAskedChange(w, s, order, on, turns, k, m - 1, i);
      assert AskedInTurn(w, s, turns[m - 1], turns[m], order[m - 1], on);
      ATurnTouchesOneLoan(w, s, turns[m - 1], turns[m], order[m - 1], on);
    }
  }

  /**
   In an order that names each loan once, a loan comes out as it stood at the start, asked about
   what the loans ranked before it left: the first about the whole surplus, and none that follows
   where nothing is left.
   */
  lemma LaterLoansGetTheRest(w: World, s: Snap, r: Snap, order: seq<int>, surplus: int, on: Date, k: nat) returns (t: Turn, t': Turn)
    requires IsSet(on) && Over(w, s) && Shared(w, s, r, order, surplus, on) && r.err.None? && k < |order|
    requires forall i, j :: 0 <= i < j < |order| ==> order[i] != order[j]
    ensures forall j :: 0 <= j < |order| ==> 0 <= order[j] < |w.input.loans|
    ensures |t.loans| == |t'.loans| == |r.loans| == |w.input.loans| && AskedInTurn(w, s, t, t', order[k], on)
    ensures t.loans[order[k]] == s.loans[order[k]] && t'.loans[order[k]] == r.loans[order[k]]
    ensures t.left <= surplus && (k == 0 ==> t == Turn(s.loans, s.cash, surplus))
    ensures t'.left <= 0 ==> forall j :: k < j < |order| ==> r.loans[order[j]] == s.loans[order[j]]
  {
    hide AskedInTurn, FailsAt;
    var turns: seq<Turn> :| && Turns(w, s, order, on, turns, false) && turns[0] == Turn(s.loans, s.cash, surplus)
                            && turns[|order|].loans == r.loans && turns[|order|].cash == r.cash;
    t, t' := turns[k], turns[k + 1];
    OnlyTheAskedChange(w, s, order, on, turns, 0, k, order[k]);
    OnlyTheAskedChange(w, s, order, on, turns, k + 1, |order|, order[k]);
    assert AskedInTurn(w, s, turns[k], turns[k + 1], order[k], on);
    if t'.left <= 0 {
      NothingLeftChangesNothing(w, s, order, on, turns, k + 1, |order|);
      forall j | k < j < |order| ensures r.loans[order[j]] == s.loans[order[j]] {
        OnlyTheAskedChange(w, s, order, on, turns, 0, k + 1, order[j]);
      }
    }
  }

  /** Of two loans, one that can use the whole surplus leaves the one ranked after it as it was. */
  lemma TheFirstLoanTakesAll(w: World, s: Snap, r: Snap, surplus: int, on: Date, first: nat, second: nat, q: Quote)
    requires IsSet(on) && Over(w, s) && |w.input.loans| == 2 && first < 2 && second == 1 - first && surplus > 0
    requires Shared(w, s, r, [first, second], surplus, on)
    requires Asked(w.input.loans[first], s.loans[first])
    requires QuoteOf(w.input.loans[first], AccruedTo(w.input.loans[first], s.loans[first], on), on, surplus) == Ok(q)
    requires q.outflow == surplus && !HeldBack(w, s, q)
    ensures r.err.None? && |r.loans| == 2 && r.loans[second] == s.loans[second]
    ensures var l := AccruedTo(w.input.loans[first], s.loans[first], on);
            r.loans[first] == PaidNow(w.input.loans[first], l, on, q) || r.loans[first] == l.(pending := l.pending + surplus)
  {
    hide QuoteOf, AccruedTo, PaidNow;
    var turns: seq<Turn> :| && Turns(w, s, [first, second], on, turns, r.err.Some?) && turns[0] == Turn(s.loans, s.cash, surplus)
                            && (r.err.None? ==> turns[2].loans == r.loans && turns[2].cash == r.cash);
    if |turns| > 1 {
      assert AskedInTurn(w, s, turns[0], turns[1], first, on);
    }
    var t, t' := LaterLoansGetTheRest(w, s, r, [first, second], surplus, on, 0);
    assert [first, second][1] == second;
  }
}
