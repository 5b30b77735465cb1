/**
 A loan's position in buckets, and where a payment goes. A payment is never lost: what is
 settled, parked, pending or uninterpreted adds up to it, except where a policy names a bucket
 that does not exist, and exactly then.
 */
module Allocation {
  import opened Portfolio

  /** Buckets are stored as codes; the ones a contract may name end at the advance credit. */
  const PENALTIES := 0
  const OVERDUE_FEES := 1
  const CURRENT_FEES := 2
  const UNPAID_INTEREST := 3
  const ACCRUED_INTEREST := 4
  const OVERDUE_PRINCIPAL := 5
  const PRINCIPAL := 6
  const ADVANCE_CREDIT := 7

  datatype Buckets = Buckets(principal: int, accruedInterest: int, unpaidInterest: int, currentFees: int, overdueFees: int,
                             penalties: int, overduePrincipal: int, advanceCredit: int)
  {
    predicate Valid() {
      && principal >= 0 && accruedInterest >= 0 && unpaidInterest >= 0 && currentFees >= 0 && overdueFees >= 0
      && penalties >= 0 && overduePrincipal >= 0 && advanceCredit >= 0
    }

    /** The amount in one bucket; a code that names none reads the principal. */
    function Get(k: nat): int {
      if k == PENALTIES then penalties
      else if k == OVERDUE_FEES then overdueFees
      else if k == CURRENT_FEES then currentFees
      else if k == UNPAID_INTEREST then unpaidInterest
      else if k == ACCRUED_INTEREST then accruedInterest
      else if k == OVERDUE_PRINCIPAL then overduePrincipal
      else if k == ADVANCE_CREDIT then advanceCredit
      else principal
    }

    function With(k: nat, v: int): (b: Buckets)
      ensures b.Get(k) == v
      ensures forall j :: Home(j) != Home(k) ==> b.Get(j) == Get(j)
      ensures Home(k) != ADVANCE_CREDIT ==> b.TotalOwed() == TotalOwed() - Get(k) + v
      ensures Valid() && v >= 0 ==> b.Valid()
    {
      if k == PENALTIES then this.(penalties := v)
      else if k == OVERDUE_FEES then this.(overdueFees := v)
      else if k == CURRENT_FEES then this.(currentFees := v)
      else if k == UNPAID_INTEREST then this.(unpaidInterest := v)
      else if k == ACCRUED_INTEREST then this.(accruedInterest := v)
      else if k == OVERDUE_PRINCIPAL then this.(overduePrincipal := v)
      else if k == ADVANCE_CREDIT then this.(advanceCredit := v)
      else this.(principal := v)
    }

    /** What closing the loan would take today, less any credit the lender holds. */
    function TotalOwed(): int {
      principal + overduePrincipal + accruedInterest + unpaidInterest + currentFees + overdueFees + penalties - advanceCredit
    }

    predicate HasArrears() {
      penalties > 0 || overduePrincipal > 0 || overdueFees > 0 || unpaidInterest > 0
    }
  }

  /** The bucket a code falls to. */
  function Home(k: nat): nat {
    if k > ADVANCE_CREDIT then PRINCIPAL else k
  }

  datatype AllocationPolicy = AllocationPolicy(established: bool, order: seq<nat>, excess: ExcessRule) {
    predicate Known() {
      established && order != []
    }
  }

  const UNKNOWN: AllocationPolicy := AllocationPolicy(false, [], ExcessUnknown)

  /** How one payment was interpreted. */
  datatype Split = Split(applied: map<nat, int>, extraToAdvance: int, pending: int, unapplied: int, confident: bool) {
    /** What the split accounts for; it sums the buckets that exist. */
    function Total(): int {
      AppliedTo(7) + extraToAdvance + pending + unapplied
    }

    /** The sum over the bucket codes up to k. */
    function AppliedTo(k: nat): int {
      (if k == 0 then 0 else AppliedTo(k - 1)) + if k in applied then applied[k] else 0
    }
  }

  const NOTHING: Split := Split(map[], 0, 0, 0, true)

  datatype Error = NotPositive | UnknownPolicy

  // ---------- Settling in order ----------

  /** Position, money left and money taken after some buckets of an order. */
  datatype Walk = Walk(pos: Buckets, remaining: int, applied: map<nat, int>) {
    function Taken(k: nat): int {
      if k in applied then applied[k] else 0
    }
  }

  function Settle(w: Walk, k: nat): Walk {
    var owed := w.pos.Get(k);
    if w.remaining <= 0 || owed <= 0 then w
    else
      var take := if owed < w.remaining then owed else w.remaining;
      Walk(w.pos.With(k, owed - take), w.remaining - take, w.applied[k := take])
  }

  function SettleAll(w: Walk, order: seq<nat>): Walk {
    if order == [] then w else Settle(SettleAll(w, order[..|order| - 1]), order[|order| - 1])
  }

  /** The position and split of a payment once the order is settled and what is left is dealt with. */
  function Interpret(w: Walk, p: AllocationPolicy): (Buckets, Split) {
    if w.remaining <= 0 then (w.pos, Split(w.applied, 0, 0, 0, true))
    else
      match p.excess
      case ReducePrincipal =>
        (w.pos.(advanceCredit := w.pos.advanceCredit + w.remaining), Split(w.applied, w.remaining, 0, 0, true))
      case HoldAsAdvance =>
        (w.pos.(advanceCredit := w.pos.advanceCredit + w.remaining), Split(w.applied, w.remaining, 0, 0, true))
      case RequiresBankRequest => (w.pos, Split(w.applied, 0, w.remaining, 0, false))
      case ExcessUnknown => (w.pos, Split(w.applied, 0, 0, w.remaining, false))
  }

  function Allocated(pos: Buckets, payment: int, p: AllocationPolicy): (Buckets, Split) {
    Interpret(SettleAll(Walk(pos, payment, map[]), p.order), p)
  }

  /** Takes money for one bucket after another until the order or the payment is exhausted. */
  method SettleInOrder(pos: Buckets, payment: int, order: seq<nat>) returns (next: Buckets, remaining: int, applied: map<nat, int>)
    ensures Walk(next, remaining, applied) == SettleAll(Walk(pos, payment, map[]), order)
  {
    hide Buckets.Get, Buckets.With, SettleAll;
    ghost var start := Walk(pos, payment, map[]);
    NothingSettled(start, order);
    next, remaining, applied := pos, payment, map[];
    var k := 0;
    while k < |order| && remaining > 0
      invariant k <= |order| && Walk(next, remaining, applied) == SettleAll(start, order[..k])
    {
      SettleOneMore(start, order, k);
      var owed := next.Get(order[k]);
      if owed > 0 {
        var take := if owed < remaining then owed else remaining;
        next := next.With(order[k], owed - take);
        remaining := remaining - take;
        applied := applied[order[k] := take];
      }
      k := k + 1;
    }
    NothingLeftToSettle(start, order, k);
  }

  /** Settles a payment bucket by bucket; an unestablished policy settles nothing and says so. */
  method Apply(pos: Buckets, payment: int, p: AllocationPolicy) returns (next: Buckets, split: Split, err: Option<Error>)
    ensures payment <= 0 ==> err == Some(NotPositive) && next == pos
    ensures payment > 0 && !p.Known() ==>
              err == Some(UnknownPolicy) && next == pos && split == Split(map[], 0, 0, payment, false)
    ensures payment > 0 && p.Known() ==> err.None? && (next, split) == Allocated(pos, payment, p)
  {
    if payment <= 0 {
      return pos, NOTHING, Some(NotPositive);
    }
    if !p.Known() {
      return pos, Split(map[], 0, 0, payment, false), Some(UnknownPolicy);
    }
    hide Buckets.Get, Buckets.With, SettleAll;
    var remaining, applied;
    next, remaining, applied := SettleInOrder(pos, payment, p.order);
    split := Split(applied, 0, 0, 0, true);
    if remaining > 0 {
      match p.excess {
        case ReducePrincipal =>
          split := split.(extraToAdvance := remaining);
          next := next.(advanceCredit := next.advanceCredit + remaining);
        case HoldAsAdvance =>
          split := split.(extraToAdvance := remaining);
          next := next.(advanceCredit := next.advanceCredit + remaining);
        case RequiresBankRequest =>
          split := split.(pending := remaining, confident := false);
        case ExcessUnknown =>
          split := split.(unapplied := remaining, confident := false);
      }
    }
    return next, split, None;
  }

  lemma NothingSettled(w: Walk, order: seq<nat>)
    ensures SettleAll(w, order[..0]) == w
  {
  }

  lemma SettleOneMore(w: Walk, order: seq<nat>, k: nat)
    requires k < |order|
    ensures SettleAll(w, order[..k + 1]) == Settle(SettleAll(w, order[..k]), order[k])
  {
    assert order[..k + 1][..k] == order[..k];
  }

  lemma {:induction false} NothingLeftToSettle(w: Walk, order: seq<nat>, k: nat)
    requires k <= |order| && (k < |order| ==> SettleAll(w, order[..k]).remaining <= 0)
    ensures SettleAll(w, order) == SettleAll(w, order[..k])
    decreases |order|
  {
    if k < |order| {
      assert order[..|order| - 1][..k] == order[..k];
      NothingLeftToSettle(w, order[..|order| - 1], k);
    } else {
      assert order[..k] == order;
    }
  }

  // ---------- How far a payment reaches ----------

  predicate Named(codes: seq<nat>, bucket: nat) {
    exists i :: 0 <= i < |codes| && Home(codes[i]) == bucket
  }

  /** What is owed in the buckets an order names, each counted once, up to one bucket. */
  function OwedUnder(pos: Buckets, codes: seq<nat>, k: nat): int {
    (if k == 0 then 0 else OwedUnder(pos, codes, k - 1)) + if Named(codes, k) then pos.Get(k) else 0
  }

  /** The first place of an order that falls to a bucket. */
  function FirstNaming(order: seq<nat>, bucket: nat): (f: nat)
    ensures f <= |order| && (forall i :: 0 <= i < f ==> Home(order[i]) != bucket) && (f < |order| ==> Home(order[f]) == bucket)
  {
    if order == [] || Home(order[0]) == bucket then 0 else 1 + FirstNaming(order[1..], bucket)
  }

  /** Codes empty their buckets in order until the payment is spent. */
  lemma {:induction false} PaymentReaches(pos: Buckets, payment: nat, order: seq<nat>)
    requires pos.Valid()
    ensures var w := SettleAll(Walk(pos, payment, map[]), order);
            && w.pos.Valid() && OwedUnder(pos, order, 7) >= 0
            && w.remaining == (if payment > OwedUnder(pos, order, 7) then payment - OwedUnder(pos, order, 7) else 0)
            && (forall k :: 0 <= k <= 7 && !Named(order, k) ==> w.pos.Get(k) == pos.Get(k))
            && (forall k :: 0 <= k <= 7 && Named(order, k) ==> w.pos.Get(k) == 0 || w.remaining == 0)
  {
    hide OwedUnder, Named;
    if order == [] {
      OwedUnderNothing(pos, 7);
      NothingNamed();
    } else {
      var n := |order| - 1;
      PaymentReaches(pos, payment, order[..n]);
      OneMoreNamed(order);
      OwedUnderOneMore(pos, order, 7);
    }
  }

  /** Money reaches a place of the order only once every bucket named before it is empty. */
  lemma EarlierBucketsComeFirst(pos: Buckets, payment: nat, order: seq<nat>, k: nat)
    requires pos.Valid() && k < |order|
    requires SettleAll(Walk(pos, payment, map[]), order[..k + 1]) != SettleAll(Walk(pos, payment, map[]), order[..k])
    ensures forall j :: 0 <= j < k ==> SettleAll(Walk(pos, payment, map[]), order[..k]).pos.Get(order[j]) == 0
  {
    hide SettleAll, Buckets.With, OwedUnder, Buckets.Get;
    SettleOneMore(Walk(pos, payment, map[]), order, k);
    PaymentReaches(pos, payment, order[..k]);
    forall j | 0 <= j < k
      ensures SettleAll(Walk(pos, payment, map[]), order[..k]).pos.Get(order[j]) == 0
    {
      assert order[..k][j] == order[j];
      NamedAtHome(SettleAll(Walk(pos, payment, map[]), order[..k]).pos, order[..k], j);
    }
  }

  lemma NamedAtHome(pos: Buckets, codes: seq<nat>, j: nat)
    requires j < |codes|
    ensures Named(codes, Home(codes[j])) && Home(codes[j]) <= 7 && pos.Get(Home(codes[j])) == pos.Get(codes[j])
  {
  }

  lemma NothingNamed()
    ensures forall k :: 0 <= k <= 7 ==> !Named([], k)
  {
  }

  lemma OneMoreNamed(codes: seq<nat>)
    requires codes != []
    ensures forall k :: Named(codes, k) <==> Named(codes[..|codes| - 1], k) || Home(codes[|codes| - 1]) == k
  {
    var n := |codes| - 1;
    forall k ensures Named(codes, k) <==> Named(codes[..n], k) || Home(codes[n]) == k {
      if Named(codes, k) {
        var i :| 0 <= i < |codes| && Home(codes[i]) == k;
        assert i < n ==> Home(codes[..n][i]) == k;
      }
      if Named(codes[..n], k) {
        var i :| 0 <= i < n && Home(codes[..n][i]) == k;
        assert Home(codes[i]) == k;
      }
    }
  }

  lemma {:induction false} OwedUnderNothing(pos: Buckets, k: nat)
    ensures OwedUnder(pos, [], k) == 0
  {
    if k > 0 {
      OwedUnderNothing(pos, k - 1);
    }
  }

  lemma {:induction false} OwedUnderOneMore(pos: Buckets, codes: seq<nat>, k: nat)
    requires codes != []
    ensures var n := |codes| - 1;
            OwedUnder(pos, codes, k)
            == OwedUnder(pos, codes[..n], k) + if Home(codes[n]) <= k && !Named(codes[..n], Home(codes[n])) then pos.Get(Home(codes[n])) else 0
  {
    hide Named;
    OneMoreNamed(codes);
    if k > 0 {
      OwedUnderOneMore(pos, codes, k - 1);
    }
  }

  // ---------- Conservation ----------

  /** Settling takes from the debt what it takes from the payment, and adds any credit it takes to both. */
  lemma {:induction false} SettlingConserves(w: Walk, order: seq<nat>)
    requires w.pos.Valid() && w.remaining >= 0
    ensures var w' := SettleAll(w, order);
            && w'.pos.Valid() && 0 <= w'.remaining <= w.remaining && 0 <= w'.pos.advanceCredit <= w.pos.advanceCredit
            && w'.pos.TotalOwed() - w'.remaining
               == w.pos.TotalOwed() - w.remaining + 2 * (w.pos.advanceCredit - w'.pos.advanceCredit)
  {
    if order != [] {
      SettlingConserves(w, order[..|order| - 1]);
    }
  }

  /** The lender's credit is spent as if it were owed: the order names it, there is some, and the payment reaches it. */
  predicate TakesCredit(pos: Buckets, payment: int, order: seq<nat>) {
    var f := FirstNaming(order, ADVANCE_CREDIT);
    f < |order| && pos.advanceCredit > 0 && payment > OwedUnder(pos, order[..f], 7)
  }

  function CreditTaken(pos: Buckets, payment: int, order: seq<nat>): int {
    if !TakesCredit(pos, payment, order) then 0
    else
      var reach := payment - OwedUnder(pos, order[..FirstNaming(order, ADVANCE_CREDIT)], 7);
      if pos.advanceCredit < reach then pos.advanceCredit else reach
  }

  /** Credit is taken at its first naming or nowhere. */
  lemma {:induction false} CreditIsTakenOnce(pos: Buckets, payment: nat, order: seq<nat>, f: nat)
    requires pos.Valid() && FirstNaming(order, ADVANCE_CREDIT) < f <= |order|
    ensures var w := SettleAll(Walk(pos, payment, map[]), order[..f]);
            && w.pos.Valid() && w.remaining >= 0
            && pos.advanceCredit - w.pos.advanceCredit == CreditTaken(pos, payment, order)
            && (w.pos.advanceCredit == 0 || w.remaining == 0)
    decreases f
  {
    hide OwedUnder, Named, SettleAll;
    var c := FirstNaming(order, ADVANCE_CREDIT);
    SettleOneMore(Walk(pos, payment, map[]), order, f - 1);
    if f == c + 1 {
      PaymentReaches(pos, payment, order[..c]);
      NotNamedBefore(order, ADVANCE_CREDIT);
    } else {
      CreditIsTakenOnce(pos, payment, order, f - 1);
    }
  }

  lemma NotNamedBefore(order: seq<nat>, bucket: nat)
    ensures !Named(order[..FirstNaming(order, bucket)], bucket)
  {
  }

  /**
   A payment lowers what is owed by everything except what the lender has not applied, if and
   only if no credit is taken; each unit of credit taken leaves the debt two units higher than
   that. No bucket goes negative.
   */
  lemma PaymentLowersTheDebtExactlyWhen(pos: Buckets, payment: int, p: AllocationPolicy)
    requires pos.Valid() && payment > 0
    ensures var (next, split) := Allocated(pos, payment, p);
            && next.Valid() && split.pending >= 0 && split.unapplied >= 0
            && next.TotalOwed()
               == pos.TotalOwed() - (payment - split.pending - split.unapplied) + 2 * CreditTaken(pos, payment, p.order)
            && (next.TotalOwed() == pos.TotalOwed() - (payment - split.pending - split.unapplied)
                <==> !TakesCredit(pos, payment, p.order))
  {
    hide SettleAll, OwedUnder, Named;
    var start := Walk(pos, payment, map[]);
    SettlingConserves(start, p.order);
    assert p.order[..|p.order|] == p.order;
    if FirstNaming(p.order, ADVANCE_CREDIT) < |p.order| {
      CreditIsTakenOnce(pos, payment, p.order, |p.order|);
    } else {
      PaymentReaches(pos, payment, p.order);
      NotNamedBefore(p.order, ADVANCE_CREDIT);
    }
  }

  predicate OrdersDebts(order: seq<nat>) {
    ADVANCE_CREDIT !in order
  }

  lemma DebtsTakeNoCredit(pos: Buckets, payment: int, order: seq<nat>)
    requires OrdersDebts(order)
    ensures !TakesCredit(pos, payment, order)
  {
  }

  /** With the advance credit in the order the debt grows: the lender's credit is spent as if it were owed. */
  lemma OrderingTheCreditRaisesTheDebt()
    ensures var pos := Buckets(100, 0, 0, 0, 0, 0, 0, 30);
            var (next, split) := Allocated(pos, 30, AllocationPolicy(true, [ADVANCE_CREDIT], ReducePrincipal));
            next.TotalOwed() == pos.TotalOwed() + 30 && split.Total() == 30
  {
    var pos := Buckets(100, 0, 0, 0, 0, 0, 0, 30);
    var w := Walk(pos, 30, map[]);
    assert SettleAll(w, []) == w && [ADVANCE_CREDIT][..0] == [];
    var done := SettleAll(w, [ADVANCE_CREDIT]);
    assert done == Walk(pos.(advanceCredit := 0), 0, map[ADVANCE_CREDIT := 30]);
    SumOfOne(Split(done.applied, 0, 0, 0, true), ADVANCE_CREDIT);
  }

  lemma {:induction false} SumOfOne(s: Split, k: nat)
    requires s.applied.Keys == {k} && k <= 7
    ensures s.AppliedTo(7) == s.applied[k]
  {
    ZeroBelow(s, k);
    KeepsAbove(s, k, 7);
  }

  lemma {:induction false} ZeroBelow(s: Split, k: nat)
    requires s.applied.Keys == {k}
    ensures s.AppliedTo(k) == s.applied[k]
  {
    var i := 0;
    while i < k
      invariant i <= k && (i > 0 ==> s.AppliedTo(i - 1) == 0)
    {
      i := i + 1;
    }
  }

  lemma {:induction false} KeepsAbove(s: Split, k: nat, n: nat)
    requires s.applied.Keys == {k} && k <= n
    ensures s.AppliedTo(n) == s.AppliedTo(k)
  {
    if k < n {
      KeepsAbove(s, k, n - 1);
    }
  }

  // ---------- When a split adds up ----------

  /** Places of an order that name the principal, directly or by naming no bucket at all. */
  predicate NamesPrincipal(code: nat) {
    Home(code) == PRINCIPAL
  }

  /** The first code that names the principal is one that does not exist, and money reaches it. */
  predicate Strays(pos: Buckets, payment: int, order: seq<nat>) {
    var f := FirstNaming(order, PRINCIPAL);
    f < |order| && order[f] > ADVANCE_CREDIT && pos.principal > 0 && payment > OwedUnder(pos, order[..f], 7)
  }

  /** Every code that has taken money has emptied its bucket or the payment. */
  ghost predicate Spent(w: Walk) {
    && w.pos.Valid() && w.remaining >= 0
    && forall k :: k in w.applied ==> w.applied[k] > 0 && (w.pos.Get(k) == 0 || w.remaining == 0)
  }

  function Accounted(w: Walk): int {
    w.remaining + Split(w.applied, 0, 0, 0, true).AppliedTo(7)
  }

  lemma {:induction false} AppliedUpdate(applied: map<nat, int>, k: nat, take: int, n: nat)
    requires k !in applied
    ensures Split(applied[k := take], 0, 0, 0, true).AppliedTo(n)
            == Split(applied, 0, 0, 0, true).AppliedTo(n) + if k <= n then take else 0
  {
    if n > 0 {
      AppliedUpdate(applied, k, take, n - 1);
    }
  }

  /** Only a code that names no bucket takes money out of account. */
  lemma SettleAccounts(w: Walk, k: nat)
    requires Spent(w)
    ensures Spent(Settle(w, k))
    ensures Accounted(Settle(w, k)) == Accounted(w) - if k > ADVANCE_CREDIT && w.remaining > 0 && w.pos.principal > 0
                                                      then w.remaining - Settle(w, k).remaining else 0
    ensures k > ADVANCE_CREDIT && w.remaining > 0 && w.pos.principal > 0 ==> Settle(w, k).remaining < w.remaining
    ensures NamesPrincipal(k) ==> Settle(w, k).pos.principal == 0 || Settle(w, k).remaining == 0
    ensures !NamesPrincipal(k) ==> Settle(w, k).pos.principal == w.pos.principal
    ensures Settle(w, k).pos.principal <= w.pos.principal && Settle(w, k).remaining <= w.remaining
  {
    var owed := w.pos.Get(k);
    if w.remaining > 0 && owed > 0 {
      var take := if owed < w.remaining then owed else w.remaining;
      assert k !in w.applied;
      AppliedUpdate(w.applied, k, take, 7);
      var w' := Settle(w, k);
      forall j | j in w'.applied
        ensures w'.applied[j] > 0 && (w'.pos.Get(j) == 0 || w'.remaining == 0)
      {
        if j != k {
          assert j in w.applied;
        }
      }
    }
  }

  /** From the first naming of the principal on, money goes out of account there or nowhere. */
  lemma {:induction false} AfterPrincipal(w: Walk, order: seq<nat>, f: nat)
    requires f < |order| && NamesPrincipal(order[f])
    requires Spent(SettleAll(w, order[..f]))
    ensures var before, after := SettleAll(w, order[..f]), SettleAll(w, order);
            && Spent(after) && after.remaining <= before.remaining
            && (after.pos.principal == 0 || after.remaining == 0)
            && (Accounted(after) == Accounted(before)
                <==> !(order[f] > ADVANCE_CREDIT && before.remaining > 0 && before.pos.principal > 0))
            && Accounted(after) <= Accounted(before)
    decreases |order|
  {
    var n := |order| - 1;
    if f == n {
      SettleAccounts(SettleAll(w, order[..n]), order[n]);
    } else {
      assert order[..n][..f] == order[..f];
      AfterPrincipal(w, order[..n], f);
      SettleAccounts(SettleAll(w, order[..n]), order[n]);
    }
  }

  /**
   "Money is conserved: the split always totals exactly the payment" holds if and only if no
   money strays into a bucket that does not exist; orders of real buckets always add up.
   */
  lemma SplitAddsUpExactlyWhen(pos: Buckets, payment: int, p: AllocationPolicy)
    requires pos.Valid() && payment > 0
    ensures Allocated(pos, payment, p).1.Total() == payment <==> !Strays(pos, payment, p.order)
    ensures (forall k :: k in p.order ==> k <= ADVANCE_CREDIT) ==> Allocated(pos, payment, p).1.Total() == payment
  {
    hide SettleAll, OwedUnder, Named, Buckets.With, Split.AppliedTo, FirstNaming;
    var f := FirstNaming(p.order, PRINCIPAL);
    var start := Walk(pos, payment, map[]);
    PaymentReaches(pos, payment, p.order[..f]);
    NotNamedBefore(p.order, PRINCIPAL);
    AccountedFrom(start, p.order[..f]);
    if f < |p.order| {
      AfterPrincipal(start, p.order, f);
      assert p.order[f] in p.order;
    } else {
      assert p.order[..f] == p.order;
    }
    TotalIsAccounted(SettleAll(start, p.order), p);
  }

  /** Under an order that names an eighth bucket the principal falls by the whole payment, and the split totals nothing. */
  lemma UnknownBucketLosesTheSplit()
    ensures var pos := Buckets(100, 0, 0, 0, 0, 0, 0, 0);
            var (next, split) := Allocated(pos, 30, AllocationPolicy(true, [8], ReducePrincipal));
            pos.Valid() && next.principal == pos.principal - 30 && split.Total() == 0
  {
    var pos := Buckets(100, 0, 0, 0, 0, 0, 0, 0);
    var w := Walk(pos, 30, map[]);
    assert [8][..0] == [] && SettleAll(w, []) == w;
    var done := SettleAll(w, [8]);
    assert done == Walk(pos.(principal := 70), 0, map[8 := 30]);
    ZeroBelow(Split(done.applied, 0, 0, 0, true), 8);
  }

  lemma TotalIsAccounted(w: Walk, p: AllocationPolicy)
    requires w.remaining >= 0
    ensures Interpret(w, p).1.Total() == Accounted(w)
  {
    SameApplied(Interpret(w, p).1, w.applied, 7);
  }

  lemma {:induction false} SameApplied(s: Split, applied: map<nat, int>, k: nat)
    requires s.applied == applied
    ensures s.AppliedTo(k) == Split(applied, 0, 0, 0, true).AppliedTo(k)
  {
    if k > 0 {
      SameApplied(s, applied, k - 1);
    }
  }

  /** Codes that name real buckets keep everything in account. */
  lemma {:induction false} AccountedFrom(start: Walk, order: seq<nat>)
    requires start.applied == map[] && start.pos.Valid() && start.remaining >= 0
    requires forall i :: 0 <= i < |order| ==> !NamesPrincipal(order[i])
    ensures Spent(SettleAll(start, order)) && Accounted(SettleAll(start, order)) == start.remaining
  {
    if order == [] {
      NothingApplied(7);
    } else {
      var n := |order| - 1;
      AccountedFrom(start, order[..n]);
      SettleAccounts(SettleAll(start, order[..n]), order[n]);
    }
  }

  lemma {:induction false} NothingApplied(k: nat)
    ensures Split(map[], 0, 0, 0, true).AppliedTo(k) == 0
  {
    if k > 0 {
      NothingApplied(k - 1);
    }
  }
}
