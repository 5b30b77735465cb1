/**
 What interest a run charges. In every turn a loan is charged its contract's interest on the
 balance then outstanding, for the days since it was last booked; the next turn goes on from the
 day booked to. So over a whole run each day of each loan is charged once, and nothing else is.
 */
module Charges {
  import opened Dates
  import opened Contracts
  import opened Portfolio
  import opened SimState
  import opened Routing
  import opened Fees
  import opened LoanDues
  import opened Flow
  import Amortisation
  import ProjectionMemo

  // ---------- One loan on one day ----------

  /** A loan with days to book. */
  predicate Live(l: LoanState, on: Date) {
    !l.closed && IsSet(l.from) && Before(l.from, on)
  }

  /** Interest on what a loan owes, for the days since it was booked; once the balance is emptied, on what its interest became. */
  predicate ChargedOn(p: Position, l: LoanState, on: Date, base: nat, c: int)
    requires IsSet(on) && IsSet(l.from) && Before(l.from, on)
  {
    base <= l.balance + l.accrued && (l.balance > 0 ==> base == l.balance) && c == p.contract.Interest(base, DaysBetween(l.from, on))
  }

  /** What a day charges a loan: nothing, and then no balance is paid before it is booked; or all the days since it was. */
  ghost predicate LoanCharged(p: Position, l: LoanState, l': LoanState, on: Date, c: int)
    requires IsSet(on)
  {
    && (l.closed ==> l'.closed)
    && (l'.closed ==> l'.accrued == 0 || (l.closed && l'.accrued == l.accrued))
    && if l'.from == l.from then
         && c == 0
         && (Live(l, on) ==>
               && (!l'.closed ==> l'.balance + l'.accrued <= l.balance + l.accrued)
               && (l.balance > 0 ==> l'.balance == l.balance && !l'.closed))
       else Live(l, on) && l'.from == on && exists base: nat :: ChargedOn(p, l, on, base, c)
  }

  lemma NothingHappens(p: Position, l: LoanState, on: Date)
    requires IsSet(on)
    ensures LoanCharged(p, l, l, on, 0)
  {
  }

  /** A day's steps charge a loan once. */
  lemma ChargedOnce(p: Position, a: LoanState, b: LoanState, c: LoanState, on: Date, x: int, y: int)
    requires IsSet(on) && LoanCharged(p, a, b, on, x) && LoanCharged(p, b, c, on, y)
    ensures LoanCharged(p, a, c, on, x + y)
  {
    hide DayNumber, Contract.Interest, DaysBetween;
    CompareIsDayOrder(on, on);
    if b.from == a.from && c.from != b.from {
      var base: nat :| ChargedOn(p, b, on, base, y);
      assert ChargedOn(p, a, on, base, y);
    } else if b.from != a.from {
      var base: nat :| ChargedOn(p, a, on, base, x);
      assert ChargedOn(p, a, on, base, x + y);
    }
  }

  // ---------- All loans ----------

  function SumOf(cs: seq<int>): int {
    if cs == [] then 0 else SumOf(cs[..|cs| - 1]) + cs[|cs| - 1]
  }

  function AccruedBy(loans: seq<LoanState>): int {
    if loans == [] then 0 else AccruedBy(loans[..|loans| - 1]) + loans[|loans| - 1].accrued
  }

  /** Interest paid, and interest booked and not yet paid. */
  function InterestOf(s: Snap): int {
    s.res.totalInterest + AccruedBy(s.loans)
  }

  /** What a day charges every loan makes up all interest that is new. */
  ghost predicate ChargedBy(w: World, s: Snap, r: Snap, on: Date, cs: seq<int>)
    requires IsSet(on)
  {
    && Over(w, s) && Over(w, r) && |cs| == |s.loans| && InterestOf(r) == InterestOf(s) + SumOf(cs)
    && forall i :: 0 <= i < |cs| ==> LoanCharged(w.input.loans[i], s.loans[i], r.loans[i], on, cs[i])
  }

  ghost predicate Charged(w: World, s: Snap, r: Snap, on: Date)
    requires IsSet(on)
  {
    exists cs: seq<int> :: ChargedBy(w, s, r, on, cs)
  }

  function Zeros(n: nat): (cs: seq<int>)
    ensures |cs| == n
  {
    seq(n, _ => 0)
  }

  lemma {:induction false} ZerosSum(n: nat)
    ensures SumOf(Zeros(n)) == 0
  {
    if n > 0 {
      ZerosSum(n - 1);
      assert Zeros(n)[..n - 1] == Zeros(n - 1);
    }
  }

  lemma {:induction false} SumsAdd(a: seq<int>, b: seq<int>, c: seq<int>)
    requires |a| == |b| == |c| && forall i :: 0 <= i < |a| ==> c[i] == a[i] + b[i]
    ensures SumOf(c) == SumOf(a) + SumOf(b)
  {
    if a != [] {
      SumsAdd(a[..|a| - 1], b[..|a| - 1], c[..|a| - 1]);
    }
  }

  lemma {:induction false} OneSum(n: nat, i: nat, c: int)
    requires i < n
    ensures SumOf(Zeros(n)[i := c]) == c
  {
    var cs := Zeros(n)[i := c];
    if i == n - 1 {
      assert cs[..n - 1] == Zeros(n - 1);
      ZerosSum(n - 1);
    } else {
      assert cs[..n - 1] == Zeros(n - 1)[i := c];
      OneSum(n - 1, i, c);
    }
  }

  lemma {:induction false} AccruedUpdate(loans: seq<LoanState>, i: nat, l: LoanState)
    requires i < |loans|
    ensures AccruedBy(loans[i := l]) == AccruedBy(loans) - loans[i].accrued + l.accrued
  {
    var n := |loans| - 1;
    if i < n {
      assert loans[i := l][..n] == loans[..n][i := l];
      AccruedUpdate(loans[..n], i, l);
    } else {
      assert loans[i := l][..n] == loans[..n];
    }
  }

  /** A step that touches no loan and pays no interest. */
  lemma Quiet(w: World, s: Snap, r: Snap, on: Date)
    requires Over(w, s) && IsSet(on) && r.loans == s.loans && r.res.totalInterest == s.res.totalInterest
    ensures Charged(w, s, r, on)
  {
    hide LoanCharged;
    ZerosSum(|s.loans|);
    forall i | 0 <= i < |s.loans| ensures LoanCharged(w.input.loans[i], s.loans[i], r.loans[i], on, Zeros(|s.loans|)[i]) {
      NothingHappens(w.input.loans[i], s.loans[i], on);
    }
    assert ChargedBy(w, s, r, on, Zeros(|s.loans|));
  }

  /** A step of one loan. */
  lemma OneCharged(w: World, s: Snap, r: Snap, i: nat, on: Date, c: int)
    requires Over(w, s) && Over(w, r) && IsSet(on) && i < |s.loans| && r.loans == s.loans[i := r.loans[i]]
    requires LoanCharged(w.input.loans[i], s.loans[i], r.loans[i], on, c)
    requires r.res.totalInterest + r.loans[i].accrued == s.res.totalInterest + s.loans[i].accrued + c
    ensures Charged(w, s, r, on)
  {
    hide LoanCharged;
    var cs := Zeros(|s.loans|)[i := c];
    OneSum(|s.loans|, i, c);
    AccruedUpdate(s.loans, i, r.loans[i]);
    forall j | 0 <= j < |s.loans| ensures LoanCharged(w.input.loans[j], s.loans[j], r.loans[j], on, cs[j]) {
      NothingHappens(w.input.loans[j], s.loans[j], on);
    }
    assert ChargedBy(w, s, r, on, cs);
  }

  /** Steps of one day follow one another. */
  lemma Then(w: World, s: Snap, m: Snap, r: Snap, on: Date)
    requires IsSet(on) && Charged(w, s, m, on) && Charged(w, m, r, on)
    ensures Charged(w, s, r, on)
  {
    hide LoanCharged;
    var a: seq<int> :| ChargedBy(w, s, m, on, a);
    var b: seq<int> :| ChargedBy(w, m, r, on, b);
    var cs := seq(|a|, i requires 0 <= i < |a| => a[i] + b[i]);
    SumsAdd(a, b, cs);
    forall i | 0 <= i < |cs| ensures LoanCharged(w.input.loans[i], s.loans[i], r.loans[i], on, cs[i]) {
      ChargedOnce(w.input.loans[i], s.loans[i], m.loans[i], r.loans[i], on, a[i], b[i]);
    }
    assert ChargedBy(w, s, r, on, cs);
  }

  // ---------- Booking and paying ----------

  /** A loan with nothing left to book today. */
  predicate BookedUp(l: LoanState, on: Date) {
    Live(l, on) ==> l.balance <= 0
  }

  lemma BookingCharges(p: Position, l: LoanState, on: Date)
    requires IsSet(on) && !l.closed
    ensures BookedUp(AccruedTo(p, l, on), on) && !AccruedTo(p, l, on).closed && AccruedTo(p, l, on).balance == l.balance
    ensures LoanCharged(p, l, AccruedTo(p, l, on), on, AccruedTo(p, l, on).accrued - l.accrued)
  {
    hide DayNumber, Contract.Interest, DaysBetween;
    CompareIsDayOrder(on, on);
    if IsSet(l.from) {
      CompareIsDayOrder(l.from, on);
      CompareIsDayOrder(on, l.from);
      if After(on, l.from) && l.balance > 0 {
        assert ChargedOn(p, l, on, l.balance, p.contract.Interest(l.balance, DaysBetween(l.from, on)));
      }
    }
  }

  /** A quote that closes settles all interest booked. */
  predicate Settles(l: LoanState, q: Quote) {
    q.closes ==> q.interest == l.accrued && l.balance >= 0
  }

  lemma QuotesSettle(p: Position, l: LoanState, on: Date, available: int)
    requires QuoteOf(p, l, on, available).Ok?
    ensures Settles(l, QuoteOf(p, l, on, available).value)
  {
    hide Fee, AllowanceUsed;
    if l.balance >= 0 && available >= 0 {
      QuoteStaysWithinAllowance(p.contract, on, l.balance, l.accrued, AllowanceUsed(p, l, on), available);
    }
  }

  lemma QuotedCharges(w: World, s: Snap, i: nat, on: Date, available: int)
    requires Over(w, s) && i < |s.loans| && IsSet(on) && !s.loans[i].closed
    ensures var (r, q) := Quoted(w, s, i, on, available);
            Charged(w, s, r, on) && BookedUp(r.loans[i], on) && !r.loans[i].closed && Settles(r.loans[i], q)
  {
    hide AccruedTo, QuoteOf, LoanCharged, BookedUp;
    var p, l := w.input.loans[i], s.loans[i];
    var (r, q) := Quoted(w, s, i, on, available);
    BookingCharges(p, l, on);
    OneCharged(w, s, r, i, on, r.loans[i].accrued - l.accrued);
    if r.err.None? || QuoteOf(p, r.loans[i], on, available).Ok? {
      QuotesSettle(p, r.loans[i], on, available);
    }
  }

  /** A fresh obligation changes neither what is owed nor the day it is booked to. */
  predicate SameDebt(l: LoanState, r: LoanState) {
    r.closed == l.closed && r.balance == l.balance && r.accrued == l.accrued && r.from == l.from
  }

  lemma RefreshedKeepsDebt(l: LoanState, o: Amortisation.Obligation)
    requires o.payment >= 0 && o.instalment >= 0
    ensures SameDebt(l, Refreshed(l, o))
  {
  }

  lemma RenewedKeepsDebts(w: World, s: Snap, i: nat)
    requires i < |s.loans| <= |w.input.loans|
    ensures var r := Renewed(w, s, i);
            |r.loans| == |s.loans| && r.loans == s.loans[i := r.loans[i]] && SameDebt(s.loans[i], r.loans[i])
  {
    hide ProjectionMemo.Ask, Refreshed;
    if IsSet(s.loans[i].from) {
      var o := ProjectionMemo.Ask(s.memo, w.input.loans[i].contract, TermsOf(s.loans[i])).0;
      if o.Ok? && o.value.payment >= 0 && o.value.instalment >= 0 {
        RefreshedKeepsDebt(s.loans[i], o.value);
      }
    }
  }

  lemma RenewedCharges(w: World, s: Snap, i: nat, on: Date)
    requires Over(w, s) && i < |s.loans| && IsSet(on)
    ensures Charged(w, s, Renewed(w, s, i), on)
    ensures Renewed(w, s, i).loans[i].closed == s.loans[i].closed
  {
    hide Renewed, Charged;
    RenewedKeepsDebts(w, s, i);
    OneCharged(w, s, Renewed(w, s, i), i, on, 0);
  }

  lemma CreditingCharges(w: World, s: Snap, i: nat, on: Date, q: Quote, early: bool)
    requires Over(w, s) && i < |s.loans| && IsSet(on) && BookedUp(s.loans[i], on) && !s.loans[i].closed && Settles(s.loans[i], q)
    ensures Charged(w, s, Prepaying(w, s, i, on, q, early), on)
  {
    hide ContractYear, BudgetAfter, Freed, Before;
    var r := Prepaying(w, s, i, on, q, early);
    assert r.loans == s.loans[i := r.loans[i]];
    OneCharged(w, s, r, i, on, 0);
  }

  lemma BucketSpentCharges(w: World, s: Snap, k: nat, i: nat, on: Date, dueLoan: int, q: Quote, early: bool)
    requires Over(w, s) && i < |s.loans| && k < |s.buckets| && IsSet(on)
    requires BookedUp(s.loans[i], on) && !s.loans[i].closed && Settles(s.loans[i], q)
    ensures Charged(w, s, BucketSpent(w, s, k, i, on, dueLoan, q, early), on)
  {
    hide Prepaying, Renewed, Charged, BookedUp, Settles;
    if q.outflow > s.buckets[k].remaining {
      Quiet(w, s, s, on);
    } else {
      var moved := Moved(s, k, q.outflow);
      var paid := Prepaying(w, moved, i, on, q, early);
      Quiet(w, s, moved, on);
      CreditingCharges(w, moved, i, on, q, early);
      Then(w, s, moved, paid, on);
      RenewedCharges(w, paid, i, on);
      Then(w, s, paid, Renewed(w, paid, i), on);
    }
  }

  lemma RoutedToCharges(w: World, s: Snap, k: nat, i: nat, on: Date, dueLoan: int)
    requires Over(w, s) && i < |s.loans| && k < |s.buckets| && IsDay(on) && !s.loans[i].closed
    ensures Charged(w, s, RoutedTo(w, s, k, i, on, dueLoan), on)
  {
    hide Quoted, BucketSpent, Charged, BookedUp, Settles, SurplusIn, HeldBack, Before;
    Quiet(w, s, s, on);
    var b := s.buckets[k];
    var surplus := SurplusIn(w, s.(cash := s.cash + b.remaining), on);
    var available := if surplus > b.remaining then b.remaining else surplus;
    QuotedCharges(w, s, i, on, available);
    var (asked, q) := Quoted(w, s, i, on, available);
    var early := i != dueLoan && s.loans[i].timing == OnReceipt && Before(on, s.loans[i].due);
    QuotedKeepsBuckets(w, s, i, on, available);
    BucketSpentCharges(w, asked, k, i, on, dueLoan, q, early);
    Then(w, s, asked, BucketSpent(w, asked, k, i, on, dueLoan, q, early), on);
  }

  lemma QuotedKeepsBuckets(w: World, s: Snap, i: nat, on: Date, available: int)
    requires Over(w, s) && i < |s.loans| && IsSet(on)
    ensures Quoted(w, s, i, on, available).0.buckets == s.buckets
  {
    hide AccruedTo, QuoteOf;
  }

  lemma RoutedOneCharges(w: World, s: Snap, k: nat, on: Date, dueLoan: int)
    requires Over(w, s) && k < |s.buckets| && IsDay(on)
    ensures Charged(w, s, RoutedOne(w, s, k, on, dueLoan), on)
  {
    hide RoutedTo, Charged, LoanNamed;
    var kept := s.(buckets := s.buckets[k := Reconsidered(s.buckets[k], on)]);
    var r := RoutedOne(w, s, k, on, dueLoan);
    Quiet(w, s, kept, on);
    if r.loans == s.loans && r.res == s.res {
      Quiet(w, s, r, on);
    } else {
      var i := LoanNamed(w.input.loans, Reconsidered(s.buckets[k], on).target, 0);
      RoutedToCharges(w, kept, k, i, on, dueLoan);
      Then(w, s, kept, r, on);
    }
  }

  lemma {:induction false} RoutedFromCharges(w: World, s: Snap, k: nat, on: Date, dueLoan: int)
    requires Over(w, s) && k <= |s.buckets| && IsDay(on)
    ensures Charged(w, s, RoutedFrom(w, s, k, on, dueLoan), on)
    decreases |s.buckets| - k
  {
    hide RoutedOne, Charged;
    if k == |s.buckets| {
      Quiet(w, s, s, on);
    } else {
      var one := RoutedOne(w, s, k, on, dueLoan);
      RoutedOneCharges(w, s, k, on, dueLoan);
      if one.err.None? {
        RoutedFromCharges(w, one, k + 1, on, dueLoan);
        Then(w, s, one, RoutedFrom(w, one, k + 1, on, dueLoan), on);
      }
    }
  }

  // ---------- Free cash ----------

  lemma OfferedCharges(w: World, s: Snap, i: nat, on: Date, surplus: int)
    requires Over(w, s) && i < |s.loans| && IsDay(on) && !s.loans[i].closed
    ensures Charged(w, s, Offered(w, s, i, on, surplus).0, on)
  {
    hide Quoted, Prepaying, Charged, HeldBack, BookedUp, Settles, EarlyCredit;
    QuotedCharges(w, s, i, on, surplus);
    var (asked, q) := Quoted(w, s, i, on, surplus);
    CreditingCharges(w, asked, i, on, q, true);
    Then(w, s, asked, Prepaying(w, asked, i, on, q, true), on);
    var held := asked.(loans := asked.loans[i := asked.loans[i].(pending := asked.loans[i].pending + q.outflow)]);
    PendingCharges(w, asked, held, i, on);
    Then(w, s, asked, held, on);
  }

  lemma PendingCharges(w: World, s: Snap, r: Snap, i: nat, on: Date)
    requires Over(w, s) && i < |s.loans| && IsSet(on)
    requires |r.loans| == |s.loans| && r.loans == s.loans[i := s.loans[i].(pending := r.loans[i].pending)]
    requires r.res.totalInterest == s.res.totalInterest
    ensures Charged(w, s, r, on)
  {
    OneCharged(w, s, r, i, on, 0);
  }

  lemma {:induction false} OfferedFromCharges(w: World, s: Snap, on: Date, surplus: int, k: nat)
    requires Over(w, s) && IsDay(on) && k <= |w.policy.order|
    ensures Charged(w, s, OfferedFrom(w, s, on, surplus, k), on)
    decreases |w.policy.order| - k
  {
    hide Offered, Charged;
    if k == |w.policy.order| {
      Quiet(w, s, s, on);
    } else {
      var i := w.policy.order[k];
      if 0 <= i < |s.loans| && !s.loans[i].closed && !w.input.loans[i].optionalExcluded && surplus > 0 {
        var (one, left) := Offered(w, s, i, on, surplus);
        OfferedCharges(w, s, i, on, surplus);
        if one.err.None? {
          OfferedFromCharges(w, one, on, left, k + 1);
          Then(w, s, one, OfferedFrom(w, one, on, left, k + 1), on);
        }
      } else {
        OfferedFromCharges(w, s, on, surplus, k + 1);
      }
    }
  }

  lemma AllocatedCharges(w: World, s: Snap, on: Date)
    requires Over(w, s) && IsDay(on)
    ensures Charged(w, s, Allocated(w, s, on), on)
  {
    hide RoutedFrom, OfferedFrom, Charged, SurplusIn;
    var routed := Routed(w, s, on, -1);
    RoutedFromCharges(w, s, 0, on, -1);
    if routed.err.None? {
      OfferedFromCharges(w, routed, on, SurplusIn(w, routed, on), 0);
      Then(w, s, routed, OfferedFrom(w, routed, on, SurplusIn(w, routed, on), 0), on);
    }
  }

  /** A step that only moves money or turns a cycle, and the allocation after it. */
  lemma ThenAllocated(w: World, s: Snap, m: Snap, on: Date)
    requires Over(w, s) && IsDay(on) && m.loans == s.loans && m.res.totalInterest == s.res.totalInterest
    ensures Over(w, m) && Charged(w, s, Allocated(w, m, on), on)
  {
    hide Charged, Allocated;
    Quiet(w, s, m, on);
    AllocatedCharges(w, m, on);
    Then(w, s, m, Allocated(w, m, on), on);
  }

  // ---------- Events ----------

  lemma CyclesChargeNothing(s: Snap, on: Date)
    ensures WithCycle(s, on).loans == s.loans && WithCycle(s, on).res == s.res
    ensures Turned(s, on).loans == s.loans && Turned(s, on).res.totalInterest == s.res.totalInterest
  {
    hide OpenBalance, Restricted;
  }

  lemma EarnedCharges(w: World, s: Snap, on: Date)
    requires Over(w, s) && IsDay(on)
    ensures Charged(w, s, Earned(w, s, on), on)
  {
    hide Charged, Allocated, CreditIn, Turned;
    CyclesChargeNothing(s, on);
    ThenAllocated(w, s, IncomeTaken(w, s, on), on);
  }

  lemma LumpTakenCharges(w: World, s: Snap, k: nat, on: Date)
    requires Over(w, s) && k < |s.lumps| && IsDay(on)
    ensures Charged(w, s, LumpTaken(w, s, k, on), on)
  {
    hide Charged, Allocated, ReceivedFrom;
    ThenAllocated(w, s, LumpReceived(s, k, on), on);
  }

  lemma DueCreditedCharges(w: World, s: Snap, i: nat, on: Date, required: nat)
    requires Over(w, s) && i < |s.loans| && IsSet(on) && BookedUp(s.loans[i], on)
    ensures Charged(w, s, DueTaken(w, s, i, on, required), on)
  {
    hide BudgetAfter, Freed, Before, Counted;
    var r := DueTaken(w, s, i, on, required);
    assert r.loans == s.loans[i := r.loans[i]];
    OneCharged(w, s, r, i, on, 0);
  }

  lemma BookedCharges(w: World, s: Snap, i: nat, on: Date)
    requires Over(w, s) && i < |s.loans| && IsSet(on)
    ensures var r := InterestBooked(w, s, i, on);
            Charged(w, s, r, on) && BookedUp(r.loans[i], on) && r.loans[i].closed == s.loans[i].closed
  {
    hide AccruedTo, LoanCharged, Charged;
    var l, r := s.loans[i], InterestBooked(w, s, i, on);
    if l.closed || l.balance <= 0 {
      assert r.loans == s.loans;
      Quiet(w, s, r, on);
    } else {
      BookingCharges(w.input.loans[i], l, on);
      OneCharged(w, s, r, i, on, r.loans[i].accrued - l.accrued);
    }
  }

  lemma DueMetCharges(w: World, s: Snap, i: nat, on: Date)
    requires Over(w, s) && i < |s.loans| && IsSet(on)
    ensures Charged(w, s, DueMet(w, s, i, on), on)
  {
    hide Charged, InterestBooked, DueTaken, AskedToday, ProjectionMemo.Resolve, BookedUp;
    var booked := InterestBooked(w, s, i, on);
    BookedCharges(w, s, i, on);
    var (calendar, memo) := ProjectionMemo.Resolve(s.memo, w.input.loans[i].contract);
    var known, r := booked.(memo := memo), DueMet(w, s, i, on);
    if r.loans == booked.loans && r.res == booked.res {
      Quiet(w, booked, r, on);
    } else {
      var required := AskedToday(calendar.value, booked.loans[i], on);
      Quiet(w, booked, known, on);
      DueCreditedCharges(w, known, i, on, required);
      Then(w, booked, known, r, on);
    }
    Then(w, s, booked, r, on);
  }

  lemma HeldPaidCharges(w: World, s: Snap, i: nat, on: Date)
    requires Over(w, s) && i < |s.loans| && IsDay(on) && !s.loans[i].closed
    ensures Charged(w, s, HeldPaid(w, s, i, on).0, on)
  {
    hide Charged, Quoted, Prepaying, WantedIn, BookedUp, Settles;
    Quiet(w, s, s, on);
    var lapsed, want := Lapsed(s, i), WantedIn(w, s, i, on);
    PendingCharges(w, s, lapsed, i, on);
    QuotedCharges(w, lapsed, i, on, want);
    var (asked, q) := Quoted(w, lapsed, i, on, want);
    Then(w, s, lapsed, asked, on);
    CreditingCharges(w, asked, i, on, q, false);
    Then(w, s, asked, Prepaying(w, asked, i, on, q, false), on);
  }

  lemma RestMetCharges(w: World, s: Snap, i: nat, on: Date)
    requires Over(w, s) && i < |s.loans| && IsDay(on) && !s.loans[i].closed
    ensures Charged(w, s, RestMet(w, s, i, on), on)
  {
    hide Charged, HeldPaid, Renewed;
    Quiet(w, s, s, on);
    RenewedCharges(w, s, i, on);
    var renewed := if w.input.Separate() then Renewed(w, s, i) else s;
    var held := HeldPaid(w, renewed, i, on).0;
    HeldPaidCharges(w, renewed, i, on);
    Then(w, s, renewed, held, on);
    RenewedCharges(w, held, i, on);
    Then(w, s, held, Renewed(w, held, i), on);
  }

  lemma DueSettledCharges(w: World, s: Snap, i: nat, on: Date)
    requires Over(w, s) && i < |s.loans| && IsDay(on)
    ensures Charged(w, s, DueSettled(w, s, i, on), on)
  {
    hide Charged, DueMet, RestMet;
    var met := DueMet(w, s, i, on);
    DueMetCharges(w, s, i, on);
    if met.err.None? && !met.loans[i].closed {
      RestMetCharges(w, met, i, on);
      Then(w, s, met, RestMet(w, met, i, on), on);
    }
  }

  lemma DuePassedCharges(w: World, s: Snap, i: nat, on: Date)
    requires Over(w, s) && i < |s.loans| && IsDay(on)
    ensures Charged(w, s, DuePassed(w, s, i, on), on)
  {
    hide Charged, DueSettled, Earned, RoutedFrom, WithCycle;
    Quiet(w, s, s, on);
    EarnedCharges(w, s, on);
    var earned := if w.input.cash.payDay == 0 && YearMonth(on) != s.incomeYM then Earned(w, s, on) else s;
    CyclesChargeNothing(earned, on);
    Quiet(w, earned, WithCycle(earned, on), on);
    Then(w, s, earned, WithCycle(earned, on), on);
    var arrived := DueArrived(w, s, on);
    if arrived.err.None? {
      DueSettledCharges(w, arrived, i, on);
      var settled := DueSettled(w, arrived, i, on);
      Then(w, s, arrived, settled, on);
      if settled.err.None? {
        RoutedFromCharges(w, settled, 0, on, i);
        Then(w, s, settled, Routed(w, settled, on, i), on);
      }
    }
  }

  /** Promises taken back charge nothing. */
  lemma ReleasedCharges(w: World, s: Snap, r: Snap, on: Date)
    requires Over(w, s) && IsSet(on) && r.loans == Released(s.loans) && r.res.totalInterest == s.res.totalInterest
    ensures Charged(w, s, r, on)
  {
    ReleasedAccrued(s.loans);
    ZerosSum(|s.loans|);
    assert ChargedBy(w, s, r, on, Zeros(|s.loans|));
  }

  lemma {:induction false} ReleasedAccrued(loans: seq<LoanState>)
    ensures AccruedBy(Released(loans)) == AccruedBy(loans)
  {
    if loans != [] {
      ReleasedAccrued(loans[..|loans| - 1]);
      assert Released(loans)[..|loans| - 1] == Released(loans[..|loans| - 1]);
    }
  }

  lemma TermsRenewedCharges(w: World, s: Snap, on: Date, newPeriod: bool, terms: (CarryRule, int, Date))
    requires Over(w, s) && w.input.Separate() && IsDay(on)
    ensures Charged(w, s, TermsRenewed(w, s, on, newPeriod, terms), on)
  {
    hide Charged, NextChange, Turned, Before, After, SpareIn, Released;
    var released := s.(nextPeriod := NextChange(w.input.cash.spending.value, on), loans := Released(s.loans));
    ReleasedCharges(w, s, released, on);
    CyclesChargeNothing(HandedOver(w, released), on);
    CyclesChargeNothing(released, on);
    Quiet(w, released, TermsRenewed(w, s, on, newPeriod, terms), on);
    Then(w, s, released, TermsRenewed(w, s, on, newPeriod, terms), on);
  }

  lemma ReviewedCharges(w: World, s: Snap, on: Date)
    requires Over(w, s) && w.input.Separate() && IsDay(on)
    ensures Charged(w, s, Reviewed(w, s, on), on)
  {
    hide Charged, Granted, TermsRenewed, Allocated, CarryAfter, InForce;
    var p, granted := w.input.cash.spending.value, Granted(w, s, on);
    GrantingChargesNothing(w, s, on);
    Quiet(w, s, granted, on);
    if granted.err.None? {
      var newPeriod, terms := s.periodStart != granted.periodStart, CarryAfter(p, InForce(p.changes, on));
      var renewed := TermsRenewed(w, granted, on, newPeriod, terms);
      TermsRenewedCharges(w, granted, on, newPeriod, terms);
      Then(w, s, granted, renewed, on);
      AllocatedCharges(w, renewed, on);
      Then(w, s, renewed, Allocated(w, renewed, on), on);
    }
  }

  lemma GrantingChargesNothing(w: World, s: Snap, on: Date)
    requires w.input.Separate() && IsDay(on)
    ensures Granted(w, s, on).loans == s.loans && Granted(w, s, on).res == s.res
  {
    hide LimitOn, SpentIn;
  }

  /** Every event charges every loan the days since it was booked, on the balance then outstanding. */
  lemma EventsCharge(w: World, s: Snap, e: Event, on: Date)
    requires Over(w, s) && IsDay(on)
    ensures Charged(w, s, Happened(w, s, e, on), on)
  {
    hide Charged, Reviewed, LumpTaken, Earned, Allocated, DuePassed, WithCycle;
    Quiet(w, s, s, on);
    match e
    case PeriodEvent =>
      if w.input.Separate() {
        ReviewedCharges(w, s, on);
      }
    case LumpEvent(k) =>
      if k < |s.lumps| {
        LumpTakenCharges(w, s, k, on);
      }
    case IncomeEvent => EarnedCharges(w, s, on);
    case RouteEvent =>
      CyclesChargeNothing(s, on);
      ThenAllocated(w, s, WithCycle(s, on), on);
    case DueEvent(i) =>
      if i < |s.loans| {
        DuePassedCharges(w, s, i, on);
      }
  }

  // ---------- Runs ----------

  /** What one turn of a run charges every loan. */
  ghost predicate TurnCharges(w: World, s: Snap, r: Snap, cs: seq<int>)
    requires Over(w, s)
  {
    match Picked(s)
    case Some(pick) =>
      if IsDay(pick.1) then ChargedBy(w, s, r, pick.1, cs) else cs == Zeros(|s.loans|) && SameLoansAndInterest(s, r)
    case None => cs == Zeros(|s.loans|) && SameLoansAndInterest(s, r)
  }

  predicate SameLoansAndInterest(s: Snap, r: Snap) {
    r.loans == s.loans && r.res.totalInterest == s.res.totalInterest
  }

  lemma ATurnCharges(w: World, s: Snap) returns (cs: seq<int>)
    requires Over(w, s) && IsDay(w.input.valuation)
    ensures TurnCharges(w, s, Next(w, s), cs) && |cs| == |s.loans| && InterestOf(Next(w, s)) == InterestOf(s) + SumOf(cs)
    ensures ShutIsSettled(s) ==> ShutIsSettled(Next(w, s))
  {
    hide Picked, Happened, LoanCharged;
    var r := Next(w, s);
    cs := Zeros(|s.loans|);
    ZerosSum(|s.loans|);
    if Picked(s).Some? && IsDay(Picked(s).value.1) {
      var on := Picked(s).value.1;
      if After(on, Horizon(w)) {
        Quiet(w, s, r, on);
      } else {
        EventsCharge(w, s, Picked(s).value.0, on);
      }
      cs :| ChargedBy(w, s, r, on, cs);
      ShutStaysSettled(w, s, r, on, cs);
    } else if Picked(s).Some? {
      NoDayNoChange(w, s, Picked(s).value.0, Picked(s).value.1);
    }
  }

  lemma NoDayNoChange(w: World, s: Snap, e: Event, on: Date)
    requires Over(w, s) && !IsDay(on)
    ensures Happened(w, s, e, on) == s
  {
  }

  /** A closed loan has no interest left to pay. */
  predicate ShutIsSettled(s: Snap) {
    forall i :: 0 <= i < |s.loans| && s.loans[i].closed ==> s.loans[i].accrued == 0
  }

  lemma ShutStaysSettled(w: World, s: Snap, r: Snap, on: Date, cs: seq<int>)
    requires IsSet(on) && ChargedBy(w, s, r, on, cs)
    ensures ShutIsSettled(s) ==> ShutIsSettled(r)
  {
    if ShutIsSettled(s) {
      forall i | 0 <= i < |r.loans| && r.loans[i].closed ensures r.loans[i].accrued == 0 {
        assert LoanCharged(w.input.loans[i], s.loans[i], r.loans[i], on, cs[i]);
      }
    }
  }

  /** What the turns of a run charge, one after another; an ended run charges nothing. */
  ghost predicate RunCharges(w: World, start: Snap, n: nat, all: seq<seq<int>>)
    requires Over(w, start) && IsDay(w.input.valuation)
  {
    && |all| == n
    && forall k :: 0 <= k < n && !Ended(Steps(w, start, k)) ==> TurnCharges(w, Steps(w, start, k), Steps(w, start, k + 1), all[k])
  }

  function Total(all: seq<seq<int>>): int {
    if all == [] then 0 else Total(all[..|all| - 1]) + SumOf(all[|all| - 1])
  }

  /** The interest of a run, paid or still owed, is what its turns charged. */
  lemma {:induction false} TurnsAddUp(w: World, start: Snap, n: nat) returns (all: seq<seq<int>>)
    requires Over(w, start) && IsDay(w.input.valuation)
    ensures RunCharges(w, start, n, all) && InterestOf(Steps(w, start, n)) == InterestOf(start) + Total(all)
    ensures ShutIsSettled(start) ==> ShutIsSettled(Steps(w, start, n))
  {
    hide Next, Ended, TurnCharges, InterestOf, ShutIsSettled, SumOf, Steps;
    if n == 0 {
      all := [];
      NoSteps(w, start);
    } else {
      var before := TurnsAddUp(w, start, n - 1);
      var s := Steps(w, start, n - 1);
      StepsOneMore(w, start, n - 1);
      var cs := Zeros(|s.loans|);
      if Ended(s) {
        ZerosSum(|s.loans|);
      } else {
        cs := ATurnCharges(w, s);
      }
      all := before + [cs];
      assert all[..n - 1] == before;
    }
  }

  lemma NoSteps(w: World, s: Snap)
    requires Over(w, s) && IsDay(w.input.valuation)
    ensures Steps(w, s, 0) == s
  {
  }

  /** A run starts with every position's balance and booking day, and no interest. */
  predicate AtTheStart(ps: seq<Position>, loans: seq<LoanState>) {
    |loans| <= |ps| && forall i :: 0 <= i < |loans| ==>
      loans[i].balance == ps[i].balance && loans[i].from == ps[i].from && loans[i].accrued == 0
  }

  lemma {:induction false} TakingLoansStarts(w: World, s: Snap)
    requires |s.loans| <= |w.input.loans| && AtTheStart(w.input.loans, s.loans)
    ensures AtTheStart(w.input.loans, LoansTaken(w, s).loans)
    decreases |w.input.loans| - |s.loans|
  {
    hide LoanTaken, AtTheStart;
    if s.err.None? && |s.loans| < |w.input.loans| {
      TakingOneStarts(w, s);
      TakingLoansStarts(w, LoanTaken(w, s));
    }
  }

  lemma TakingOneStarts(w: World, s: Snap)
    requires |s.loans| < |w.input.loans| && AtTheStart(w.input.loans, s.loans)
    ensures AtTheStart(w.input.loans, LoanTaken(w, s).loans)
  {
    hide Renewed;
    var k := |s.loans|;
    var added := s.(loans := s.loans + [Starting(w.input.loans[k], TimingOf(w.policy, k), EffectOf(w.policy, k))]);
    assert AtTheStart(w.input.loans, added.loans);
    RenewingStarts(w, added, k);
  }

  lemma RenewingStarts(w: World, s: Snap, i: nat)
    requires i < |s.loans| <= |w.input.loans| && AtTheStart(w.input.loans, s.loans)
    ensures AtTheStart(w.input.loans, Renewed(w, s, i).loans)
  {
    hide Renewed;
    RenewedKeepsDebts(w, s, i);
  }

  lemma {:induction false} NoneAccrued(ps: seq<Position>, loans: seq<LoanState>)
    requires AtTheStart(ps, loans)
    ensures AccruedBy(loans) == 0
  {
    if loans != [] {
      NoneAccrued(ps, loans[..|loans| - 1]);
    }
  }

  lemma {:induction false} NothingLeftAccrued(loans: seq<LoanState>)
    requires forall i :: 0 <= i < |loans| ==> loans[i].accrued == 0
    ensures AccruedBy(loans) == 0
  {
    if loans != [] {
      NothingLeftAccrued(loans[..|loans| - 1]);
    }
  }

  lemma StartsUncharged(w: World, memo: ProjectionMemo.Memo)
    requires IsDay(w.input.valuation) && Started(w, memo).err.None?
    ensures var start := Started(w, memo);
            AtTheStart(w.input.loans, start.loans) && InterestOf(start) == 0 && ShutIsSettled(start)
  {
    hide LoansTaken, LumpsTaken, AtTheStart;
    assert AtTheStart(w.input.loans, Blank(w, memo).loans) by {
      assert Blank(w, memo).loans == [];
      NothingAtTheStart(w.input.loans);
    }
    TakingLoansStarts(w, Blank(w, memo));
    NoneAccrued(w.input.loans, Started(w, memo).loans);
    StartIsSettled(w.input.loans, Started(w, memo));
  }

  lemma NothingAtTheStart(ps: seq<Position>)
    ensures AtTheStart(ps, [])
  {
  }

  lemma StartIsSettled(ps: seq<Position>, s: Snap)
    requires AtTheStart(ps, s.loans)
    ensures ShutIsSettled(s)
  {
  }

  /**
   The interest of a finished run, whatever memo it uses, is what its turns charged: from each
   position's day and balance on, every turn charges a loan its contract's interest on the balance
   then outstanding for the days since it was last booked, and nothing else.
   */
  lemma RunsChargeEveryDayOnce(in_: Input, policy: Policy, memo: ProjectionMemo.Memo) returns (n: nat, all: seq<seq<int>>)
    requires RunOf(in_, policy, memo).0.Finished?
    ensures IsDay(in_.valuation)
    ensures var w := WorldOf(in_, policy);
            var start := Started(w, memo);
            && start.err.None? && AtTheStart(in_.loans, start.loans)
            && Ended(Steps(w, start, n)) && RunCharges(w, start, n, all)
            && RunOf(in_, policy, memo).0.result.totalInterest == Total(all)
  {
    hide Started, Steps, RunCharges, TurnCharges, Accepted, Covers, AtTheStart, ShutIsSettled, Total, Canonical, CycleRecorded;
    FinishedRunsStop(in_, policy, memo);
    var w := WorldOf(in_, policy);
    var start := Started(w, memo);
    n :| Ended(Steps(w, start, n)) && Steps(w, start, n) == StopOf(w, start);
    StartsUncharged(w, memo);
    all := TurnsAddUp(w, start, n);
    EndIsSettled(Steps(w, start, n));
  }

  lemma EndIsSettled(s: Snap)
    requires AllShut(s) && ShutIsSettled(s)
    ensures InterestOf(s) == s.res.totalInterest == Completed(s).res.totalInterest
  {
    hide OpenBalance, Restricted;
    NothingLeftAccrued(s.loans);
  }

  lemma FinishedRunsStop(in_: Input, policy: Policy, memo: ProjectionMemo.Memo)
    requires RunOf(in_, policy, memo).0.Finished?
    ensures IsDay(in_.valuation)
    ensures var w := WorldOf(in_, policy);
            var start := Started(w, memo);
            && start.err.None? && Stops(w, start) && StopOf(w, start).err.None? && AllShut(StopOf(w, start))
            && RunOf(in_, policy, memo).0 == OutcomeOf(StopOf(w, start))
            && exists n: nat :: Ended(Steps(w, start, n)) && Steps(w, start, n) == StopOf(w, start)
  {
    hide Started, Steps, Covers, RoutingValid, FundingValid, Canonical;
    var w := WorldOf(in_, policy);
    var start := Started(w, memo);
    var n: nat :| Ended(Steps(w, start, n)) && Steps(w, start, n) == StopOf(w, start);
  }
}
