/**
 The monthly outlay projection, a second simulator with its own settlement rules. Every month
 accounts for all of the requested extra, every supported loan for all of its money, no loan
 is left with interest on nothing, and a finish month means that everything is settled.
 */
module MonthlyProjection {
  import opened Dates
  import opened Contracts
  import opened Portfolio
  import Amortisation
  import Money
  import Sorting

  const MAX_MONTHS := 600
  const MAX_LOANS := 100
  const MAX_MINOR := 9007199254740991

  /** Why a loan is shown only with its one known obligation. */
  datatype Reason = Supported | Given(text: string) | AccruedInterestNeeded | OverduePayment | UnsupportedTerms
                  | BankPaymentNeeded | BankPaymentMismatch

  datatype Loan = Loan(id: string, contract: Contract, contractValid: bool, balance: int, asOf: Date, reason: Reason,
                       optionalExcluded: bool, interestKnown: bool, interest: int)

  /** A loan in the projection. */
  datatype Track = Track(loan: Loan, reason: Reason, balance: nat, interest: nat, from: Date, dates: seq<Date>, index: nat,
                         known: Date)

  datatype Payment = Payment(id: string, due: Date, required: int, extra: int, reason: Reason)

  datatype Month = Month(month: int, required: int, extra: int, requested: int, unallocated: int, total: int,
                         payments: seq<Payment>)

  datatype Projected = Projected(months: seq<Month>, complete: bool, reason: Option<Reason>, finish: Option<int>)

  datatype Result<+T> = Ok(value: T) | Invalid {
    predicate IsFailure() { Invalid? }
    function PropagateFailure<U>(): Result<U> requires Invalid? { Invalid }
    function Extract(): T requires Ok? { value }
  }

  /** Checked addition of amounts that must stay exactly representable. */
  function Add(a: int, b: int): (r: Result<int>)
    ensures r.Ok? <==> a >= 0 && b >= 0 && a + b <= MAX_MINOR
    ensures r.Ok? ==> r.value == a + b
  {
    if a < 0 || b < 0 || a > MAX_MINOR - b then Invalid else Ok(a + b)
  }

  /** Interest booked up to a day on what is outstanding. */
  function Accrued(t: Track, on: Date): Result<Track>
    requires IsSet(t.from) && IsSet(on)
  {
    if Before(on, t.from) then Invalid
    else
      var interest :- Add(t.interest, t.loan.contract.Interest(t.balance, DaysBetween(t.from, on)));
      Ok(t.(interest := interest, from := on))
  }

  /** A required instalment on the loan's next bank date: interest first, and everything owed on the last date. */
  function DuePaid(t: Track): Result<(Track, int)>
    requires IsSet(t.from) && t.index < |t.dates| && IsSet(t.dates[t.index])
  {
    var booked :- Accrued(t, t.dates[t.index]);
    var owed :- Add(booked.balance, booked.interest);
    var scheduled := t.loan.contract.scheduledPayment;
    var required := if scheduled > owed || t.index == |t.dates| - 1 then owed else scheduled;
    if required <= booked.interest then Invalid
    else Ok((booked.(balance := owed - required, interest := 0, index := t.index + 1), required))
  }

  /** What one live loan shows as the month's bank payment, and the loan after it. */
  function Shown(t: Track, first: bool, on: Date): Result<(Track, Option<Payment>)>
    requires IsSet(t.from) && t.index <= |t.dates| && forall k :: 0 <= k < |t.dates| ==> IsSet(t.dates[k])
  {
    var p := Payment(t.loan.id, UNSET, 0, 0, t.reason);
    if t.reason != Supported then
      if (first && (!IsSet(t.known) || YearMonth(t.known) <= YearMonth(on)))
         || (IsSet(t.known) && YearMonth(t.known) == YearMonth(on))
      then Ok((t, Some(p.(required := if t.loan.contract.hasScheduled then t.loan.contract.scheduledPayment else 0, due := t.known))))
      else Ok((t, None))
    else if t.index < |t.dates| && !After(t.dates[t.index], on) then
      var paid :- DuePaid(t);
      Ok((paid.0, Some(p.(required := paid.1, due := t.dates[t.index]))))
    else Ok((t, Some(p)))
  }

  // ---------- Interest charged ----------

  /** One piece of interest: the balance it is charged on, and the days it runs over. */
  datatype Piece = Piece(balance: nat, from: Date, to: Date) {
    function Amount(c: Contract): nat {
      if IsSet(from) && IsSet(to) && !Before(to, from) then c.Interest(balance, DaysBetween(from, to)) else 0
    }
  }

  function ChargedOver(c: Contract, trail: seq<Piece>): nat {
    if trail == [] then 0 else ChargedOver(c, trail[..|trail| - 1]) + trail[|trail| - 1].Amount(c)
  }

  lemma ChargeAppended(c: Contract, trail: seq<Piece>, x: Piece)
    ensures ChargedOver(c, trail + [x]) == ChargedOver(c, trail) + x.Amount(c)
  {
    assert (trail + [x])[..|trail|] == trail;
  }

  /** A trail without gaps or overlaps from the anchor to the day a loan is booked to, on balances that only fall. */
  predicate Traces(t: Track, trail: seq<Piece>) {
    && (if trail == [] then t.from == t.loan.asOf && t.balance == t.loan.balance
        else
          && trail[0].from == t.loan.asOf && trail[0].balance == t.loan.balance
          && trail[|trail| - 1].to == t.from && t.balance <= trail[|trail| - 1].balance)
    && (forall k :: 0 <= k < |trail| ==> IsSet(trail[k].from) && IsSet(trail[k].to) && !Before(trail[k].to, trail[k].from))
    && (forall k :: 0 < k < |trail| ==> trail[k].from == trail[k - 1].to && trail[k].balance <= trail[k - 1].balance)
  }

  /** Booking a loan up to a day lengthens its trail by that piece; a payment changes only what is owed. */
  lemma TraceGrows(t: Track, trail: seq<Piece>, on: Date, t': Track)
    requires Traces(t, trail) && IsSet(t.from) && IsSet(on) && !Before(on, t.from)
    requires t'.loan == t.loan && t'.from == on && t'.balance <= t.balance
    ensures Traces(t', trail + [Piece(t.balance, t.from, on)])
  {
    hide DayNumber, Compare;
    var longer := trail + [Piece(t.balance, t.from, on)];
    assert forall k :: 0 <= k < |trail| ==> longer[k] == trail[k];
  }

  lemma TraceStays(t: Track, trail: seq<Piece>, t': Track)
    requires Traces(t, trail) && trail != [] && t'.loan == t.loan && t'.from == t.from && t'.balance <= t.balance
    ensures Traces(t', trail)
  {
  }

  /** What each loan has been charged. */
  function ChargesOf(ts: seq<Track>, trails: seq<seq<Piece>>): (owed: seq<int>)
    requires |ts| == |trails|
    ensures |owed| == |ts| && forall i :: 0 <= i < |ts| ==> owed[i] == ChargedOver(ts[i].loan.contract, trails[i])
  {
    seq(|ts|, i requires 0 <= i < |ts| => ChargedOver(ts[i].loan.contract, trails[i]))
  }

  // ---------- Sums ----------

  function ExtraOf(ps: seq<Payment>): int {
    if ps == [] then 0 else ExtraOf(ps[..|ps| - 1]) + ps[|ps| - 1].extra
  }

  function RequiredOf(ps: seq<Payment>): int {
    if ps == [] then 0 else RequiredOf(ps[..|ps| - 1]) + ps[|ps| - 1].required
  }

  /** All one loan pays in a month. */
  function PaidBy(ps: seq<Payment>, id: string): int {
    if ps == [] then 0
    else
      var p := ps[|ps| - 1];
      PaidBy(ps[..|ps| - 1], id) + if p.id == id then p.required + p.extra else 0
  }

  function PaidOver(months: seq<Month>, id: string): int {
    if months == [] then 0
    else PaidOver(months[..|months| - 1], id) + PaidBy(months[|months| - 1].payments, id)
  }

  /** All the extra one loan gets in a month. */
  function ExtraFor(ps: seq<Payment>, id: string): int {
    if ps == [] then 0
    else
      var p := ps[|ps| - 1];
      ExtraFor(ps[..|ps| - 1], id) + if p.id == id then p.extra else 0
  }

  lemma {:induction false} NoExtras(ps: seq<Payment>)
    requires forall j :: 0 <= j < |ps| ==> ps[j].extra == 0
    ensures forall id :: ExtraFor(ps, id) == 0
  {
    if ps != [] {
      NoExtras(ps[..|ps| - 1]);
    }
  }

  lemma PaymentAppended(ps: seq<Payment>, p: Payment)
    ensures ExtraOf(ps + [p]) == ExtraOf(ps) + p.extra && RequiredOf(ps + [p]) == RequiredOf(ps) + p.required
    ensures forall id :: PaidBy(ps + [p], id) == PaidBy(ps, id) + if p.id == id then p.required + p.extra else 0
  {
    assert (ps + [p])[..|ps|] == ps;
  }

  lemma {:induction false} ExtraAdded(ps: seq<Payment>, j: nat, paid: int)
    requires j < |ps|
    ensures var ps' := ps[j := ps[j].(extra := ps[j].extra + paid)];
            && ExtraOf(ps') == ExtraOf(ps) + paid && RequiredOf(ps') == RequiredOf(ps)
            && (forall id :: PaidBy(ps', id) == PaidBy(ps, id) + if ps[j].id == id then paid else 0)
            && forall id :: ExtraFor(ps', id) == ExtraFor(ps, id) + if ps[j].id == id then paid else 0
  {
    var n := |ps| - 1;
    var ps' := ps[j := ps[j].(extra := ps[j].extra + paid)];
    if j < n {
      assert ps'[..n] == ps[..n][j := ps[..n][j].(extra := ps[..n][j].extra + paid)];
      ExtraAdded(ps[..n], j, paid);
    } else {
      assert ps'[..n] == ps[..n];
    }
  }

  lemma MonthAppended(months: seq<Month>, m: Month, id: string)
    ensures PaidOver(months + [m], id) == PaidOver(months, id) + PaidBy(m.payments, id)
  {
    assert (months + [m])[..|months|] == months;
  }

  // ---------- The simulation ----------

  /** What a loan owes when the projection starts. */
  function OpeningDebt(l: Loan): int {
    l.balance + if l.interestKnown then l.interest else 0
  }

  predicate Sound(t: Track) {
    && IsSet(t.from) && t.index <= |t.dates| && (forall k :: 0 <= k < |t.dates| ==> IsSet(t.dates[k]))
    && (t.reason == Supported && t.balance == 0 ==> t.interest == 0)
    && (t.reason == Supported ==> t.loan.contract.rounding.unit >= 1)
  }

  /** One loan's account: its opening debt and the interest charged, against what it has paid and still owes. */
  predicate Balanced(t: Track, charged: int, months: seq<Month>, ps: seq<Payment>) {
    t.reason == Supported ==>
      OpeningDebt(t.loan) + charged == PaidOver(months, t.loan.id) + PaidBy(ps, t.loan.id) + t.balance + t.interest
  }

  /** The same loans in the same order, each with its reason and known obligation; settled ones untouched. */
  predicate SameLoans(a: seq<Track>, b: seq<Track>) {
    |a| == |b| && forall i :: 0 <= i < |a| ==> SameLoan(a[i], b[i])
  }

  predicate SameLoan(t: Track, t': Track) {
    t'.loan == t.loan && t'.reason == t.reason && t'.known == t.known && (t.balance == 0 ==> t' == t)
  }

  /** The whole settlement units in an amount. */
  function WholeUnits(paid: nat, unit: int): (w: nat)
    requires unit >= 1
    ensures w <= paid < w + unit && w % unit == 0
  {
    Money.ModMultiple(paid / unit, unit);
    (paid / unit) * unit
  }

  /** Interest can be booked up to the day, and what is owed then is representable. */
  predicate ExtraFits(t: Track, on: Date)
    requires IsSet(t.from) && IsSet(on)
  {
    Accrued(t, on).Ok? && Add(Accrued(t, on).value.balance, Accrued(t, on).value.interest).Ok?
  }

  /** What an offer takes: all that is owed, else whole units of principal, one fewer where only interest would be left. */
  function ExtraTaken(balance: nat, interest: nat, left: nat, unit: int): (paid: nat)
    requires unit >= 1 && balance > 0
    ensures paid <= left && (paid == balance + interest || paid < balance || (paid == balance && interest == 0))
  {
    if left >= balance + interest then balance + interest
    else
      var principal := WholeUnits(if left > balance then balance else left, unit);
      if principal == balance && interest > 0 then principal - (if unit > principal then principal else unit) else principal
  }

  /** An offer short of what is owed is used up to less than a unit, or leaves one unit of the balance. */
  lemma OfferIsUsed(balance: nat, interest: nat, left: nat, unit: int)
    requires unit >= 1 && balance > 0
    ensures var paid := ExtraTaken(balance, interest, left, unit);
            if left >= balance + interest then paid == balance + interest
            else paid <= left < paid + unit || (left >= balance && balance - paid <= unit)
  {
  }

  /** A loan the extra may go to. */
  predicate Eligible(t: Track) {
    t.balance > 0 && t.reason == Supported && !t.loan.optionalExcluded
  }

  /** What is owed on a day, with the contract's interest from the day booked to. */
  function OwedOn(t: Track, on: Date): nat {
    t.balance + t.interest + Piece(t.balance, t.from, on).Amount(t.loan.contract)
  }

  /** One loan's turn at what is left of the extra: it takes all that it can absorb of it, or is passed over. */
  ghost predicate Dealt(t: Track, t': Track, on: Date, left: nat, after: nat, ps: seq<Payment>) {
    if Eligible(t) && left > 0 then
      && t.loan.contract.rounding.unit >= 1
      && (var paid := ExtraTaken(t.balance, OwedOn(t, on) - t.balance, left, t.loan.contract.rounding.unit);
          && after == left - paid && ExtraFor(ps, t.loan.id) == paid
          && t' == t.(balance := t'.balance, interest := t'.interest, from := on)
          && OwedOn(t, on) == paid + t'.balance + t'.interest)
    else after == left && t' == t && ExtraFor(ps, t.loan.id) == 0
  }

  /** The first n loans in turn, each offered what those before it left. */
  ghost predicate DealtOut(a: seq<Track>, b: seq<Track>, n: nat, on: Date, lefts: seq<nat>, ps: seq<Payment>) {
    && n <= |a| == |b| && |lefts| == n + 1
    && forall i :: 0 <= i < n ==> Dealt(a[i], b[i], on, lefts[i], lefts[i + 1], ps)
  }

  /** A month's extra, dealt out loan by loan. */
  ghost predicate Distributed(a: seq<Track>, b: seq<Track>, on: Date, requested: nat, rest: int, ps: seq<Payment>) {
    exists lefts: seq<nat> :: DealtOut(a, b, |a|, on, lefts, ps) && lefts[0] == requested && lefts[|a|] == rest
  }

  /** Highest rate first, then the smaller opening balance, then the id. */
  predicate InPriority(ts: seq<Track>) {
    forall i, j :: 0 <= i < j < |ts| ==> StandsFirst(ts[i].loan, ts[j].loan)
  }

  predicate StandsFirst(a: Loan, b: Loan) {
    && a.contract.rate >= b.contract.rate
    && (a.contract.rate == b.contract.rate ==> a.balance <= b.balance)
    && (a.contract.rate == b.contract.rate && a.balance == b.balance ==> Sorting.StrLess(a.id, b.id))
  }

  /**
   The extra goes where it saves most: a loan gets some only out of what every eligible loan with
   a higher rate has left after absorbing all that it can.
   */
  lemma DearerLoansComeFirst(a: seq<Track>, b: seq<Track>, on: Date, lefts: seq<nat>, ps: seq<Payment>, i: nat, j: nat)
    requires InPriority(a) && DealtOut(a, b, |a|, on, lefts, ps) && i < |a| && j < |a|
    requires Eligible(a[i]) && a[i].loan.contract.rate > a[j].loan.contract.rate && ExtraFor(ps, a[j].loan.id) > 0
    ensures i < j && a[i].loan.contract.rounding.unit >= 1
    ensures var paid := ExtraTaken(a[i].balance, OwedOn(a[i], on) - a[i].balance, lefts[i], a[i].loan.contract.rounding.unit);
            && ExtraFor(ps, a[i].loan.id) == paid && lefts[i] - paid == lefts[i + 1] >= lefts[j] >= ExtraFor(ps, a[j].loan.id)
  {
    hide ExtraTaken, OwedOn;
    DearerStandsFirst(a, i, j);
    assert Dealt(a[j], b[j], on, lefts[j], lefts[j + 1], ps) && Dealt(a[i], b[i], on, lefts[i], lefts[i + 1], ps);
    LessIsLeft(a, b, on, lefts, ps, i + 1, j);
  }

  lemma DearerStandsFirst(ts: seq<Track>, i: nat, j: nat)
    requires InPriority(ts) && i < |ts| && j < |ts| && ts[i].loan.contract.rate > ts[j].loan.contract.rate
    ensures i < j
  {
  }

  /** What is left only falls. */
  lemma {:induction false} LessIsLeft(a: seq<Track>, b: seq<Track>, on: Date, lefts: seq<nat>, ps: seq<Payment>, i: nat, j: nat)
    requires DealtOut(a, b, |a|, on, lefts, ps) && i <= j < |a|
    ensures lefts[j] <= lefts[i]
    decreases j
  {
    hide ExtraTaken, OwedOn;
    if i < j {
      assert Dealt(a[j - 1], b[j - 1], on, lefts[j - 1], lefts[j], ps);
      LessIsLeft(a, b, on, lefts, ps, i, j - 1);
    }
  }

  predicate HasPayment(ps: seq<Payment>, id: string) {
    exists j :: 0 <= j < |ps| && ps[j].id == id
  }

  class Projector {
    var tracks: seq<Track>
    var months: seq<Month>
    /** The interest charged to each loan since the start, piece by piece. */
    ghost var trails: seq<seq<Piece>>

    ghost predicate Valid()
      reads this
    {
      && |trails| == |tracks| && (forall i :: 0 <= i < |tracks| ==> Sound(tracks[i]) && Traces(tracks[i], trails[i]))
      && (forall i, j :: 0 <= i < j < |tracks| ==> tracks[i].loan.id != tracks[j].loan.id)
    }

    /** All of every supported loan's debt and interest is paid or still owed, counting a month in progress. */
    ghost predicate Kept(ps: seq<Payment>)
      reads this
    {
      |trails| == |tracks| && forall i :: 0 <= i < |tracks| ==> Balanced(tracks[i], ChargesOf(tracks, trails)[i], months, ps)
    }

    constructor (tracks: seq<Track>)
      requires (forall i :: 0 <= i < |tracks| ==> Starts(tracks[i])) && DistinctIds(tracks)
      ensures Valid() && this.tracks == tracks && months == [] && Kept([])
    {
      this.tracks, months := tracks, [];
      trails := seq(|tracks|, _ => []);
    }

    /** Books interest on one loan in place. */
    method Accrue(i: nat, on: Date) returns (ok: bool)
      requires Valid() && i < |tracks| && IsSet(on) && tracks[i].balance > 0
      modifies this`tracks, this`trails
      ensures Valid()
      ensures ok <==> Accrued(old(tracks[i]), on).Ok?
      ensures ok ==>
                && tracks == old(tracks)[i := Accrued(old(tracks[i]), on).value]
                && trails == old(trails)[i := old(trails[i]) + [Piece(old(tracks[i]).balance, old(tracks[i]).from, on)]]
      ensures !ok ==> tracks == old(tracks) && trails == old(trails)
    {
      hide DayNumber, Contract.Interest, DaysBetween, Traces;
      var r := Accrued(tracks[i], on);
      if r.Invalid? {
        return false;
      }
      TraceGrows(tracks[i], trails[i], on, r.value);
      trails := trails[i := trails[i] + [Piece(tracks[i].balance, tracks[i].from, on)]];
      tracks := tracks[i := r.value];
      return true;
    }

    /** A required instalment on its bank date, charged exactly the interest from the day booked to. */
    method PayDue(i: nat) returns (r: Result<int>)
      requires Valid() && i < |tracks| && tracks[i].balance > 0 && tracks[i].index < |tracks[i].dates|
      modifies this`tracks, this`trails
      ensures r.Ok? <==> DuePaid(old(tracks[i])).Ok?
      ensures r.Ok? ==>
                var t, due := old(tracks[i]), old(tracks[i].dates[tracks[i].index]);
                && Valid() && tracks == old(tracks)[i := DuePaid(t).value.0] && r.value == DuePaid(t).value.1
                && trails == old(trails)[i := old(trails[i]) + [Piece(t.balance, t.from, due)]]
                && t.balance + t.interest + Piece(t.balance, t.from, due).Amount(t.loan.contract)
                   == r.value + tracks[i].balance + tracks[i].interest
                && tracks[i].interest == 0 && r.value > 0
                && (r.value == t.loan.contract.scheduledPayment || tracks[i].balance == 0)
                && (tracks[i].index == |tracks[i].dates| ==> tracks[i].balance == 0)
    {
      hide DayNumber, Contract.Interest, Traces;
      var due := tracks[i].dates[tracks[i].index];
      var ok := Accrue(i, due);
      if !ok {
        return Invalid;
      }
      var t := tracks[i];
      var owed :- Add(t.balance, t.interest);
      var required := t.loan.contract.scheduledPayment;
      if required > owed || t.index == |t.dates| - 1 {
        required := owed;
      }
      if required <= t.interest {
        return Invalid;
      }
      TraceStays(t, trails[i], t.(balance := t.balance - (required - t.interest), interest := 0, index := t.index + 1));
      tracks := tracks[i := t.(balance := t.balance - (required - t.interest), interest := 0, index := t.index + 1)];
      return Ok(required);
    }

    /**
     An extra payment at month-end, charged exactly the interest from the day booked to: everything
     owed when that is affordable, else whole settlement units of principal, keeping one unit back
     where interest would be left on nothing.
     */
    method PayExtra(i: nat, on: Date, left: nat) returns (r: Result<nat>)
      requires Valid() && i < |tracks| && tracks[i].balance > 0 && tracks[i].reason == Supported && IsSet(on)
      modifies this`tracks, this`trails
      ensures r.Ok? <==> ExtraFits(old(tracks[i]), on)
      ensures r.Ok? ==>
                var t := old(tracks[i]);
                var owed := t.balance + t.interest + Piece(t.balance, t.from, on).Amount(t.loan.contract);
                var unit := t.loan.contract.rounding.unit;
                && Valid() && |tracks| == |old(tracks)| && tracks == old(tracks)[i := tracks[i]]
                && trails == old(trails)[i := old(trails[i]) + [Piece(t.balance, t.from, on)]]
                && tracks[i] == t.(balance := tracks[i].balance, interest := tracks[i].interest, from := on)
                && owed == r.value + tracks[i].balance + tracks[i].interest && unit >= 1
                && r.value == ExtraTaken(t.balance, owed - t.balance, left, unit)
                && (r.value == owed ==> tracks[i].balance == 0 && tracks[i].interest == 0)
                && (r.value < owed ==> tracks[i].balance == t.balance - r.value > 0)
    {
      hide DayNumber, Contract.Interest, WholeUnits, Traces;
      var ok := Accrue(i, on);
      if !ok {
        return Invalid;
      }
      var t := tracks[i];
      var owed :- Add(t.balance, t.interest);
      var paid: nat := left;
      if paid >= owed {
        paid := owed;
        t := t.(balance := 0, interest := 0);
      } else {
        if paid > t.balance {
          paid := t.balance;
        }
        paid := WholeUnits(paid, t.loan.contract.rounding.unit);
        t := t.(balance := t.balance - paid);
      }
      if t.balance == 0 && t.interest > 0 {
        var unit := t.loan.contract.rounding.unit;
        if unit > paid {
          unit := paid;
        }
        paid := paid - unit;
        t := t.(balance := unit);
      }
      TraceStays(tracks[i], trails[i], t);
      tracks := tracks[i := t];
      return Ok(paid);
    }

    // ---------- One month ----------

    /** What one loan's bank payment of the month is, if it shows one. */
    method RequiredFor(i: nat, first: bool, on: Date) returns (r: Result<Option<Payment>>)
      requires Valid() && i < |tracks| && tracks[i].balance > 0 && IsSet(on)
      modifies this`tracks, this`trails
      ensures r.Ok? <==> Shown(old(tracks[i]), first, on).Ok?
      ensures r.Ok? ==>
                && Valid() && SameLoans(old(tracks), tracks)
                && tracks == old(tracks)[i := Shown(old(tracks[i]), first, on).value.0]
                && r.value == Shown(old(tracks[i]), first, on).value.1
                && Lengthened(old(trails), trails) && trails == old(trails)[i := trails[i]]
                && (r.value.Some? ==> r.value.value.id == tracks[i].loan.id && r.value.value.extra == 0)
                && (r.value.None? ==> tracks[i].reason != Supported)
      ensures r.Ok? && tracks[i].reason == Supported ==>
                var charges, before := ChargesOf(tracks, trails), ChargesOf(old(tracks), old(trails));
                && charges == before[i := charges[i]]
                && old(tracks[i]).balance + old(tracks[i]).interest + (charges[i] - before[i])
                   == r.value.value.required + tracks[i].balance + tracks[i].interest
      ensures r.Ok? && tracks[i].reason != Supported ==> tracks == old(tracks) && trails == old(trails)
    {
      hide DayNumber, Contract.Interest, Traces, DuePaid, ChargedOver, Piece.Amount;
      var t := tracks[i];
      var p := Payment(t.loan.id, UNSET, 0, 0, t.reason);
      NothingLengthened(trails);
      if t.reason != Supported {
        if (first && (!IsSet(t.known) || YearMonth(t.known) <= YearMonth(on)))
           || (IsSet(t.known) && YearMonth(t.known) == YearMonth(on)) {
          return Ok(Some(p.(required := if t.loan.contract.hasScheduled then t.loan.contract.scheduledPayment else 0, due := t.known)));
        }
        return Ok(None);
      }
      if t.index < |t.dates| && !After(t.dates[t.index], on) {
        var paid :- PayDue(i);
        DuePaidKeepsLoan(t);
        ChargesGrow(old(tracks), old(trails), tracks, trails, i, Piece(t.balance, t.from, t.dates[t.index]));
        p := p.(required := paid, due := t.dates[t.index]);
      }
      return Ok(Some(p));
    }

    /** Bank payments of the month, each on its own date; every live supported loan has its entry, settled by it or not. */
    method RequiredPass(first: bool, on: Date) returns (r: Result<(seq<Payment>, int)>)
      requires Valid() && IsSet(on) && Kept([])
      modifies this`tracks, this`trails
      ensures r.Ok? ==> Valid() && Kept(r.value.0) && SameLoans(old(tracks), tracks) && Lengthened(old(trails), trails)
      ensures r.Ok? ==> r.value.1 == RequiredOf(r.value.0) && ExtraOf(r.value.0) == 0
      ensures r.Ok? ==>
                && AllShown(old(tracks), tracks, |tracks|, first, on, r.value.0)
                && forall j :: 0 <= j < |r.value.0| ==> r.value.0[j].extra == 0
      ensures r.Ok? ==>
                forall i :: 0 <= i < |tracks| && tracks[i].reason == Supported && tracks[i].balance > 0 ==>
                  HasPayment(r.value.0, tracks[i].loan.id)
    {
      hide RequiredOf, ExtraOf, PaidBy, PaidOver, Sound, Balanced, SameLoan, Traces, ChargedOver, Shown, ShownIn, ShowsAs,
        Lengthened, ChargesOf, AllShown;
      NoPayments();
      NothingShown(tracks, first, on);
      SameLoansAsBefore(tracks);
      NothingLengthened(trails);
      var ps: seq<Payment> := [];
      var total := 0;
      for i := 0 to |tracks|
        invariant Valid() && Kept(ps) && SameLoans(old(tracks), tracks) && Lengthened(old(trails), trails)
        invariant total == RequiredOf(ps) && ExtraOf(ps) == 0 && forall j :: 0 <= j < |ps| ==> ps[j].extra == 0
        invariant forall k :: i <= k < |tracks| ==> tracks[k] == old(tracks)[k] && !HasPayment(ps, tracks[k].loan.id)
        invariant forall k :: 0 <= k < i && tracks[k].reason == Supported && tracks[k].balance > 0 ==>
                    HasPayment(ps, tracks[k].loan.id)
        invariant AllShown(old(tracks), tracks, i, first, on, ps)
      {
        if tracks[i].balance > 0 {
          ghost var before, owing, pieces := tracks, ChargesOf(tracks, trails), trails;
          var shown :- RequiredFor(i, first, on);
          LengthenedFurther(old(trails), pieces, trails);
          if shown.Some? {
            total :- Add(total, shown.value.required);
            PaymentAppended(ps, shown.value);
            EntryBalances(before, owing, tracks, ChargesOf(tracks, trails), months, ps, i, shown.value);
            EntryShows(ps, shown.value);
            OneMoreShown(old(tracks), before, tracks, i, first, on, ps, [shown.value]);
            ps := ps + [shown.value];
          } else {
            OneMoreShown(old(tracks), before, tracks, i, first, on, ps, []);
            assert ps + [] == ps;
          }
          SameLoansFollow(old(tracks), before, tracks);
        } else {
          OneMoreShown(old(tracks), tracks, tracks, i, first, on, ps, []);
          assert ps + [] == ps;
        }
      }
      return Ok((ps, total));
    }

    /** Spends the requested extra at month-end, loan by loan in priority order. */
    method ExtraPass(on: Date, requested: nat, ps: seq<Payment>) returns (r: Result<(seq<Payment>, nat)>)
      requires Valid() && IsSet(on) && Kept(ps) && ExtraOf(ps) == 0 && forall j :: 0 <= j < |ps| ==> ps[j].extra == 0
      requires forall i :: 0 <= i < |tracks| && tracks[i].reason == Supported && tracks[i].balance > 0 ==>
                 HasPayment(ps, tracks[i].loan.id)
      modifies this`tracks, this`trails
      ensures r.Ok? ==> Valid() && Kept(r.value.0) && SameLoans(old(tracks), tracks) && Lengthened(old(trails), trails)
      ensures r.Ok? ==> ExtraOf(r.value.0) + r.value.1 == requested && RequiredOf(r.value.0) == RequiredOf(ps)
      ensures r.Ok? ==> RaisedBy(ps, r.value.0) && Distributed(old(tracks), tracks, on, requested, r.value.1, r.value.0)
    {
      hide RequiredOf, ExtraOf, PaidBy, PaidOver, Sound, Balanced, SameLoan, Traces, ChargedOver, Lengthened, ChargesOf,
        ExtraTaken, ExtraFits, Piece.Amount, ExtraFor, DealtOut;
      SameLoansAsBefore(tracks);
      NothingLengthened(trails);
      var out, left := ps, requested;
      ghost var lefts: seq<nat> := [requested];
      NothingDealt(tracks, on, requested, ps);
      for i := 0 to |tracks|
        invariant Valid() && Kept(out) && SameLoans(old(tracks), tracks) && Lengthened(old(trails), trails)
        invariant ExtraOf(out) + left == requested && RequiredOf(out) == RequiredOf(ps)
        invariant forall k :: i <= k < |tracks| ==> tracks[k] == old(tracks)[k]
        invariant RaisedBy(ps, out) && |lefts| == i + 1 && lefts[0] == requested && lefts[i] == left
        invariant DealtOut(old(tracks), tracks, i, on, lefts, out)
        invariant forall k :: i <= k < |tracks| ==> ExtraFor(out, tracks[k].loan.id) == 0
      {
        var t := tracks[i];
        ghost var dealt, offered, shown := tracks, left, out;
        if t.balance > 0 && t.reason == Supported && !t.loan.optionalExcluded && left > 0 {
          ghost var before, owing, pieces := tracks, ChargesOf(tracks, trails), trails;
          var paid :- PayExtra(i, on, left);
          left := left - paid;
          var j := FindPayment(out, ps, t.loan.id);
          ExtraAdded(out, j, paid);
          ChargesGrow(before, pieces, tracks, trails, i, Piece(t.balance, t.from, on));
          LengthenedFurther(old(trails), pieces, trails);
          ExtraBalances(before, owing, tracks, ChargesOf(tracks, trails), months, out, i, j, paid);
          out := out[j := out[j].(extra := out[j].extra + paid)];
          ExtraKeepsLoan(before, tracks, i);
          SameLoansFollow(old(tracks), before, tracks);
        }
        DealtOneMore(old(tracks), dealt, tracks, i, on, lefts, left, shown, out);
        lefts := lefts + [left];
      }
      return Ok((out, left));
    }

    /** Some loan still has something to come: a supported debt, or a known obligation in a later month. */
    predicate Alive(on: Date)
      reads this
    {
      exists i :: 0 <= i < |tracks| && tracks[i].balance > 0
        && (tracks[i].reason == Supported || (IsSet(tracks[i].known) && After(tracks[i].known, on)))
    }

    /**
     One month: bank payments on their dates, then the extra at month-end. All of it is accounted
     for, interest is charged without gap or overlap, and none is left on a balance of nothing.
     */
    method RunMonth(first: bool, on: Date, requested: nat) returns (r: Result<bool>)
      requires Valid() && IsSet(on) && Kept([])
      modifies this
      ensures r.Ok? ==>
                && Valid() && Kept([]) && SameLoans(old(tracks), tracks) && Lengthened(old(trails), trails)
                && |months| == |old(months)| + 1 && months[..|old(months)|] == old(months) && Adds(months[|old(months)|])
                && months[|old(months)|].requested == requested && months[|old(months)|].month == YearMonth(on)
                && (r.value <==> Alive(on))
      ensures r.Ok? ==> MonthFollows(old(tracks), tracks, first, on, months[|old(months)|])
      ensures r.Ok? ==>
                forall i :: 0 <= i < |tracks| && tracks[i].reason == Supported && tracks[i].balance == 0 ==> tracks[i].interest == 0
    {
      hide RequiredOf, ExtraOf, PaidBy, PaidOver, Balanced, SameLoan, Traces, ChargedOver, Lengthened, ShownIn, ShowsAs,
        ChargesOf, AllShown, Distributed, RaisedBy;
      var bank :- RequiredPass(first, on);
      ghost var afterBank, pieces := tracks, trails;
      var extra :- ExtraPass(on, requested, bank.0);
      SameLoansFollow(old(tracks), afterBank, tracks);
      LengthenedFurther(old(trails), pieces, trails);
      var total :- Add(bank.1, requested - extra.1);
      var m := Month(YearMonth(on), bank.1, requested - extra.1, requested, extra.1, total, extra.0);
      MonthBalances(tracks, ChargesOf(tracks, trails), months, m);
      months := months + [m];
      return Ok(Alive(on));
    }

    /** Months from a start until no loan has anything to come; the month that happened in, if the horizon was not met first. */
    method RunMonths(start: int, extra: int, overrides: map<int, int>) returns (r: Result<Option<int>>)
      requires Valid() && Kept([]) && months == [] && start >= 12 && ExtraValid(extra, overrides)
      modifies this
      ensures r.Ok? ==>
                && Valid() && Kept([]) && SameLoans(old(tracks), tracks) && |months| <= MAX_MONTHS
                && AllAdd(months, start, extra, overrides) && StopsRight(this, months)
      ensures r.Ok? ==> Runs(old(tracks), tracks, months)
      ensures r.Ok? && r.value.Some? ==>
                months != [] && r.value.value == months[|months| - 1].month && !Alive(EndOfMonth(r.value.value))
      ensures r.Ok? && r.value.None? ==> |tracks| == 0 || |months| == MAX_MONTHS
    {
      hide Adds, SameLoan, SameLoans, Balanced, ExtraValid, Kept, Valid, Lengthened, AllAdd, Clamp, Alive, MonthFollows, Runs;
      NothingRun(tracks);
      SameLoansAsBefore(tracks);
      NothingAdds(start, extra, overrides);
      SameLength(tracks, tracks);
      ghost var sorted := tracks;
      var n := 0;
      while n < MAX_MONTHS && |tracks| > 0
        invariant Valid() && Kept([]) && n == |months| <= MAX_MONTHS && SameLoans(sorted, tracks)
        invariant AllAdd(months, start, extra, overrides) && Runs(sorted, tracks, months)
        decreases MAX_MONTHS - n
      {
        var on := Clamp(start + n, 31);
        var requested := if start + n in overrides then overrides[start + n] else extra;
        ghost var before, past := tracks, months;
        RequestIsNatural(extra, overrides, start + n);
        var alive :- RunMonth(n == 0, on, requested);
        SameLoansFollow(sorted, before, tracks);
        AddsOneMore(past, months, start, extra, overrides);
        RunsOneMore(sorted, before, tracks, past, months);
        n := n + 1;
        if !alive {
          return Ok(Some(start + n - 1));
        }
      }
      return Ok(None);
    }
  }

  /** A month's parts add up, and the extra is what was requested less what no loan could take. */
  predicate Adds(m: Month) {
    && m.required == RequiredOf(m.payments) && m.extra == ExtraOf(m.payments)
    && m.extra + m.unallocated == m.requested && m.total == m.required + m.extra
  }

  /** Payments with nothing but extra added to them. */
  predicate RaisedBy(ps: seq<Payment>, out: seq<Payment>) {
    |out| == |ps| && forall j :: 0 <= j < |ps| ==> out[j] == ps[j].(extra := out[j].extra)
  }

  /** One month from one standing of the loans to the next: every bank payment on its date, then the extra in turn. */
  ghost predicate MonthFollows(a: seq<Track>, b: seq<Track>, first: bool, on: Date, m: Month) {
    exists mid: seq<Track>, ps: seq<Payment> ::
      && AllShown(a, mid, |a|, first, on, ps) && RaisedBy(ps, m.payments)
      && m.requested >= 0 && Distributed(mid, b, on, m.requested, m.unallocated, m.payments)
  }

  /** Standings of the loans that follow from one another month by month. */
  ghost predicate Path(path: seq<seq<Track>>, months: seq<Month>) {
    |path| == |months| + 1
    && forall k :: 0 <= k < |months| ==> MonthFollows(path[k], path[k + 1], k == 0, EndOfMonth(months[k].month), months[k])
  }

  /** The months lead from one standing of the loans to another. */
  ghost predicate Runs(a: seq<Track>, b: seq<Track>, months: seq<Month>) {
    exists path: seq<seq<Track>> :: Path(path, months) && path[0] == a && path[|months|] == b
  }

  // ---------- Facts about a month ----------

  lemma NothingRun(a: seq<Track>)
    ensures Runs(a, a, [])
  {
    assert Path([a], []);
  }

  lemma RunsOneMore(a: seq<Track>, b: seq<Track>, c: seq<Track>, past: seq<Month>, months: seq<Month>)
    requires Runs(a, b, past) && |months| == |past| + 1 && months[..|past|] == past
    requires MonthFollows(b, c, past == [], EndOfMonth(months[|past|].month), months[|past|])
    ensures Runs(a, c, months)
  {
    hide MonthFollows, EndOfMonth;
    var path :| Path(path, past) && path[0] == a && path[|past|] == b;
    var longer := path + [c];
    forall k | 0 <= k < |months|
      ensures MonthFollows(longer[k], longer[k + 1], k == 0, EndOfMonth(months[k].month), months[k])
    {
      if k < |past| {
        assert months[k] == months[..|past|][k];
      }
    }
    assert Path(longer, months);
  }

  lemma NothingDealt(a: seq<Track>, on: Date, requested: nat, ps: seq<Payment>)
    requires forall j :: 0 <= j < |ps| ==> ps[j].extra == 0
    ensures DealtOut(a, a, 0, on, [requested], ps) && RaisedBy(ps, ps)
    ensures forall k :: 0 <= k < |a| ==> ExtraFor(ps, a[k].loan.id) == 0
  {
    NoExtras(ps);
  }

  /** One loan's turn changes that loan and the extra shown for it alone. */
  lemma DealtOneMore(a: seq<Track>, b: seq<Track>, c: seq<Track>, i: nat, on: Date, lefts: seq<nat>, left: nat, ps: seq<Payment>,
                     ps': seq<Payment>)
    requires DealtOut(a, b, i, on, lefts, ps) && i < |a| && |c| == |b| && c == b[i := c[i]]
    requires forall j, k :: 0 <= j < k < |a| ==> a[j].loan.id != a[k].loan.id
    requires Dealt(a[i], c[i], on, lefts[i], left, ps')
    requires forall id :: id != a[i].loan.id ==> ExtraFor(ps', id) == ExtraFor(ps, id)
    ensures DealtOut(a, c, i + 1, on, lefts + [left], ps')
  {
    hide ExtraTaken, OwedOn, ExtraFor;
    var longer := lefts + [left];
    forall k | 0 <= k < i + 1
      ensures Dealt(a[k], c[k], on, longer[k], longer[k + 1], ps')
    {
      if k < i {
        assert Dealt(a[k], b[k], on, lefts[k], lefts[k + 1], ps);
        assert a[k].loan.id != a[i].loan.id;
      }
    }
  }

  lemma NoPayments()
    ensures RequiredOf([]) == 0 && ExtraOf([]) == 0
  {
  }

  lemma SameLoansAsBefore(a: seq<Track>)
    ensures SameLoans(a, a)
  {
  }

  lemma SameLoansFollow(a: seq<Track>, b: seq<Track>, c: seq<Track>)
    requires SameLoans(a, b) && SameLoans(b, c)
    ensures SameLoans(a, c)
  {
    forall i | 0 <= i < |a| ensures SameLoan(a[i], c[i]) {
      assert SameLoan(a[i], b[i]) && SameLoan(b[i], c[i]);
    }
  }

  lemma ExtraKeepsLoan(a: seq<Track>, b: seq<Track>, i: nat)
    requires |a| == |b| && i < |a| && b == a[i := b[i]] && a[i].balance > 0
    requires b[i].loan == a[i].loan && b[i].reason == a[i].reason && b[i].known == a[i].known
    ensures SameLoans(a, b)
  {
  }

  /** No trail loses a piece. */
  predicate Lengthened(a: seq<seq<Piece>>, b: seq<seq<Piece>>) {
    |a| == |b| && forall i :: 0 <= i < |a| ==> a[i] <= b[i]
  }

  lemma NothingLengthened(a: seq<seq<Piece>>)
    ensures Lengthened(a, a)
  {
  }

  lemma LengthenedFurther(a: seq<seq<Piece>>, b: seq<seq<Piece>>, c: seq<seq<Piece>>)
    requires Lengthened(a, b) && |b| == |c| && (Lengthened(b, c) || exists i, x :: 0 <= i < |b| && c == b[i := b[i] + [x]])
    ensures Lengthened(a, c)
  {
  }

  lemma DuePaidKeepsLoan(t: Track)
    requires IsSet(t.from) && t.index < |t.dates| && IsSet(t.dates[t.index]) && DuePaid(t).Ok?
    ensures var t' := DuePaid(t).value.0; t'.loan == t.loan && t'.reason == t.reason && t'.known == t.known
  {
  }

  /** One more piece on one trail charges that loan its amount and no other loan anything. */
  lemma ChargesGrow(a: seq<Track>, from: seq<seq<Piece>>, b: seq<Track>, to: seq<seq<Piece>>, i: nat, x: Piece)
    requires |a| == |from| == |b| == |to| && i < |a| && b == a[i := b[i]] && b[i].loan == a[i].loan && to == from[i := from[i] + [x]]
    ensures var before, after := ChargesOf(a, from), ChargesOf(b, to);
            after == before[i := after[i]] && after[i] == before[i] + x.Amount(a[i].loan.contract)
  {
    hide ChargedOver, Piece.Amount;
    ChargeAppended(a[i].loan.contract, from[i], x);
  }

  /** A live loan shows what it has to, and is left as that says; one with nothing owed is left alone. */
  predicate ShownIn(t: Track, t': Track, first: bool, on: Date, ps: seq<Payment>) {
    if t.balance == 0 then t' == t
    else
      && IsSet(t.from) && t.index <= |t.dates| && (forall k :: 0 <= k < |t.dates| ==> IsSet(t.dates[k]))
      && Shown(t, first, on).Ok? && t' == Shown(t, first, on).value.0
      && (Shown(t, first, on).value.1.Some? ==> Shown(t, first, on).value.1.value in ps)
  }

  predicate ShowsAs(t: Track, first: bool, on: Date, p: Payment) {
    && t.balance > 0 && IsSet(t.from) && t.index <= |t.dates| && (forall k :: 0 <= k < |t.dates| ==> IsSet(t.dates[k]))
    && Shown(t, first, on).Ok? && Shown(t, first, on).value.1 == Some(p)
  }

  /** The first loans show what they have to, and nothing else is shown. */
  ghost predicate AllShown(a: seq<Track>, b: seq<Track>, n: nat, first: bool, on: Date, ps: seq<Payment>) {
    && n <= |a| == |b|
    && (forall k :: 0 <= k < n ==> ShownIn(a[k], b[k], first, on, ps))
    && (forall p :: p in ps ==> exists k :: 0 <= k < n && ShowsAs(a[k], first, on, p))
  }

  lemma NothingShown(a: seq<Track>, first: bool, on: Date)
    ensures AllShown(a, a, 0, first, on, [])
  {
  }

  lemma OneMoreShown(a: seq<Track>, b: seq<Track>, c: seq<Track>, i: nat, first: bool, on: Date, ps: seq<Payment>, more: seq<Payment>)
    requires AllShown(a, b, i, first, on, ps) && i < |a| && b[i] == a[i] && |c| == |b| && c == b[i := c[i]]
    requires if a[i].balance == 0 then c[i] == a[i] && more == []
             else Sound(a[i]) && Shown(a[i], first, on).Ok? && c[i] == Shown(a[i], first, on).value.0
                  && more == match Shown(a[i], first, on).value.1 case None => [] case Some(p) => [p]
    ensures AllShown(a, c, i + 1, first, on, ps + more)
  {
    hide Shown;
    forall k | 0 <= k < i + 1
      ensures ShownIn(a[k], c[k], first, on, ps + more)
    {
      if k < i {
        assert ShownIn(a[k], b[k], first, on, ps);
      }
    }
    forall p | p in ps + more
      ensures exists k :: 0 <= k < i + 1 && ShowsAs(a[k], first, on, p)
    {
      if p in ps {
        var k :| 0 <= k < i && ShowsAs(a[k], first, on, p);
      } else {
        assert ShowsAs(a[i], first, on, p);
      }
    }
  }

  lemma EntryShows(ps: seq<Payment>, p: Payment)
    ensures HasPayment(ps + [p], p.id)
    ensures forall id :: HasPayment(ps, id) ==> HasPayment(ps + [p], id)
    ensures forall id :: id != p.id && !HasPayment(ps, id) ==> !HasPayment(ps + [p], id)
  {
    assert (ps + [p])[|ps|] == p;
    forall id | HasPayment(ps, id)
      ensures HasPayment(ps + [p], id)
    {
      var j :| 0 <= j < |ps| && ps[j].id == id;
      assert (ps + [p])[j] == ps[j];
    }
  }

  /** A bank payment entered for one loan balances that loan and touches no other. */
  lemma EntryBalances(a: seq<Track>, owed: seq<int>, b: seq<Track>, owed': seq<int>, months: seq<Month>, ps: seq<Payment>, i: nat,
                      p: Payment)
    requires |a| == |b| == |owed| == |owed'| && i < |a| && b == a[i := b[i]] && owed' == owed[i := owed'[i]]
    requires forall j, k :: 0 <= j < k < |a| ==> a[j].loan.id != a[k].loan.id
    requires SameLoan(a[i], b[i]) && p.id == b[i].loan.id && p.extra == 0
    requires b[i].reason == Supported ==>
               a[i].balance + a[i].interest + (owed'[i] - owed[i]) == p.required + b[i].balance + b[i].interest
    requires forall k :: 0 <= k < |a| ==> Balanced(a[k], owed[k], months, ps)
    ensures forall k :: 0 <= k < |b| ==> Balanced(b[k], owed'[k], months, ps + [p])
  {
    hide PaidBy, PaidOver;
    PaymentAppended(ps, p);
    forall k | 0 <= k < |b|
      ensures Balanced(b[k], owed'[k], months, ps + [p])
    {
      assert Balanced(a[k], owed[k], months, ps);
      if k != i {
        assert b[k] == a[k] && owed'[k] == owed[k] && a[k].loan.id != a[i].loan.id;
      }
    }
  }

  lemma ExtraBalances(a: seq<Track>, owed: seq<int>, b: seq<Track>, owed': seq<int>, months: seq<Month>, ps: seq<Payment>, i: nat,
                      j: nat, paid: int)
    requires |a| == |b| == |owed| == |owed'| && i < |a| && b == a[i := b[i]] && owed' == owed[i := owed'[i]]
    requires forall j, k :: 0 <= j < k < |a| ==> a[j].loan.id != a[k].loan.id
    requires b[i].loan == a[i].loan && b[i].reason == a[i].reason && j < |ps| && ps[j].id == a[i].loan.id
    requires a[i].balance + a[i].interest + (owed'[i] - owed[i]) == paid + b[i].balance + b[i].interest
    requires forall k :: 0 <= k < |a| ==> Balanced(a[k], owed[k], months, ps)
    ensures forall k :: 0 <= k < |b| ==> Balanced(b[k], owed'[k], months, ps[j := ps[j].(extra := ps[j].extra + paid)])
  {
    hide PaidBy, PaidOver;
    ExtraAdded(ps, j, paid);
    forall k | 0 <= k < |b|
      ensures Balanced(b[k], owed'[k], months, ps[j := ps[j].(extra := ps[j].extra + paid)])
    {
      assert Balanced(a[k], owed[k], months, ps);
      if k != i {
        assert b[k] == a[k] && owed'[k] == owed[k] && a[k].loan.id != a[i].loan.id;
      }
    }
  }

  /** Closing the month moves its payments into the months past. */
  lemma MonthBalances(a: seq<Track>, owed: seq<int>, months: seq<Month>, m: Month)
    requires |a| == |owed| && forall k :: 0 <= k < |a| ==> Balanced(a[k], owed[k], months, m.payments)
    ensures forall k :: 0 <= k < |a| ==> Balanced(a[k], owed[k], months + [m], [])
  {
    forall k | 0 <= k < |a|
      ensures Balanced(a[k], owed[k], months + [m], [])
    {
      assert Balanced(a[k], owed[k], months, m.payments);
      MonthAppended(months, m, a[k].loan.id);
    }
  }

  /** The payment of a loan in a list that keeps the ids of another. */
  method FindPayment(out: seq<Payment>, ghost ps: seq<Payment>, id: string) returns (j: nat)
    requires |out| == |ps| && (forall k :: 0 <= k < |ps| ==> out[k].id == ps[k].id) && HasPayment(ps, id)
    ensures j < |out| && out[j].id == id
  {
    ghost var at :| 0 <= at < |ps| && ps[at].id == id;
    j := 0;
    while out[j].id != id
      invariant j <= at
      decreases at - j
    {
      j := j + 1;
    }
  }

  // ---------- Setting up ----------

  predicate ExtraValid(extra: int, overrides: map<int, int>) {
    0 <= extra <= MAX_MINOR && |overrides| <= MAX_MONTHS && forall k :: k in overrides ==> 0 <= overrides[k] <= MAX_MINOR
  }

  predicate LoanValid(l: Loan, today: Date) {
    && l.id != "" && 0 <= l.balance <= MAX_MINOR && IsSet(l.asOf) && !After(l.asOf, today)
    && 0 <= l.interest <= MAX_MINOR && (l.interest > 0 ==> l.interestKnown && l.balance > 0)
  }

  /** Terms the projection can compute with. */
  predicate TermsSupported(l: Loan) {
    var c := l.contract;
    && l.contractValid && c.rounding.unit >= 1 && c.hasScheduled && c.kind == Annuity
    && c.prepayment.effect != ReduceInstalment && c.prepayment.feeBP == 0 && c.prepayment.charges == [] && c.prepayment.minAmount == 0
    && (c.dayCount == Money.Actual365 || c.dayCount == Money.Actual360)
  }

  function KnownDue(l: Loan): Date {
    if !IsSet(l.contract.notBeforeDue) && l.reason == Supported then
      match Amortisation.DatesAhead(l.contract, l.asOf)
      case Ok(dates) => dates[0]
      case Err(_) => UNSET
    else l.contract.notBeforeDue
  }

  /** Whether the first bank payment the schedule implies is the one the bank asks for. */
  function FirstPaymentFits(t: Track): Result<bool>
    requires IsSet(t.from) && t.dates != [] && IsSet(t.dates[0])
  {
    var first :- Accrued(t, t.dates[0]);
    var owed :- Add(first.balance, first.interest);
    var required := t.loan.contract.scheduledPayment;
    Ok(!(required > owed || required <= first.interest || (|t.dates| == 1 && required != owed)))
  }

  /** Takes one loan up, finding the first reason it cannot be projected in full. */
  function TakeUp(l: Loan, today: Date): (r: Result<Track>)
    requires LoanValid(l, today) && l.balance > 0
    ensures r.Ok? ==>
              && Sound(r.value) && r.value.loan == l && r.value.balance == l.balance
              && r.value.balance + r.value.interest == OpeningDebt(l) && r.value.from == l.asOf
  {
    hide Amortisation.PaymentDates, Amortisation.Remaining, DayNumber;
    var known := KnownDue(l);
    var t := Track(l, l.reason, l.balance, if l.interestKnown then l.interest else 0, l.asOf, [], 0, known);
    var missing := l.reason == Supported && l.contract.rate > 0 && !l.interestKnown && l.asOf != l.contract.start;
    if IsSet(known) && Before(known, today) then Ok(t.(reason := OverduePayment))
    else if missing then Ok(t.(reason := AccruedInterestNeeded))
    else if l.reason != Supported then Ok(t)
    else if !TermsSupported(l) then Ok(t.(reason := UnsupportedTerms))
    else
      match Amortisation.DatesAhead(l.contract, l.asOf)
      case Err(_) => Ok(t.(reason := BankPaymentNeeded))
      case Ok(dates) =>
        DatesAheadAreSet(l.contract, l.asOf);
        if !IsSet(known) || dates[0] != known then Ok(t.(reason := BankPaymentNeeded, dates := dates))
        else
          var fits :- FirstPaymentFits(t.(dates := dates));
          Ok(if fits then t.(dates := dates) else t.(dates := dates, reason := BankPaymentMismatch))
  }

  /**
   A loan projected in full starts as the bank asks: its next due date is known, not overdue, the
   bank's own where it names one, and the first payment there is the scheduled one, met in full.
   */
  lemma SupportedLoansStartAsTheBankAsks(l: Loan, today: Date, t: Track)
    requires LoanValid(l, today) && l.balance > 0 && TakeUp(l, today) == Ok(t) && t.reason == Supported
    ensures l.reason == Supported && TermsSupported(l) && IsSet(t.from) && t.dates != [] && t.index == 0
    ensures l.contract.rate == 0 || l.interestKnown || l.asOf == l.contract.start
    ensures IsSet(t.dates[0]) && t.known == t.dates[0] && !Before(t.dates[0], today) && After(t.dates[0], l.asOf)
    ensures IsSet(l.contract.notBeforeDue) ==> t.dates[0] == l.contract.notBeforeDue
    ensures DuePaid(t).Ok? && DuePaid(t).value.1 == l.contract.scheduledPayment
  {
    hide Amortisation.DatesAhead, DayNumber, Contract.Interest, DaysBetween;
    DatesAheadAreSet(l.contract, l.asOf);
    Amortisation.DatesAheadAreAhead(l.contract, l.asOf);
  }

  /** A loan is shown as overdue exactly when its known due date lies before today. */
  lemma OverdueExactlyWhen(l: Loan, today: Date, t: Track)
    requires LoanValid(l, today) && l.balance > 0 && l.reason != OverduePayment && TakeUp(l, today) == Ok(t)
    ensures t.reason == OverduePayment <==> IsSet(t.known) && Before(t.known, today)
    ensures IsSet(l.contract.notBeforeDue) ==> t.known == l.contract.notBeforeDue
  {
    hide Amortisation.DatesAhead, DayNumber, FirstPaymentFits, TermsSupported;
  }

  /** The bank's figure for accrued interest is asked for exactly where interest runs from an unknown amount. */
  lemma InterestIsAskedForExactlyWhen(l: Loan, today: Date, t: Track)
    requires LoanValid(l, today) && l.balance > 0 && l.reason == Supported && TakeUp(l, today) == Ok(t)
    ensures t.reason == AccruedInterestNeeded <==>
              && (IsSet(t.known) ==> !Before(t.known, today))
              && l.contract.rate > 0 && !l.interestKnown && l.asOf != l.contract.start
  {
    hide Amortisation.DatesAhead, DayNumber, FirstPaymentFits, TermsSupported;
  }

  lemma DatesAheadAreSet(c: Contract, from: Date)
    requires Amortisation.DatesAhead(c, from).Ok?
    ensures forall k :: 0 <= k < |Amortisation.DatesAhead(c, from).value| ==> IsSet(Amortisation.DatesAhead(c, from).value[k])
  {
    hide Amortisation.DatesAhead, DayNumber;
    Amortisation.DatesAheadAreAhead(c, from);
    AheadAreSet(Amortisation.Anchor(c, from), Amortisation.DatesAhead(c, from).value);
  }

  lemma {:induction false} AheadAreSet(prev: Date, dates: seq<Date>)
    requires Amortisation.Ahead(prev, dates)
    ensures forall k :: 0 <= k < |dates| ==> IsSet(dates[k])
    decreases |dates|
  {
    if dates != [] {
      AheadAreSet(dates[0], dates[1..]);
    }
  }

  /** The recommendation: highest rate first, then smallest balance, then id. */
  predicate PaidFirst(a: Track, b: Track) {
    if a.loan.contract.rate != b.loan.contract.rate then a.loan.contract.rate > b.loan.contract.rate
    else if a.loan.balance != b.loan.balance then a.loan.balance < b.loan.balance
    else Sorting.StrLess(a.loan.id, b.loan.id)
  }

  function Priority(): (Track, Track) -> bool {
    (a: Track, b: Track) => PaidFirst(a, b)
  }

  /** The order loans are paid in: a dearer one first, of equally dear ones the smaller, then by id. */
  lemma SortedByPriority(ts: seq<Track>)
    requires DistinctIds(Sorting.Sort(ts, Priority()))
    ensures InPriority(Sorting.Sort(ts, Priority()))
  {
    hide Sorting.Sort, Sorting.StrLess;
    PriorityIsAnOrder();
    Sorting.SortOrders(ts, Priority());
    var sorted := Sorting.Sort(ts, Priority());
    forall i, j | 0 <= i < j < |sorted| ensures StandsFirst(sorted[i].loan, sorted[j].loan) {
      assert !Priority()(sorted[j], sorted[i]);
      Sorting.StrLessIsTotal(sorted[i].loan.id, sorted[j].loan.id);
    }
  }

  lemma PriorityIsAnOrder()
    ensures Sorting.StrictOrder(Priority())
  {
    hide Sorting.StrLess;
    forall a: Track, b: Track, c: Track
      ensures !PaidFirst(a, a)
      ensures PaidFirst(a, b) && PaidFirst(b, c) ==> PaidFirst(a, c)
      ensures PaidFirst(a, c) ==> PaidFirst(a, b) || PaidFirst(b, c)
    {
      var x, y, z := a.loan.id, b.loan.id, c.loan.id;
      Sorting.StrLessIsTotal(x, x);
      Sorting.StrLessIsTotal(x, y);
      Sorting.StrLessIsTotal(y, z);
      Sorting.StrLessIsTotal(x, z);
      if Sorting.StrLess(x, y) && Sorting.StrLess(y, z) {
        Sorting.StrLessIsTransitive(x, y, z);
      }
      if Sorting.StrLess(z, y) && Sorting.StrLess(y, x) {
        Sorting.StrLessIsTransitive(z, y, x);
      }
    }
  }

  lemma SameLoansSamePriority(a: seq<Track>, b: seq<Track>)
    requires SameLoans(a, b) && InPriority(a)
    ensures InPriority(b)
  {
    forall i, j | 0 <= i < j < |b| ensures StandsFirst(b[i].loan, b[j].loan) {
      assert SameLoan(a[i], b[i]) && SameLoan(a[j], b[j]) && StandsFirst(a[i].loan, a[j].loan);
    }
  }

  lemma SortKeepsTracks(ts: seq<Track>)
    requires (forall i :: 0 <= i < |ts| ==> Starts(ts[i])) && DistinctIds(ts)
    ensures (forall i :: 0 <= i < |ts| ==> Starts(Sorting.Sort(ts, Priority())[i])) && DistinctIds(Sorting.Sort(ts, Priority()))
    ensures multiset(Sorting.Sort(ts, Priority())) == multiset(ts)
  {
    hide Starts, PaidFirst;
    var sorted := Sorting.Sort(ts, Priority());
    Sorting.SortKeeps(ts, Priority());
    forall i | 0 <= i < |sorted|
      ensures Starts(sorted[i])
    {
      assert sorted[i] in multiset(sorted);
      assert sorted[i] in ts;
    }
    forall i, j | 0 <= i < j < |sorted|
      ensures sorted[i].loan.id != sorted[j].loan.id
    {
      DistinctAfterSort(ts, sorted, i, j);
    }
  }

  lemma DistinctAfterSort(ts: seq<Track>, sorted: seq<Track>, i: nat, j: nat)
    requires multiset(ts) == multiset(sorted) && DistinctIds(ts) && i < j < |sorted|
    ensures sorted[i].loan.id != sorted[j].loan.id
  {
    assert sorted[i] in multiset(ts) && sorted[j] in multiset(ts) by {
      assert sorted[i] in multiset(sorted) && sorted[j] in multiset(sorted);
    }
    if sorted[i] == sorted[j] {
      Sorting.TwiceIn(sorted, i, j);
      var a, b := Sorting.TwoPlaces(ts, sorted[i]);
    } else {
      var a :| 0 <= a < |ts| && ts[a] == sorted[i];
      var b :| 0 <= b < |ts| && ts[b] == sorted[j];
      assert a < b || b < a;
    }
  }

  /** A track as it is taken up. */
  predicate Starts(t: Track) {
    && Sound(t) && t.balance > 0 && t.balance + t.interest == OpeningDebt(t.loan)
    && t.balance == t.loan.balance && t.from == t.loan.asOf
  }

  predicate DistinctIds(ts: seq<Track>) {
    forall i, j :: 0 <= i < j < |ts| ==> ts[i].loan.id != ts[j].loan.id
  }

  predicate Tracked(ts: seq<Track>, l: Loan) {
    exists i :: 0 <= i < |ts| && ts[i].loan == l
  }

  /** Exactly the loans that owe something are tracked. */
  predicate TracksAll(ts: seq<Track>, loans: seq<Loan>) {
    && (forall i :: 0 <= i < |ts| ==> ts[i].loan in loans && ts[i].loan.balance > 0)
    && (forall k :: 0 <= k < |loans| && loans[k].balance > 0 ==> Tracked(ts, loans[k]))
  }

  lemma TrackOneMore(ts: seq<Track>, loans: seq<Loan>, k: nat, t: Track)
    requires k < |loans| && TracksAll(ts, loans[..k]) && t.loan == loans[k] && t.loan.balance > 0
    ensures TracksAll(ts + [t], loans[..k + 1])
  {
    assert loans[..k + 1][..k] == loans[..k] && (ts + [t])[|ts|] == t;
    forall j | 0 <= j < k + 1 && loans[..k + 1][j].balance > 0
      ensures Tracked(ts + [t], loans[j])
    {
      if j < k {
        assert Tracked(ts, loans[..k][j]);
        var i :| 0 <= i < |ts| && ts[i].loan == loans[j];
        assert (ts + [t])[i].loan == loans[j];
      }
    }
    forall i | 0 <= i < |ts + [t]|
      ensures (ts + [t])[i].loan in loans[..k + 1]
    {
      if i < |ts| {
        assert ts[i].loan in loans[..k];
      } else {
        assert loans[..k + 1][k] == t.loan;
      }
    }
  }

  lemma TrackNoMore(ts: seq<Track>, loans: seq<Loan>, k: nat)
    requires k < |loans| && TracksAll(ts, loans[..k]) && loans[k].balance <= 0
    ensures TracksAll(ts, loans[..k + 1])
  {
    assert loans[..k + 1] == loans[..k] + [loans[k]];
    forall i | 0 <= i < |ts|
      ensures ts[i].loan in loans[..k + 1]
    {
      assert ts[i].loan in loans[..k];
    }
    forall j | 0 <= j < k + 1 && loans[..k + 1][j].balance > 0
      ensures Tracked(ts, loans[j])
    {
      assert Tracked(ts, loans[..k][j]);
    }
  }

  lemma SortedTracksAll(ts: seq<Track>, sorted: seq<Track>, loans: seq<Loan>)
    requires multiset(ts) == multiset(sorted) && TracksAll(ts, loans)
    ensures TracksAll(sorted, loans)
  {
    forall i | 0 <= i < |sorted|
      ensures sorted[i].loan in loans && sorted[i].loan.balance > 0
    {
      assert sorted[i] in multiset(sorted);
      assert sorted[i] in multiset(ts);
    }
    forall k | 0 <= k < |loans| && loans[k].balance > 0
      ensures Tracked(sorted, loans[k])
    {
      var i :| 0 <= i < |ts| && ts[i].loan == loans[k];
      assert ts[i] in multiset(ts);
      assert ts[i] in multiset(sorted);
      var j :| 0 <= j < |sorted| && sorted[j] == ts[i];
    }
  }

  lemma SameTracksAll(a: seq<Track>, b: seq<Track>, loans: seq<Loan>)
    requires SameLoans(a, b) && TracksAll(a, loans)
    ensures TracksAll(b, loans)
  {
    forall i | 0 <= i < |b|
      ensures b[i].loan == a[i].loan
    {
      assert SameLoan(a[i], b[i]);
    }
    forall k | 0 <= k < |loans| && loans[k].balance > 0
      ensures Tracked(b, loans[k])
    {
      var i :| 0 <= i < |a| && a[i].loan == loans[k];
      assert b[i].loan == loans[k];
    }
  }

  predicate Repeats(loans: seq<Loan>, id: string) {
    exists k :: 0 <= k < |loans| && loans[k].id == id
  }

  predicate Ids(loans: seq<Loan>, seen: set<string>) {
    && (forall k :: 0 <= k < |loans| ==> loans[k].id in seen)
    && (forall id :: id in seen ==> Repeats(loans, id))
  }

  lemma OneMoreId(loans: seq<Loan>, k: nat, seen: set<string>)
    requires k < |loans| && Ids(loans[..k], seen)
    ensures Ids(loans[..k + 1], seen + {loans[k].id}) && (loans[k].id in seen <==> Repeats(loans[..k], loans[k].id))
  {
    var more := loans[..k + 1];
    assert more[k] == loans[k] && forall j :: 0 <= j < k ==> more[j] == loans[..k][j];
    forall id | id in seen + {loans[k].id}
      ensures Repeats(more, id)
    {
      if id in seen {
        var j :| 0 <= j < k && loans[..k][j].id == id;
        assert more[j].id == id;
      }
    }
  }

  /** Every loan that owes something, taken up in order; invalid when one is, or repeats an id. */
  function TakenUp(loans: seq<Loan>, today: Date): Result<seq<Track>> {
    if loans == [] then Ok([])
    else
      var n, l := |loans| - 1, loans[|loans| - 1];
      var before :- TakenUp(loans[..n], today);
      if !LoanValid(l, today) || Repeats(loans[..n], l.id) then Invalid
      else if l.balance == 0 then Ok(before)
      else
        BalanceIsNatural(l, today);
        var t :- TakeUp(l, today);
        Ok(before + [t])
  }

  /** The first reason a loan cannot be projected in full. */
  function FirstGap(ts: seq<Track>): (gap: Option<Reason>)
    ensures gap.None? <==> forall i :: 0 <= i < |ts| ==> ts[i].reason == Supported
  {
    if ts == [] then None
    else
      var before := FirstGap(ts[..|ts| - 1]);
      if before.Some? then before
      else if ts[|ts| - 1].reason != Supported then Some(ts[|ts| - 1].reason)
      else None
  }

  lemma {:induction false} InvalidStays(loans: seq<Loan>, k: nat, today: Date)
    requires k <= |loans| && TakenUp(loans[..k], today).Invalid?
    ensures TakenUp(loans, today).Invalid?
    decreases |loans| - k
  {
    hide TakeUp, LoanValid;
    if k == |loans| {
      assert loans[..k] == loans;
    } else {
      assert loans[..k + 1][..k] == loans[..k];
      InvalidStays(loans, k + 1, today);
    }
  }

  /** Every loan taken up, and the first reason one cannot be projected in full. */
  method TakeUpAll(today: Date, loans: seq<Loan>) returns (r: Result<(seq<Track>, Option<Reason>)>)
    requires IsSet(today)
    ensures r.Ok? <==> TakenUp(loans, today).Ok?
    ensures r.Ok? ==>
              var (ts, gap) := r.value;
              && ts == TakenUp(loans, today).value && gap == FirstGap(ts)
              && (forall i :: 0 <= i < |ts| ==> Starts(ts[i])) && DistinctIds(ts) && TracksAll(ts, loans)
  {
    hide Starts, TakeUp, TracksAll, LoanValid, Ids, Repeats, TakenUp, FirstGap, DistinctIds;
    var ts: seq<Track>, gap: Option<Reason>, seen: set<string> := [], None, {};
    NothingTracked(loans);
    NoneTaken(today);
    for k := 0 to |loans|
      invariant TakenUp(loans[..k], today) == Ok(ts) && gap == FirstGap(ts)
      invariant (forall i :: 0 <= i < |ts| ==> Starts(ts[i])) && DistinctIds(ts) && TracksAll(ts, loans[..k])
      invariant (forall i :: 0 <= i < |ts| ==> ts[i].loan.id in seen) && Ids(loans[..k], seen)
    {
      var l := loans[k];
      TakenOneMore(loans, k, today);
      OneMoreId(loans, k, seen);
      if !LoanValid(l, today) || l.id in seen {
        InvalidStays(loans, k + 1, today);
        return Invalid;
      }
      BalanceIsNatural(l, today);
      if l.balance == 0 {
        TrackNoMore(ts, loans, k);
      } else {
        var taken := TakeUp(l, today);
        if taken.Invalid? {
          InvalidStays(loans, k + 1, today);
          return Invalid;
        }
        var t := taken.value;
        TakenUpStarts(l, today);
        GapOneMore(ts, t);
        if t.reason != Supported && gap.None? {
          gap := Some(t.reason);
        }
        DistinctOneMore(ts, t);
        TrackOneMore(ts, loans, k, t);
        ts := ts + [t];
      }
      seen := seen + {l.id};
    }
    assert loans[..|loans|] == loans;
    return Ok((ts, gap));
  }

  lemma NoneTaken(today: Date)
    ensures TakenUp([], today) == Ok([]) && FirstGap([]) == None && DistinctIds([]) && Ids([], {})
  {
  }

  lemma TakenOneMore(loans: seq<Loan>, k: nat, today: Date)
    requires k < |loans| && TakenUp(loans[..k], today).Ok?
    ensures LoanValid(loans[k], today) ==> loans[k].balance >= 0
    ensures TakenUp(loans[..k + 1], today)
            == if !LoanValid(loans[k], today) || Repeats(loans[..k], loans[k].id) then Invalid
               else if loans[k].balance == 0 then TakenUp(loans[..k], today)
               else match TakeUp(loans[k], today)
                    case Invalid => Invalid
                    case Ok(t) => Ok(TakenUp(loans[..k], today).value + [t])
  {
    hide TakeUp, Repeats;
    assert loans[..k + 1][..k] == loans[..k];
  }

  lemma GapOneMore(ts: seq<Track>, t: Track)
    ensures FirstGap(ts + [t]) == if FirstGap(ts).Some? then FirstGap(ts) else if t.reason != Supported then Some(t.reason) else None
  {
    assert (ts + [t])[..|ts|] == ts;
  }

  lemma DistinctOneMore(ts: seq<Track>, t: Track)
    requires DistinctIds(ts) && forall i :: 0 <= i < |ts| ==> ts[i].loan.id != t.loan.id
    ensures DistinctIds(ts + [t])
  {
  }

  lemma BalanceIsNatural(l: Loan, today: Date)
    requires LoanValid(l, today)
    ensures l.balance >= 0
  {
  }

  lemma TakenUpStarts(l: Loan, today: Date)
    requires LoanValid(l, today) && l.balance > 0 && TakeUp(l, today).Ok?
    ensures Starts(TakeUp(l, today).value) && TakeUp(l, today).value.loan == l
  {
    hide TakeUp;
  }

  lemma NothingTracked(loans: seq<Loan>)
    ensures TracksAll([], loans[..0])
  {
  }

  /** This month, unless every loan's next due is known to lie in a later one; then the earliest of those. */
  predicate StartsIn(ts: seq<Track>, today: Date, start: int) {
    if ts != [] && forall i :: 0 <= i < |ts| ==> IsSet(ts[i].known) && YearMonth(ts[i].known) > YearMonth(today) then
      && (exists i :: 0 <= i < |ts| && YearMonth(ts[i].known) == start)
      && forall i :: 0 <= i < |ts| ==> start <= YearMonth(ts[i].known)
    else start == YearMonth(today)
  }

  /** The month the projection starts in: this one, or the first known due month when every due is known and later. */
  method StartMonth(today: Date, ts: seq<Track>) returns (start: int)
    ensures StartsIn(ts, today, start)
  {
    var earliest: Option<int> := None;
    for i := 0 to |ts|
      invariant earliest.Some? <==> i > 0
      invariant forall j :: 0 <= j < i ==>
                  earliest.value <= (if IsSet(ts[j].known) && YearMonth(ts[j].known) > YearMonth(today) then YearMonth(ts[j].known)
                                     else YearMonth(today))
      invariant earliest.Some? && earliest.value > YearMonth(today) ==>
                  exists j :: 0 <= j < i && IsSet(ts[j].known) && YearMonth(ts[j].known) == earliest.value
      invariant earliest.Some? && earliest.value <= YearMonth(today) ==>
                  exists j :: 0 <= j < i && (!IsSet(ts[j].known) || YearMonth(ts[j].known) <= YearMonth(today))
    {
      if !IsSet(ts[i].known) {
        earliest := Some(YearMonth(today));
      } else if earliest.None? || YearMonth(ts[i].known) < earliest.value {
        earliest := Some(YearMonth(ts[i].known));
      }
    }
    return if earliest.Some? && earliest.value > YearMonth(today) then earliest.value else YearMonth(today);
  }

  function EndOfMonth(month: int): Date {
    if month < 12 then UNSET else Clamp(month, 31)
  }

  /** The months stop at the horizon, or after the first one that leaves no loan with anything to come; none is shown only without loans. */
  ghost predicate StopsRight(p: Projector, months: seq<Month>)
    reads p
  {
    || |p.tracks| == 0 || |months| == MAX_MONTHS
    || (months != [] && !p.Alive(EndOfMonth(months[|months| - 1].month)))
  }

  /**
   The projection: every month adds up; each supported loan's opening debt, and interest charged
   without gap or overlap from its anchor, is paid or still owed to the last unit; the months run
   until nothing more is to come; and a finish month is only claimed once everything is settled.
   */
  method Build(today: Date, loans: seq<Loan>, extra: int, overrides: map<int, int>) returns (r: Result<Projected>, p: Projector?)
    ensures r.Ok? ==> p != null && p.Valid() && p.Kept([]) && p.months == r.value.months && StopsRight(p, r.value.months)
    ensures r.Ok? ==> TracksAll(p.tracks, loans) && TakenUp(loans, today).Ok?
    ensures r.Ok? ==>
              exists ts: seq<Track> ::
                && multiset(ts) == multiset(TakenUp(loans, today).value) && InPriority(ts) && InPriority(p.tracks)
                && Runs(ts, p.tracks, r.value.months)
    ensures r.Ok? ==> |r.value.months| <= MAX_MONTHS
                      && exists start ::
                           && StartsIn(TakenUp(loans, today).value, today, start)
                           && AllAdd(r.value.months, start, extra, overrides)
    ensures r.Ok? ==>
              var gap := FirstGap(TakenUp(loans, today).value);
              && (r.value.complete <==> gap.None? && (|p.tracks| == 0 || r.value.finish.Some?))
              && r.value.reason == if gap.None? && !r.value.complete then Some(Given("projection_horizon")) else gap
    ensures r.Ok? && r.value.finish.Some? ==>
              && r.value.complete && r.value.months != [] && r.value.finish.value == r.value.months[|r.value.months| - 1].month
              && forall i :: 0 <= i < |p.tracks| ==>
                   p.tracks[i].reason == Supported && p.tracks[i].balance == 0 && p.tracks[i].interest == 0
  {
    hide Adds, SameLoan, SameLoans, TracksAll, Starts, Sound, DistinctIds, Balanced, ExtraValid, Projector.Kept, Projector.Valid,
      TakenUp, FirstGap, AllAdd, Clamp, EndOfMonth, StopsRight, Projector.Alive, Runs, InPriority;
    if !IsSet(today) || |loans| > MAX_LOANS || !ExtraValid(extra, overrides) {
      return Invalid, null;
    }
    var taken := TakeUpAll(today, loans);
    if taken.Invalid? {
      return Invalid, null;
    }
    var (ts, gap) := taken.value;
    var start := StartMonth(today, ts);
    SortKeepsTracks(ts);
    var sorted := Sorting.Sort(ts, Priority());
    SortedByPriority(ts);
    SortedTracksAll(ts, sorted, loans);
    p := new Projector(sorted);
    var ended := p.RunMonths(start, extra, overrides);
    if ended.Invalid? {
      return Invalid, p;
    }
    SameTracksAll(sorted, p.tracks, loans);
    SameLoansSamePriority(sorted, p.tracks);
    SameLength(sorted, p.tracks);
    var finish := if gap.None? then ended.value else None;
    if finish.Some? {
      AllSettled(ts, sorted, p, EndOfMonth(finish.value));
    }
    var stopped := gap.None? && |sorted| > 0 && finish.None?;
    r := Ok(Projected(p.months, gap.None? && !stopped,
                      if stopped then Some(Given("projection_horizon")) else gap, finish));
  }

  lemma SameLength(a: seq<Track>, b: seq<Track>)
    requires SameLoans(a, b)
    ensures |a| == |b|
  {
  }

  /** Consecutive months from a start, each adding up and asking for its own override or the default extra. */
  predicate AllAdd(months: seq<Month>, start: int, extra: int, overrides: map<int, int>) {
    forall k :: 0 <= k < |months| ==>
      && Adds(months[k]) && months[k].month == start + k
      && months[k].requested == if start + k in overrides then overrides[start + k] else extra
  }

  lemma NothingAdds(start: int, extra: int, overrides: map<int, int>)
    ensures AllAdd([], start, extra, overrides)
  {
  }

  lemma AddsOneMore(past: seq<Month>, months: seq<Month>, start: int, extra: int, overrides: map<int, int>)
    requires AllAdd(past, start, extra, overrides) && |months| == |past| + 1 && months[..|past|] == past
    requires Adds(months[|past|]) && months[|past|].month == start + |past|
    requires months[|past|].requested == if start + |past| in overrides then overrides[start + |past|] else extra
    ensures AllAdd(months, start, extra, overrides)
  {
    hide Adds;
    forall k | 0 <= k < |past| ensures months[k] == past[k] {
      assert months[..|past|][k] == months[k];
    }
  }

  lemma RequestIsNatural(extra: int, overrides: map<int, int>, month: int)
    requires ExtraValid(extra, overrides)
    ensures (if month in overrides then overrides[month] else extra) >= 0
  {
  }

  lemma SupportedStay(ts: seq<Track>, sorted: seq<Track>, now: seq<Track>)
    requires (forall i :: 0 <= i < |ts| ==> ts[i].reason == Supported) && multiset(ts) == multiset(sorted) && SameLoans(sorted, now)
    ensures forall i :: 0 <= i < |now| ==> now[i].reason == Supported
  {
    forall i | 0 <= i < |now|
      ensures now[i].reason == Supported
    {
      assert SameLoan(sorted[i], now[i]) && sorted[i] in multiset(sorted);
      assert sorted[i] in multiset(ts);
    }
  }

  /** Once no loan is alive, and all are supported, nothing is owed. */
  lemma AllSettled(ts: seq<Track>, sorted: seq<Track>, p: Projector, on: Date)
    requires (forall i :: 0 <= i < |ts| ==> ts[i].reason == Supported) && multiset(ts) == multiset(sorted)
    requires SameLoans(sorted, p.tracks) && p.Valid() && !p.Alive(on)
    ensures forall i :: 0 <= i < |p.tracks| ==>
              p.tracks[i].reason == Supported && p.tracks[i].balance == 0 && p.tracks[i].interest == 0
  {
    hide Traces;
    SupportedStay(ts, sorted, p.tracks);
  }
}
