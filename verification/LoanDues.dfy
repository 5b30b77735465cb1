/**
 What one loan's payments come to, as values: quotes taken up, money held for a due date, the
 due itself and what follows it. The simulator's methods are proved against these functions.
 */
module LoanDues {
  import opened Dates
  import opened Contracts
  import opened Portfolio
  import opened SimState
  import opened Fees
  import Amortisation
  import Money
  import Paydown
  import ProjectionMemo

  lemma ClosedBalance(p: Position, l: LoanState)
    requires LoanOk(p, l) && p.balance > 0
    ensures l.balance >= 0 && (l.balance > 0 ==> IsSet(l.from)) && (l.closed ==> l.balance == 0 && l.accrued == 0)
  {
  }

  /** The free prepayment allowance a loan has used in the contract year of a date. */
  function AllowanceUsed(p: Position, l: LoanState, on: Date): int {
    var year := ContractYear(p.contract, on);
    if year in l.allowance then l.allowance[year] else 0
  }

  lemma OpenLoanIsLive(p: Position, l: LoanState)
    requires LoanOk(p, l) && !l.closed
    ensures p.balance > 0 && l.balance >= 0 && IsSet(l.from) && IsSet(l.due)
  {
  }

  lemma OpenBalanceIsNatural(p: Position, l: LoanState)
    requires LoanOk(p, l) && !l.closed
    ensures l.balance >= 0 && IsSet(l.from) && IsSet(l.due)
  {
  }

  /** A quote a loan can take: it adds up, fits the allowance, and closes only with everything owed. */
  predicate Payable(q: Quote, l: LoanState, available: nat) {
    && q.outflow == q.principal + q.interest + q.fee && q.outflow <= available
    && q.principal <= l.balance
    && (if q.closes then q.principal == l.balance && q.interest == l.accrued
        else q.interest == 0 && (q.principal == 0 ==> q.outflow == 0))
  }

  /** Two states of a loan that hold back the same money. */
  predicate SameClaims(l: LoanState, l': LoanState) {
    && l'.closed == l.closed && l'.due == l.due && l'.required == l.required && l'.pending == l.pending
  }

  /** A loan whose due date is today, or was until an earlier payment today closed it or moved it on. */
  ghost predicate Reached(p: Position, l: LoanState, on: Date) {
    && p.balance > 0 && Amortisation.PaymentDates(p.contract).Ok? && !After(on, LastDate(p.contract))
    && (!l.closed ==> !After(l.from, on) && !After(on, l.due))
  }

  // ---------- What one loan's payments come to ----------

  /** A loan after paying up to an amount today, and what that takes; none when the lender's quote fails. */
  function PaidUpTo(p: Position, l: LoanState, on: Date, want: nat): (r: Option<(LoanState, nat)>)
    requires l.balance >= 0 && IsSet(l.from) && IsSet(on)
    ensures r.Some? ==> r.value.1 <= want
  {
    hide Fees.QuoteFor, Prepaid, AllowanceUsed, Accrued;
    var l' := Accrued(p, l, on);
    AccrualKeepsBalance(p, l, on);
    var used := AllowanceUsed(p, l', on);
    QuoteStaysWithinAllowance(p.contract, on, l'.balance, l'.accrued, used, want);
    match QuoteFor(p.contract, on, l'.balance, l'.accrued, used, want)
    case Err(_) => None
    case Ok(q) =>
      if q.outflow == 0 then Some((l', 0))
      else Some((Prepaid(l', on, ContractYear(p.contract, on), q.principal, q.closes), q.outflow))
  }

  lemma AccrualKeepsBalance(p: Position, l: LoanState, on: Date)
    requires IsSet(l.from) && IsSet(on)
    ensures Accrued(p, l, on).balance == l.balance && Accrued(p, l, on).timing == l.timing
  {
  }

  /** A loan that holds its share of a surplus for its due date; none when the lender's quote fails. */
  function PromiseOf(p: Position, l: LoanState, on: Date, surplus: nat): (r: Option<LoanState>)
    requires l.balance >= 0 && IsSet(l.from) && IsSet(on)
    ensures r.Some? ==> r.value.balance == l.balance && IsSet(r.value.from) && r.value.closed == l.closed
  {
    var l' := Accrued(p, l, on);
    AccrualKeepsBalance(p, l, on);
    match QuoteFor(p.contract, on, l'.balance, l'.accrued, AllowanceUsed(p, l', on), surplus)
    case Err(_) => None
    case Ok(q) => Some(if q.outflow == 0 then l' else l'.(pending := l'.pending + q.outflow))
  }

  /** One loan paid on its due dates from one constant budget: nothing else brings, routes or withholds money. */
  predicate OneLoan(in_: Input, p: Policy) {
    && |in_.loans| == 1 && !in_.Separate() && in_.cash.payDay == 0 && in_.cash.monthlyOverrides == map[]
    && in_.cash.reserveFloor == 0 && in_.cash.lumps == [] && !IsSet(in_.cash.cashThrough)
    && p.order == [0] && p.timing == [OnDue] && !p.requiredOnly && p.minPrepay == 0 && p.rollover == RollFreed
    && !in_.loans[0].optionalExcluded
  }

  /** A loan with a fresh obligation; none when its schedule cannot be projected. */
  function RefreshOf(p: Position, l: LoanState): Option<LoanState>
    requires IsSet(l.from)
  {
    match ProjectionMemo.NextFor(p.contract, TermsOf(l))
    case Err(_) => None
    case Ok(o) => if o.payment >= 0 && o.instalment >= 0 then Some(Refreshed(l, o)) else None
  }

  /** A loan once its held money is paid and its obligation is fresh, and what that takes of the cash. */
  function RestOf(p: Position, l: LoanState, on: Date, cash: int): Option<(LoanState, nat)>
    requires l.balance >= 0 && IsSet(l.from) && IsSet(on)
  {
    if l.pending == 0 then
      match RefreshOf(p, l) case None => None case Some(l') => Some((l', 0))
    else if cash <= 0 then Some((l.(pending := 0), 0))
    else
      match PaidUpTo(p, l.(pending := 0), on, if l.pending > cash then cash else l.pending)
      case None => None
      case Some(paid) =>
        if paid.0.closed then Some(paid)
        else if !IsSet(paid.0.from) then None
        else match RefreshOf(p, paid.0) case None => None case Some(l') => Some((l', paid.1))
  }

  /** A loan after its due payment and what follows it, and the cash left; none when a projection or a quote fails. */
  function SettledOf(p: Position, l: LoanState, on: Date, cash: int): Option<(LoanState, int)>
    requires l.balance >= 0 && (l.balance > 0 ==> IsSet(l.from)) && IsSet(on)
  {
    var booked := BookedTo(p, l, on);
    BookingKeepsBalance(p, l, on);
    var required := RequiredToday(p.contract, booked, on);
    var paid := Paid(booked, required, on);
    if paid.closed then Some((paid, cash - required))
    else if paid.balance < 0 || !IsSet(paid.from) then None
    else
      match RestOf(p, paid, on, cash - required)
      case None => None
      case Some(rest) => Some((rest.0, cash - required - rest.1))
  }

  lemma BookingKeepsBalance(p: Position, l: LoanState, on: Date)
    requires IsSet(on) && (l.balance > 0 ==> IsSet(l.from))
    ensures BookedTo(p, l, on).balance == l.balance
  {
  }

  /** How one due date of a plain run ends. */
  datatype DueAlone = Stuck | Short(shortfall: int) | Left(loan: LoanState, cash: int)

  /** The surplus of some money beyond what the loan holds back this month, held for its due date. */
  function Arrived(p: Position, l: LoanState, on: Date, money: int): (r: Option<LoanState>)
    requires l.balance >= 0 && IsSet(l.from) && IsSet(on)
    ensures r.Some? ==> r.value.balance == l.balance && IsSet(r.value.from)
  {
    var surplus := money - Hold(l, UNSET, YearMonth(on));
    if surplus <= 0 then Some(l) else PromiseOf(p, l, on, surplus)
  }

  /** The budget arrives, the surplus is held for the date, the due is paid, and what was held follows it. */
  function DueOf(p: Position, l: LoanState, on: Date, cash: int, budget: int): DueAlone
    requires l.balance >= 0 && IsSet(l.from) && IsSet(on)
  {
    match Arrived(p, l, on, cash + budget)
    case None => Stuck
    case Some(held) =>
      BookingKeepsBalance(p, held, on);
      var required := RequiredToday(p.contract, BookedTo(p, held, on), on);
      if cash + budget < required then Short(required - cash - budget)
      else match SettledOf(p, held, on, cash + budget) case None => Stuck case Some(done) => Left(done.0, done.1)
  }

  /** What a due date asks for: the obligation, all that is owed on the last contractual date, never more than is owed. */
  function RequiredToday(c: Contract, l: LoanState, on: Date): (r: nat)
    requires l.balance >= 0
    ensures r <= l.balance + l.accrued
  {
    var owed := l.balance + l.accrued;
    if Amortisation.DatesAhead(c, on).Err? || l.required > owed then owed else l.required
  }

  /** A loan after its due payment today, and after what followed it. */
  ghost predicate Rested(l: LoanState, l': LoanState, on: Date) {
    l'.closed ||
    (&& l'.pending == 0 && !After(l'.from, on)
     && (l'.from == l.from || l'.from == on) && (l'.from == on || l'.balance == l.balance)
     && (l'.from == on ==> After(l'.due, on) || (l'.from == l.from && l.pending > 0)))
  }

  /** A due payment that leaves a debt is not the last one, and was booked up to today unless no balance was left. */
  lemma PaymentLeavesDates(p: Position, l: LoanState, on: Date)
    requires LoanOk(p, l) && Reached(p, l, on) && IsSet(on) && l.balance >= 0 && (l.balance > 0 ==> IsSet(l.from))
    requires !Paid(BookedTo(p, l, on), RequiredToday(p.contract, BookedTo(p, l, on), on), on).closed
    ensures Amortisation.DatesAhead(p.contract, on).Ok?
    ensures var l' := Paid(BookedTo(p, l, on), RequiredToday(p.contract, BookedTo(p, l, on), on), on);
            && l'.balance > 0 && l'.pending == l.pending && l'.due == l.due && !After(l'.from, on)
            && (if l.balance > 0 then l'.from == on else l'.from == l.from && l.accrued > l.required)
  {
    hide LastDate, DayNumber, Contract.Interest, Amortisation.DatesAhead;
    CompareIsDayOrder(on, l.from);
  }

  /** Settling moves a loan on, or leaves a second due today with less left to do. */
  lemma RestedMakesProgress(p: Position, l: LoanState, paid: LoanState, l': LoanState, on: Date)
    requires LoanOk(p, l) && Reached(p, l, on) && IsSet(on) && l.balance >= 0 && (l.balance > 0 ==> IsSet(l.from))
    requires paid == Paid(BookedTo(p, l, on), RequiredToday(p.contract, BookedTo(p, l, on), on), on) && !paid.closed
    requires Rested(paid, l', on) && LoanOk(p, l') && Drifts(l, l', DayNumber(on))
    ensures !l'.closed ==> l'.pending == 0 && !After(l'.from, on) && Amortisation.DatesAhead(p.contract, on).Ok?
    ensures !l'.closed ==> After(l'.due, on) || Stage(l') < Stage(l)
    ensures !l'.closed && After(l'.due, on) && paid.from == on ==>
              l'.due == Amortisation.DatesAhead(p.contract, on).value[0]
  {
    hide LastDate, DayNumber, Contract.Interest, Amortisation.DatesAhead, BookedTo, Paid, RequiredToday;
    PaymentLeavesDates(p, l, on);
    CompareIsDayOrder(on, l.due);
    CompareIsDayOrder(l.due, l'.due);
    CompareIsDayOrder(on, l.from);
    CompareIsDayOrder(l'.from, on);
  }

  /** What an income may do to a loan on its due date leaves that date reached. */
  lemma StillReached(p: Position, l: LoanState, l': LoanState, on: Date)
    requires LoanOk(p, l) && !l.closed && l.due == on && IsSet(on) && Moves(l, l', DayNumber(on)) && LoanOk(p, l')
    ensures Reached(p, l', on)
  {
    hide DayNumber, LastDate, Amortisation.DatesAhead;
    if !l'.closed {
      CompareIsDayOrder(l'.from, on);
      CompareIsDayOrder(l'.due, on);
    }
  }

  /** A loan that moved on, or has less left to do, still does after another step of the same day. */
  lemma DriftKeepsProgress(l: LoanState, l': LoanState, l'': LoanState, on: Date)
    requires IsSet(on) && l.due == on && (l'.closed || After(l'.due, on) || Stage(l') < Stage(l))
    requires Drifts(l', l'', DayNumber(on)) && (!l'.closed ==> !Before(l'.due, on))
    ensures l''.closed || After(l''.due, on) || Stage(l'') < Stage(l)
  {
    hide DayNumber, Stage;
    CompareIsDayOrder(l'.due, on);
    CompareIsDayOrder(l''.due, on);
  }

  /** Two states of a loan that differ only in the obligation they name. */
  predicate SameTerms(l: LoanState, l': LoanState) {
    && l'.closed == l.closed && l'.balance == l.balance && l'.accrued == l.accrued && l'.from == l.from
    && l'.pending == l.pending
  }

  /** Interest is booked up to the day on whatever balance there is. */
  predicate Booked(l: LoanState, on: Date) {
    l.balance > 0 ==> !Before(l.from, on)
  }

  // ---------- A zero-interest loan on one budget ----------

  /** A whole number of settlement units. */
  predicate Whole(a: int, unit: int) {
    unit >= 1 && a % unit == 0
  }

  /** Terms under which nothing is rounded: no interest, fees or thresholds, and a stated instalment in whole units. */
  predicate PlainTerms(c: Contract) {
    && c.rate == 0 && c.kind == Annuity && c.rounding.unit >= 1
    && c.hasScheduled && c.scheduledPayment > 0 && Whole(c.scheduledPayment, c.rounding.unit)
    && c.prepayment.feeBP == 0 && c.prepayment.charges == [] && c.prepayment.minAmount == 0
  }

  /** An open loan between two due dates of a plain run. */
  ghost predicate PlainLoan(p: Position, l: LoanState) {
    var c := p.contract;
    && PlainTerms(c) && !l.closed && l.balance > 0 && Whole(l.balance, c.rounding.unit) && l.accrued == 0 && l.pending == 0
    && IsSet(l.from) && IsSet(l.due) && YearMonth(l.due) > 12
    && Amortisation.DatesAhead(c, l.from).Ok? && l.due == Amortisation.DatesAhead(c, l.from).value[0]
    && l.carried == c.scheduledPayment && l.effect == ShortenTerm && l.timing == OnDue
    && l.required <= c.scheduledPayment && Whole(l.required, c.rounding.unit)
    && (l.required < c.scheduledPayment ==> l.balance <= l.required)
  }

  lemma NoInterest(c: Contract, balance: nat, days: nat)
    requires c.rate == 0
    ensures c.Interest(balance, days) == 0
  {
  }

  lemma WholeUnitsStay(a: nat, unit: int)
    requires unit >= 1 && Whole(a, unit)
    ensures Money.Quantise(a, Money.Policy(Money.Down, unit)) == a
  {
    var q := Money.Quantise(a, Money.Policy(Money.Down, unit));
    if unit > 1 {
      UnitsSubtract(a, q, unit);
      assert (a - q) % unit == a - q;
    }
  }

  /** Without fees or thresholds a quote is the pay-off when it is affordable, else the whole amount asked about. */
  lemma PlainQuote(c: Contract, on: Date, balance: nat, used: int, available: nat)
    requires PlainTerms(c) && Whole(available, c.rounding.unit) && balance > 0
    ensures QuoteFor(c, on, balance, 0, used, available)
            == Fees.Ok(if available >= balance then Quote(balance, 0, 0, balance, true)
                       else if available == 0 then Fees.NOTHING
                       else Quote(available, 0, 0, available, false))
  {
    WholeUnitsStay(available, c.rounding.unit);
  }

  lemma UnitsSubtract(a: int, b: int, unit: int)
    requires unit >= 1 && Whole(a, unit) && Whole(b, unit)
    ensures Whole(a - b, unit)
  {
    Money.MultiplesSubtract(a, b, unit);
  }

  /** The loan's interest is booked up to its due date: none. */
  lemma PlainAccrual(p: Position, l: LoanState, on: Date)
    requires PlainLoan(p, l) && IsSet(on) && on == l.due
    ensures Accrued(p, l, on) == l.(from := on)
  {
    hide DayNumber, Contract.Interest, Amortisation.DatesAhead;
    NextDateIsInCalendar(p.contract, l.from);
    CompareIsDayOrder(l.from, on);
    NoInterest(p.contract, l.balance, DaysBetween(l.from, on));
  }

  /** What the budget leaves beyond the due is held for the due date. */
  lemma PlainPromise(p: Position, l: LoanState, on: Date, surplus: nat)
    requires PlainLoan(p, l) && IsSet(on) && on == l.due && surplus > 0 && Whole(surplus, p.contract.rounding.unit)
    ensures PromiseOf(p, l, on, surplus) == Some(l.(from := on, pending := if surplus >= l.balance then l.balance else surplus))
  {
    hide Whole, DayNumber, Amortisation.DatesAhead, QuoteFor, AllowanceUsed, Accrued;
    PlainAccrual(p, l, on);
    PlainQuote(p.contract, on, l.balance, AllowanceUsed(p, l.(from := on), on), surplus);
  }

  /** What was held is paid beside the due: the balance falls by all of it, or to nothing. */
  lemma PlainPayment(p: Position, l: LoanState, on: Date, want: nat)
    requires PlainTerms(p.contract) && IsSet(on) && l.from == on && l.accrued == 0 && l.balance > 0 && !l.closed
    requires want > 0 && Whole(want, p.contract.rounding.unit)
    ensures PaidUpTo(p, l, on, want).Some?
    ensures var paid := PaidUpTo(p, l, on, want).value;
            if want >= l.balance then paid.0.closed && paid.1 == l.balance
            else paid.1 == want && paid.0 == l.(balance := l.balance - want, allowance := paid.0.allowance)
  {
    hide Whole, DayNumber, QuoteFor, AllowanceUsed, ContractYear;
    CompareIsDayOrder(on, on);
    PlainQuote(p.contract, on, l.balance, AllowanceUsed(p, l, on), want);
  }

  /** The next obligation is the stated instalment on the next date. */
  lemma PlainRefresh(p: Position, l: LoanState)
    requires PlainTerms(p.contract) && IsSet(l.from) && l.effect == ShortenTerm && l.carried == p.contract.scheduledPayment
    requires Amortisation.DatesAhead(p.contract, l.from).Ok?
    ensures RefreshOf(p, l)
            == Some(l.(due := Amortisation.DatesAhead(p.contract, l.from).value[0], required := p.contract.scheduledPayment))
  {
    hide Amortisation.Remaining, Amortisation.Next;
  }

  /** The dates ahead of a due date are those that followed it. */
  lemma DatesAfterNext(c: Contract, from: Date)
    requires IsSet(from) && Amortisation.DatesAhead(c, from).Ok?
    ensures var dates := Amortisation.DatesAhead(c, from).value;
            && IsSet(dates[0]) && YearMonth(dates[0]) > 12
            && (if |dates| == 1 then Amortisation.DatesAhead(c, dates[0]).Err?
                else Amortisation.DatesAhead(c, dates[0]) == Amortisation.Ok(dates[1..]) && YearMonth(dates[1]) > YearMonth(dates[0]))
  {
    hide DayNumber, Clamp, Compare, Amortisation.PaymentDates, Amortisation.Remaining, Occurrence;
    NextDateIsInCalendar(c, from);
    Amortisation.DatesAheadAreAhead(c, from);
    var all, dates := Amortisation.PaymentDates(c).value, Amortisation.DatesAhead(c, from).value;
    RemainingAfterFirst(c, all, from);
    if |dates| > 1 {
      Amortisation.PaymentDatesAreTheOccurrences(c);
      var k := |all| - |dates|;
      assert dates[0] == all[k] == Occurrence(c.start, Amortisation.ContractDay(c), k + 1);
      assert dates[1] == all[k + 1] == Occurrence(c.start, Amortisation.ContractDay(c), k + 2);
    }
  }

  lemma {:induction false} RemainingAfterFirst(c: Contract, all: seq<Date>, from: Date)
    requires Amortisation.Remaining(c, all, from) != [] && IsSet(from)
    requires var r := Amortisation.Remaining(c, all, from); Amortisation.Ahead(from, r)
    ensures var r := Amortisation.Remaining(c, all, from); Amortisation.Remaining(c, all, r[0]) == r[1..]
  {
    hide DayNumber;
    if Amortisation.Passed(c, all[0], from) {
      RemainingAfterFirst(c, all[1..], from);
    }
  }

  /** A plain loan on its due date with something held for it. */
  function Holding(l: LoanState, on: Date, held: nat): LoanState {
    l.(from := on, pending := held)
  }

  /** What of the budget is held beside the due. */
  function HeldOf(l: LoanState, budget: nat): nat
    requires l.balance >= 0
  {
    if budget <= l.required then 0 else if budget - l.required >= l.balance then l.balance else budget - l.required
  }

  lemma PlainRequired(p: Position, l: LoanState, held: nat)
    requires PlainLoan(p, l)
    ensures var dates := Amortisation.DatesAhead(p.contract, l.from).value;
            RequiredToday(p.contract, Holding(l, l.due, held), l.due) == Paydown.Asked(l.balance, p.contract.scheduledPayment, |dates| == 1)
  {
    hide Whole, Amortisation.DatesAhead, DayNumber;
    DatesAfterNext(p.contract, l.from);
  }

  lemma PlainFacts(p: Position, l: LoanState)
    requires PlainLoan(p, l)
    ensures PlainTerms(p.contract) && p.contract.rounding.unit >= 1 && p.contract.scheduledPayment > 0
    ensures Whole(p.contract.scheduledPayment, p.contract.rounding.unit) && Whole(l.balance, p.contract.rounding.unit)
    ensures Whole(l.required, p.contract.rounding.unit)
    ensures l.balance > 0 && !l.closed && l.accrued == 0 && l.pending == 0 && l.carried == p.contract.scheduledPayment
    ensures l.effect == ShortenTerm && l.timing == OnDue && IsSet(l.from) && IsSet(l.due)
    ensures l.required <= p.contract.scheduledPayment && (l.required < p.contract.scheduledPayment ==> l.balance <= l.required)
  {
    hide Whole, Amortisation.DatesAhead, DayNumber;
    NextDateIsInCalendar(p.contract, l.from);
  }

  lemma AlreadyBooked(p: Position, l: LoanState, on: Date)
    requires IsSet(on) && l.from == on
    ensures BookedTo(p, l, on) == l
  {
    hide DayNumber;
    CompareIsDayOrder(on, on);
  }

  /** The budget and the held money before the due is paid. */
  lemma PlainArrival(p: Position, l: LoanState, budget: nat)
    requires PlainLoan(p, l) && Whole(budget, p.contract.rounding.unit)
    ensures Arrived(p, l, l.due, budget).Some?
    ensures BookedTo(p, Arrived(p, l, l.due, budget).value, l.due) == Holding(l, l.due, HeldOf(l, budget))
  {
    hide Whole, PlainLoan, DayNumber, PromiseOf, Accrued, PlainTerms;
    PlainFacts(p, l);
    if budget > l.required {
      UnitsSubtract(budget, l.required, p.contract.rounding.unit);
      PlainPromise(p, l, l.due, budget - l.required);
      AlreadyBooked(p, Holding(l, l.due, HeldOf(l, budget)), l.due);
    } else {
      PlainAccrual(p, l, l.due);
    }
  }

  /** What a plain loan pays beyond its due, and the state it is left in. */
  lemma PlainRest(p: Position, l: LoanState, budget: nat)
    requires PlainLoan(p, l) && Whole(budget, p.contract.rounding.unit)
    requires p.contract.scheduledPayment < l.balance && p.contract.scheduledPayment <= budget
    requires |Amortisation.DatesAhead(p.contract, l.from).value| > 1
    ensures var paid := Holding(l, l.due, HeldOf(l, budget)).(balance := l.balance - p.contract.scheduledPayment);
            var rest := RestOf(p, paid, l.due, budget - p.contract.scheduledPayment);
            && IsSet(l.due) && rest.Some?
            && (if budget >= l.balance then rest.value.0.closed
                else PlainNext(p, l, rest.value.0, l.balance - budget) && rest.value.1 == budget - p.contract.scheduledPayment)
  {
    hide Whole, Amortisation.DatesAhead, DayNumber, PaidUpTo, RefreshOf, PlainLoan, PlainTerms, PlainNext;
    PlainFacts(p, l);
    var scheduled, unit := p.contract.scheduledPayment, p.contract.rounding.unit;
    var paid := Holding(l, l.due, HeldOf(l, budget)).(balance := l.balance - scheduled);
    UnitsSubtract(l.balance, scheduled, unit);
    UnitsSubtract(l.balance, budget, unit);
    if budget == scheduled {
      PlainMovesOn(p, l, paid);
    } else {
      var want := if paid.pending > budget - scheduled then budget - scheduled else paid.pending;
      UnitsSubtract(budget, scheduled, unit);
      PlainPayment(p, paid.(pending := 0), l.due, want);
      if budget < l.balance {
        PlainMovesOn(p, l, PaidUpTo(p, paid.(pending := 0), l.due, want).value.0);
      }
    }
  }

  /** A plain loan with part of its debt left names its next date and stays plain. */
  lemma PlainMovesOn(p: Position, l: LoanState, l': LoanState)
    requires PlainLoan(p, l) && |Amortisation.DatesAhead(p.contract, l.from).value| > 1
    requires l'.from == l.due && l'.balance > 0 && Whole(l'.balance, p.contract.rounding.unit) && !l'.closed
    requires l'.accrued == 0 && l'.pending == 0 && l'.carried == l.carried && l'.effect == l.effect && l'.timing == l.timing
    ensures IsSet(l'.from) && RefreshOf(p, l').Some? && PlainNext(p, l, RefreshOf(p, l').value, l'.balance)
  {
    hide Whole, Amortisation.DatesAhead, DayNumber, RefreshOf;
    DatesAfterNext(p.contract, l.from);
    NextDateIsInCalendar(p.contract, l'.from);
    PlainRefresh(p, l');
  }

  /** The plain loan of the next due date. */
  ghost predicate PlainNext(p: Position, l: LoanState, l': LoanState, balance: int) {
    && PlainLoan(p, l') && l'.balance == balance && l'.from == l.due
    && Amortisation.DatesAhead(p.contract, l.from).Ok? && |Amortisation.DatesAhead(p.contract, l.from).value| > 1
    && Amortisation.DatesAhead(p.contract, l.due)
       == Amortisation.Ok(Amortisation.DatesAhead(p.contract, l.from).value[1..])
    && YearMonth(l'.due) > YearMonth(l.due)
  }

  /**
   One due date of a plain run is one step of paying down: the due is met or not as the simple
   form says, a budget that covers the balance closes the loan, and otherwise the balance falls
   by exactly the budget and no cash is left.
   */
  lemma PlainDueIsAPaydownStep(p: Position, l: LoanState, budget: nat)
    requires PlainLoan(p, l) && Whole(budget, p.contract.rounding.unit)
    ensures l.balance >= 0 && IsSet(l.from) && IsSet(l.due)
    ensures var dates := Amortisation.DatesAhead(p.contract, l.from).value;
            var asked := Paydown.Asked(l.balance, p.contract.scheduledPayment, |dates| == 1);
            var r := DueOf(p, l, l.due, 0, budget);
            if budget < asked then r == Short(asked - budget)
            else if budget >= l.balance then r.Left? && r.loan.closed
            else r.Left? && r.cash == 0 && PlainNext(p, l, r.loan, l.balance - budget)
  {
    hide Whole, Amortisation.DatesAhead, DayNumber, PromiseOf, RestOf, BookedTo, Hold, PlainNext;
    var dates := Amortisation.DatesAhead(p.contract, l.from).value;
    var scheduled := p.contract.scheduledPayment;
    var asked := Paydown.Asked(l.balance, scheduled, |dates| == 1);
    PlainArrival(p, l, budget);
    PlainRequired(p, l, HeldOf(l, budget));
    if asked <= budget && asked < l.balance {
      PlainRest(p, l, budget);
    }
  }

  /** The course a plain loan takes over the dates ahead of it. */
  ghost function CourseFrom(p: Position, l: LoanState, budget: nat, horizon: Date): Paydown.Course
    requires PlainLoan(p, l)
  {
    Paydown.Follow(Amortisation.DatesAhead(p.contract, l.from).value, l.balance, budget, p.contract.scheduledPayment, horizon)
  }

  /** A due date of a plain run within the horizon takes one step of the loan's course. */
  lemma CourseStep(p: Position, l: LoanState, budget: nat, horizon: Date)
    requires PlainLoan(p, l) && Whole(budget, p.contract.rounding.unit) && IsSet(l.due) && !After(l.due, horizon)
    requires l.balance >= 0 && IsSet(l.from)
    ensures var course := CourseFrom(p, l, budget, horizon);
            match DueOf(p, l, l.due, 0, budget)
            case Stuck => false
            case Short(_) => course == Paydown.CannotMeet(l.due)
            case Left(l', cash) =>
              if l'.closed then course == Paydown.PaidOff(l.due)
              else PlainLoan(p, l') && l'.timing == OnDue && cash == 0 && YearMonth(l'.due) > YearMonth(l.due)
                   && CourseFrom(p, l', budget, horizon) == course
  {
    hide DayNumber, Whole, DueOf, Amortisation.DatesAhead;
    PlainDueIsAPaydownStep(p, l, budget);
  }

  lemma CourseEndsPastHorizon(p: Position, l: LoanState, budget: nat, horizon: Date)
    requires PlainLoan(p, l) && After(l.due, horizon)
    ensures CourseFrom(p, l, budget, horizon) == Paydown.PastHorizon
  {
  }

  lemma PlainLoanHasDates(p: Position, l: LoanState)
    requires PlainLoan(p, l)
    ensures IsSet(l.from) && Amortisation.DatesAhead(p.contract, l.from).Ok? && l.balance > 0
    ensures l.due == Amortisation.DatesAhead(p.contract, l.from).value[0]
  {
  }

  /** A loan as a run takes it up. */
  function Starting(p: Position, timing: Timing, effect: PrepaymentEffect): LoanState {
    LoanState(effect, timing, p.balance, 0, p.from, 0, UNSET, 0, 0, map[], p.balance <= 0,
              if p.balance <= 0 then p.from else UNSET)
  }

  /** One with nothing owed is closed; any other needs an obligation, and there is none without a projection. */
  function TakenUp(p: Position, timing: Timing, effect: PrepaymentEffect): Option<LoanState>
    requires IsSet(p.from)
  {
    if p.balance <= 0 then Some(Starting(p, timing, effect)) else RefreshOf(p, Starting(p, timing, effect))
  }

  /** The first obligation of a plain loan: the stated instalment, or the balance when that is less. */
  lemma PlainFirstPayment(c: Contract, balance: nat, from: Date)
    requires PlainTerms(c) && IsSet(from) && balance > 0 && Amortisation.Next(c, balance, from).Ok?
    ensures var o := Amortisation.Next(c, balance, from).value;
            && Amortisation.DatesAhead(c, from).Ok? && o.due == Amortisation.DatesAhead(c, from).value[0]
            && o.instalment == c.scheduledPayment
            && o.payment == (if c.scheduledPayment >= balance then balance else c.scheduledPayment)
  {
    hide DayNumber, Amortisation.PaymentDates, Amortisation.Remaining, DaysBetween, Contract.Interest;
    Amortisation.NextIsAhead(c, balance, from);
    var dates := Amortisation.DatesAhead(c, from).value;
    Amortisation.DatesAheadAreAhead(c, from);
    var row := Amortisation.LevelRow(c, balance, from, dates[0], c.scheduledPayment, 1);
    NoInterest(c, balance, DaysBetween(from, dates[0]));
    assert Amortisation.LevelRows(c, balance, from, dates, c.scheduledPayment, 1)[0] == row;
  }

  /** A plain position is taken up as a plain loan. */
  lemma PlainTakenUp(p: Position, effect: PrepaymentEffect)
    requires PlainTerms(p.contract) && IsSet(p.from) && p.balance > 0 && Whole(p.balance, p.contract.rounding.unit)
    requires effect == ShortenTerm && TakenUp(p, OnDue, effect).Some?
    ensures var l := TakenUp(p, OnDue, effect).value;
            PlainLoan(p, l) && l.balance == p.balance && l.from == p.from && YearMonth(l.due) > 12
  {
    hide DayNumber, Amortisation.Next, Amortisation.DatesAhead, Whole;
    PlainFirstPayment(p.contract, p.balance, p.from);
    NextDateIsInCalendar(p.contract, p.from);
  }

  /** The course a plain run takes from its input: none when the loan cannot be projected. */
  function CourseOf(in_: Input, horizon: Date): Option<Paydown.Course>
    requires |in_.loans| == 1 && IsSet(in_.loans[0].from) && in_.cash.monthly >= 0
  {
    var p := in_.loans[0];
    if p.balance <= 0 then Some(Paydown.PaidOff(UNSET))
    else if TakenUp(p, OnDue, ShortenTerm).None? then None
    else
      match Amortisation.DatesAhead(p.contract, p.from)
      case Err(_) => None
      case Ok(dates) => Some(Paydown.Follow(dates, p.balance, in_.cash.monthly, p.contract.scheduledPayment, horizon))
  }

  function EffectFor(policy: Policy): PrepaymentEffect {
    if policy.effect == [] then BorrowerChooses else policy.effect[0]
  }

  /** The domain of the inverse search: one plain loan, anchored today, paid from nothing but a whole budget. */
  predicate InverseDomain(in_: Input, policy: Policy) {
    && OneLoan(in_, policy) && in_.cash.openingCash == 0 && in_.cash.monthly >= 0
    && (var p := in_.loans[0];
        && PlainTerms(p.contract) && ResolvedEffect(p.contract, EffectFor(policy)) == ShortenTerm
        && p.balance >= 0 && Whole(p.balance, p.contract.rounding.unit) && Whole(in_.cash.monthly, p.contract.rounding.unit))
  }

  lemma InverseDomainIsPlain(in_: Input, policy: Policy)
    requires InverseDomain(in_, policy)
    ensures |in_.loans| == 1 && !in_.Separate() && in_.cash.payDay == 0 && !IsSet(in_.cash.cashThrough)
    ensures in_.cash.lumps == [] && in_.cash.openingCash == 0 && in_.cash.monthly >= 0
  {
  }

  // ---------- One due in an income window ----------

  /** The next date of a calendar, asked for on one of its dates, is in a later month. */
  lemma NextDueIsAMonthLater(c: Contract, on: Date)
    requires IsSet(on) && on == OnDayOfMonth(on, Amortisation.ContractDay(c)) && Amortisation.DatesAhead(c, on).Ok?
    ensures var next := Amortisation.DatesAhead(c, on).value[0];
            IsSet(next) && YearMonth(next) > YearMonth(on) && next == Clamp(YearMonth(next), Amortisation.ContractDay(c))
  {
    hide DayNumber, Clamp, Compare, Amortisation.PaymentDates, Amortisation.Remaining;
    NextDateIsInCalendar(c, on);
    Amortisation.DatesAheadAreAhead(c, on);
    Amortisation.PaymentDatesAreTheOccurrences(c);
    var all, dates := Amortisation.PaymentDates(c).value, Amortisation.DatesAhead(c, on).value;
    var k := |all| - |dates|;
    assert dates[0] == all[k] == Occurrence(c.start, Amortisation.ContractDay(c), k + 1);
    if YearMonth(dates[0]) < YearMonth(on) {
      LaterMonthIsAfter(dates[0], on);
    }
  }

  /** Unless the days are such that two dues can share a window, the due after one in a window lies outside it. */
  lemma NextDueLeavesTheWindow(c: Contract, on: Date, income: Date, payDay: int)
    requires 1 <= payDay <= 31 && !(28 <= Amortisation.ContractDay(c) < payDay)
    requires IsSet(on) && on == OnDayOfMonth(on, Amortisation.ContractDay(c)) && Amortisation.DatesAhead(c, on).Ok?
    requires IsSet(income) && income == OnDayOfMonth(income, payDay) && !Before(on, income)
    ensures !Before(Amortisation.DatesAhead(c, on).value[0], OnDayOfMonth(AddMonths(income, 1), payDay))
  {
    hide DayNumber, Clamp, Compare, Amortisation.DatesAhead, Amortisation.ContractDay;
    var day, next := Amortisation.ContractDay(c), Amortisation.DatesAhead(c, on).value[0];
    NextDueIsAMonthLater(c, on);
    OneDuePerWindow(income, payDay, on, day);
    if YearMonth(next) > YearMonth(on) + 1 {
      LaterMonthIsAfter(Occurrence(on, day, 1), next);
    }
  }

  // ---------- Where a due does not move on ----------

  /**
   A settled due that leaves a debt moves its loan past the date if and only if a fresh obligation
   follows from interest booked up to the date. With nothing held for the date that takes a balance
   to book it on, or a loan already booked; with money held it takes cash beyond the due.
   */
  lemma DueMovesOnExactlyWhen(p: Position, l: LoanState, on: Date, cash: int)
    requires LoanOk(p, l) && !l.closed && IsSet(on) && l.due == on
    requires l.balance >= 0 && IsSet(l.from) && BookedTo(p, l, on).balance >= 0
    requires SettledOf(p, l, on, cash).Some? && !SettledOf(p, l, on, cash).value.0.closed
    ensures After(SettledOf(p, l, on, cash).value.0.due, on)
            <==> if l.pending == 0 then l.balance > 0 || l.from == on
                 else cash > RequiredToday(p.contract, BookedTo(p, l, on), on)
  {
    hide LastDate, DayNumber, Contract.Interest, Amortisation.DatesAhead, BookedTo, Paid, RequiredToday, RefreshOf, LoanOk,
      After, Before, PaidUpTo;
    OpenLoanIsLive(p, l);
    BookingKeepsBalance(p, l, on);
    var booked := BookedTo(p, l, on);
    var required := RequiredToday(p.contract, booked, on);
    var paid := Paid(booked, required, on);
    DueIsReached(p, l, on);
    PaymentLeavesDates(p, l, on);
    PaidStaysOk(p, l, on);
    if l.pending == 0 {
      RefreshMovesOnExactlyWhen(p, paid, on);
    } else if cash <= required {
      CompareIsDayOrder(on, on);
    } else {
      HeldPaymentBooks(p, paid, on, if paid.pending > cash - required then cash - required else paid.pending);
      RefreshMovesOnExactlyWhen(p, PaidUpTo(p, paid.(pending := 0), on, if paid.pending > cash - required then cash - required
                                                                        else paid.pending).value.0, on);
    }
  }

  /** Paying held money on a balance books its interest up to the day and keeps the loan consistent. */
  lemma HeldPaymentBooks(p: Position, l: LoanState, on: Date, want: nat)
    requires LoanOk(p, l) && !l.closed && IsSet(on) && l.due == on && l.balance > 0 && IsSet(l.from) && !After(l.from, on)
    requires PaidUpTo(p, l.(pending := 0), on, want).Some? && !PaidUpTo(p, l.(pending := 0), on, want).value.0.closed
    ensures var l' := PaidUpTo(p, l.(pending := 0), on, want).value.0;
            LoanOk(p, l') && l'.due == on && l'.from == on
  {
    hide DayNumber, LastDate, Amortisation.DatesAhead, LoanOk, QuoteFor, AllowanceUsed, ContractYear, Prepaid, Accrued;
    CompareIsDayOrder(on, on);
    CompareIsDayOrder(l.from, on);
    var freed := l.(pending := 0);
    PendingKeepsLoan(p, l, 0, DayNumber(on));
    AccrualKeepsLoan(p, freed, on);
    var booked := Accrued(p, freed, on);
    CompareIsDayOrder(booked.from, on);
    var q := QuoteFor(p.contract, on, booked.balance, booked.accrued, AllowanceUsed(p, booked, on), want).value;
    QuoteStaysWithinAllowance(p.contract, on, booked.balance, booked.accrued, AllowanceUsed(p, booked, on), want);
    PrepaymentKeepsLoan(p, booked, on, ContractYear(p.contract, on), q.principal, q.closes);
    PrepaidKeepsDates(booked, on, ContractYear(p.contract, on), q.principal, q.closes);
  }

  lemma PrepaidKeepsDates(l: LoanState, on: Date, year: int, principal: nat, closes: bool)
    ensures Prepaid(l, on, year, principal, closes).due == l.due && Prepaid(l, on, year, principal, closes).from == l.from
  {
  }

  lemma DueIsReached(p: Position, l: LoanState, on: Date)
    requires LoanOk(p, l) && !l.closed && IsSet(on) && l.due == on
    ensures Reached(p, l, on) && !After(l.from, on)
  {
    hide DayNumber, Amortisation.DatesAhead, LastDate;
    CompareIsDayOrder(on, on);
  }

  lemma PaidStaysOk(p: Position, l: LoanState, on: Date)
    requires LoanOk(p, l) && !l.closed && IsSet(on) && l.due == on && l.balance >= 0 && IsSet(l.from)
    ensures BookedTo(p, l, on).balance == l.balance
    ensures LoanOk(p, Paid(BookedTo(p, l, on), RequiredToday(p.contract, BookedTo(p, l, on), on), on))
  {
    hide DayNumber, Amortisation.DatesAhead, LastDate, LoanOk, RequiredToday, Paid;
    OpenLoanIsLive(p, l);
    CompareIsDayOrder(on, on);
    AccrualKeepsLoan(p, l, on);
    BookingKeepsBalance(p, l, on);
    PaymentKeepsLoan(p, BookedTo(p, l, on), RequiredToday(p.contract, BookedTo(p, l, on), on), on);
  }

  /** A fresh obligation lies past the date exactly when the loan is accrued to it. */
  lemma RefreshMovesOnExactlyWhen(p: Position, l: LoanState, on: Date)
    requires LoanOk(p, l) && !l.closed && IsSet(on) && l.due == on && IsSet(l.from) && !After(l.from, on)
    requires Amortisation.DatesAhead(p.contract, on).Ok? && RefreshOf(p, l).Some?
    ensures After(RefreshOf(p, l).value.due, on) <==> l.from == on
  {
    hide LastDate, DayNumber, Amortisation.DatesAhead, ProjectionMemo.NextFor;
    CompareIsDayOrder(l.from, on);
    CompareIsDayOrder(on, on);
    EarlierHasDates(p.contract, l.from, on);
    RefreshMoves(p, l, on);
  }
}
