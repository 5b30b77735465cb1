/**
 Runs paid from pooled funding. Settling a due is what `LoanDues.SettledOf` says of its one loan,
 and a single zero-interest loan paid from one budget is the simple paying down of `Paydown`,
 event by event, to the same end on the same date.
 */
module PlainRun {
  import opened Dates
  import opened Contracts
  import opened Portfolio
  import opened SimState
  import opened Fees
  import opened LoanDues
  import opened Flow
  import Amortisation
  import Paydown
  import ProjectionMemo

  // ---------- One due from pooled funding ----------

  /** Nothing changed but one loan, the pool, and the record and budget of a loan that closed. */
  predicate Touched(w: World, s: Snap, r: Snap, i: nat, l: LoanState, cash: int, on: Date) {
    && i < |s.loans| && r.err.None?
    && r == s.(loans := s.loans[i := l], cash := cash, budget := r.budget, res := r.res, month := r.month, err := None)
    && (w.policy.rollover == RollFreed ==> r.budget == s.budget)
    && r.res.payoff == (if l.closed then Later(s.res.payoff, on) else s.res.payoff)
  }

  lemma TouchedTwice(w: World, s: Snap, r: Snap, q: Snap, i: nat, l: LoanState, l': LoanState, cash: int, cash': int, on: Date)
    requires Touched(w, s, r, i, l, cash, on) && Touched(w, r, q, i, l', cash', on) && !l.closed
    ensures Touched(w, s, q, i, l', cash', on)
  {
    assert s.loans[i := l][i := l'] == s.loans[i := l'];
  }

  /** Changing one open loan and nothing else. */
  lemma LoanTouched(w: World, s: Snap, i: nat, l: LoanState, on: Date)
    requires i < |s.loans| && s.err.None? && !l.closed
    ensures Touched(w, s, s.(loans := s.loans[i := l]), i, l, s.cash, on)
  {
  }

  lemma TouchedKeeps(w: World, s: Snap, r: Snap, i: nat, l: LoanState, cash: int, on: Date)
    requires Touched(w, s, r, i, l, cash, on)
    ensures i < |s.loans| == |r.loans| && r.loans[i] == l && r.cash == cash && r.err.None? && r.memo == s.memo
  {
  }

  /** A loan of a pooled run, on a day. */
  predicate Pooled(w: World, s: Snap, i: nat, on: Date) {
    && Over(w, s) && i < |s.loans| && IsDay(on) && s.err.None? && !w.input.Separate() && s.memo.Forgetful?
    && s.loans[i].balance >= 0 && IsSet(s.loans[i].from) && !s.loans[i].closed
  }

  /** Crediting a quoted payment and closing what it closes is one step of the loan. */
  lemma PrepayingIs(w: World, s: Snap, i: nat, on: Date, q: Quote, early: bool)
    requires Pooled(w, s, i, on)
    ensures Touched(w, s, Prepaying(w, s, i, on, q, early), i,
                    Prepaid(s.loans[i], on, ContractYear(w.input.loans[i].contract, on), q.principal, q.closes), s.cash - q.outflow, on)
  {
    hide ContractYear, Freed, MonthCredited;
    var l, r := s.loans[i], Credited(w, s, i, on, q, early);
    var done := Prepaid(l, on, ContractYear(w.input.loans[i].contract, on), q.principal, q.closes);
    assert Prepaying(w, s, i, on, q, early).loans == s.loans[i := done];
  }

  lemma PaidTowardsIs(w: World, s: Snap, i: nat, on: Date, want: nat)
    requires Pooled(w, s, i, on)
    ensures var r := PaidTowards(w, s, i, on, want);
            match PaidUpTo(w.input.loans[i], s.loans[i], on, want)
            case None => r.err.Some? && r.err.value.NoQuote?
            case Some(paid) => Touched(w, s, r, i, paid.0, s.cash - paid.1, on)
  {
    hide QuoteFor, AllowanceUsed, Prepaying, Prepaid, Accrued, ContractYear;
    var p, l := w.input.loans[i], s.loans[i];
    AccrualKeepsBalance(p, l, on);
    AccrualKeepsOpen(p, l, on);
    var (asked, q) := Quoted(w, s, i, on, want);
    if asked.err.None? {
      assert Touched(w, s, asked, i, Accrued(p, l, on), s.cash, on);
      if q.outflow > 0 {
        PrepayingIs(w, asked, i, on, q, false);
        TouchedTwice(w, s, asked, PaidTowards(w, s, i, on, want), i, Accrued(p, l, on),
                     Prepaid(Accrued(p, l, on), on, ContractYear(p.contract, on), q.principal, q.closes), s.cash, s.cash - q.outflow, on);
      }
    }
  }

  lemma AccrualKeepsOpen(p: Position, l: LoanState, on: Date)
    requires IsSet(l.from) && IsSet(on)
    ensures var l' := Accrued(p, l, on); l'.closed == l.closed && IsSet(l'.from) && l'.pending == l.pending
  {
  }

  /** A fresh obligation is refused exactly when the projection is. */
  lemma RenewedIs(w: World, s: Snap, i: nat, on: Date)
    requires Pooled(w, s, i, on) && LoanOk(w.input.loans[i], s.loans[i]) && !After(s.loans[i].from, on)
    requires Amortisation.DatesAhead(w.input.loans[i].contract, on).Ok?
    ensures match RefreshOf(w.input.loans[i], s.loans[i])
            case None => Renewed(w, s, i).err.Some? && Renewed(w, s, i).err.value.NoProjection?
            case Some(l) => Touched(w, s, Renewed(w, s, i), i, l, s.cash, on)
  {
    hide Amortisation.DatesAhead, ProjectionMemo.NextFor, LoanOk, DayNumber;
    var p, l := w.input.loans[i], s.loans[i];
    OpenLoanIsLive(p, l);
    EarlierHasDates(p.contract, l.from, on);
    if ProjectionMemo.NextFor(p.contract, TermsOf(l)).Ok? {
      RefreshKeepsLoan(p, l);
    }
  }

  /** Money held for a date and the fresh obligation after it are what `RestOf` says. */
  lemma RestIs(w: World, s: Snap, i: nat, on: Date)
    requires Pooled(w, s, i, on) && LoanOk(w.input.loans[i], s.loans[i]) && !After(s.loans[i].from, on)
    requires s.loans[i].due == on && s.loans[i].balance > 0 && Amortisation.DatesAhead(w.input.loans[i].contract, on).Ok?
    ensures match RestOf(w.input.loans[i], s.loans[i], on, s.cash)
            case None => RestMet(w, s, i, on).err.Some?
            case Some(rest) => Touched(w, s, RestMet(w, s, i, on), i, rest.0, s.cash - rest.1, on)
  {
    hide Amortisation.DatesAhead, LoanOk, DayNumber, Renewed, PaidTowards, PaidUpTo, RefreshOf, After, Touched;
    var p, l := w.input.loans[i], s.loans[i];
    if l.pending == 0 {
      RenewedIs(w, s, i, on);
    } else {
      var freed := s.(loans := s.loans[i := l.(pending := 0)]);
      LoanTouched(w, s, i, l.(pending := 0), on);
      var want := if l.pending > s.cash then s.cash else l.pending;
      if want > 0 {
        PaidTowardsIs(w, freed, i, on, want);
        HeldRestIs(w, s, freed, i, on, want);
        match PaidUpTo(p, freed.loans[i], on, want) {
          case None =>
          case Some(part) => TouchedKeeps(w, s, PaidTowards(w, freed, i, on, want), i, part.0, s.cash - part.1, on);
        }
      }
    }
  }

  lemma HeldRestIs(w: World, s: Snap, freed: Snap, i: nat, on: Date, want: nat)
    requires Pooled(w, s, i, on) && LoanOk(w.input.loans[i], s.loans[i]) && !After(s.loans[i].from, on)
    requires s.loans[i].due == on && s.loans[i].balance > 0 && Amortisation.DatesAhead(w.input.loans[i].contract, on).Ok?
    requires freed == s.(loans := s.loans[i := s.loans[i].(pending := 0)])
    ensures var paid := PaidTowards(w, freed, i, on, want);
            match PaidUpTo(w.input.loans[i], freed.loans[i], on, want)
            case None => paid.err.Some?
            case Some(part) =>
              && Touched(w, s, paid, i, part.0, s.cash - part.1, on)
              && (!part.0.closed ==>
                    && IsSet(part.0.from)
                    && match RefreshOf(w.input.loans[i], part.0)
                       case None => Renewed(w, paid, i).err.Some?
                       case Some(l) => Touched(w, s, Renewed(w, paid, i), i, l, s.cash - part.1, on))
  {
    hide Amortisation.DatesAhead, LoanOk, DayNumber, Renewed, PaidTowards, PaidUpTo, RefreshOf, Touched;
    var p, l := w.input.loans[i], s.loans[i];
    PaidTowardsIs(w, freed, i, on, want);
    match PaidUpTo(p, freed.loans[i], on, want) {
      case None =>
      case Some(part) =>
        var paid := PaidTowards(w, freed, i, on, want);
        LoanTouched(w, s, i, l.(pending := 0), on);
        TouchedTwice(w, s, freed, paid, i, freed.loans[i], part.0, s.cash, s.cash - part.1, on);
        TouchedKeeps(w, s, paid, i, part.0, s.cash - part.1, on);
        if !part.0.closed {
          HeldPaymentBooks(p, l, on, want);
          OpenLoanIsLive(p, part.0);
          CompareIsDayOrder(on, on);
          RenewedIs(w, paid, i, on);
          match RefreshOf(p, part.0) {
            case None =>
            case Some(l') => TouchedTwice(w, s, paid, Renewed(w, paid, i), i, part.0, l', s.cash - part.1, s.cash - part.1, on);
          }
        }
    }
  }

  /** Taking a due payment is one step of the loan. */
  lemma DueTakenIs(w: World, s: Snap, i: nat, on: Date, required: nat)
    requires Pooled(w, s, i, on)
    ensures Touched(w, s, DueTaken(w, s, i, on, required), i, Paid(s.loans[i], required, on), s.cash - required, on)
  {
    hide Freed;
    var credited := DueCredited(w, s, i, required);
    assert DueTaken(w, s, i, on, required).loans == s.loans[i := Paid(s.loans[i], required, on)];
  }

  lemma HasCalendar(p: Position, l: LoanState)
    requires LoanOk(p, l) && p.balance > 0
    ensures Amortisation.PaymentDates(p.contract).Ok?
  {
    hide Amortisation.PaymentDates, OpenOk;
  }

  /** A due is paid out of the pool as one step of its loan, or the run ends short by exactly what is missing. */
  lemma DueMetIs(w: World, s: Snap, i: nat, on: Date)
    requires Pooled(w, s, i, on) && Amortisation.PaymentDates(w.input.loans[i].contract).Ok?
    ensures var p, l := w.input.loans[i], s.loans[i];
            BookedTo(p, l, on).balance >= 0 &&
            var required := RequiredToday(p.contract, BookedTo(p, l, on), on);
            if s.cash < required then DueMet(w, s, i, on).err == Some(ShortOfCash(on, i, required - s.cash))
            else Touched(w, s, DueMet(w, s, i, on), i, Paid(BookedTo(p, l, on), required, on), s.cash - required, on)
  {
    hide Amortisation.DatesAhead, Amortisation.PaymentDates, RequiredToday, Paid, DueTaken, Accrued, Touched;
    var p, l := w.input.loans[i], s.loans[i];
    BookingKeepsBalance(p, l, on);
    AccrualKeepsOpen(p, l, on);
    var booked := BookedTo(p, l, on);
    var required := RequiredToday(p.contract, booked, on);
    if s.cash >= required {
      var ready := InterestBooked(w, s, i, on);
      LoanTouched(w, s, i, booked, on);
      DueTakenIs(w, ready, i, on, required);
      TouchedTwice(w, s, ready, DueMet(w, s, i, on), i, booked, Paid(booked, required, on), s.cash, s.cash - required, on);
    }
  }

  /** What follows a due that left a debt, as one step of the loan before it. */
  lemma OpenRestIs(w: World, s: Snap, met: Snap, i: nat, on: Date, required: nat)
    requires Pooled(w, s, i, on) && LoanOk(w.input.loans[i], s.loans[i]) && s.loans[i].due == on
    requires var p, l := w.input.loans[i], s.loans[i];
             BookedTo(p, l, on).balance >= 0 && required == RequiredToday(p.contract, BookedTo(p, l, on), on)
    requires var paid := Paid(BookedTo(w.input.loans[i], s.loans[i], on), required, on);
             !paid.closed && Touched(w, s, met, i, paid, s.cash - required, on)
    ensures var p, paid := w.input.loans[i], Paid(BookedTo(w.input.loans[i], s.loans[i], on), required, on);
            && paid.balance >= 0 && IsSet(paid.from)
            && match RestOf(p, paid, on, s.cash - required)
               case None => RestMet(w, met, i, on).err.Some?
               case Some(rest) => Touched(w, s, RestMet(w, met, i, on), i, rest.0, s.cash - required - rest.1, on)
  {
    hide Amortisation.DatesAhead, LoanOk, DayNumber, RequiredToday, RestMet, RestOf, Paid, BookedTo, Touched, After;
    var p, l := w.input.loans[i], s.loans[i];
    var paid := Paid(BookedTo(p, l, on), required, on);
    TouchedKeeps(w, s, met, i, paid, s.cash - required, on);
    DueIsReached(p, l, on);
    PaymentLeavesDates(p, l, on);
    PaidStaysOk(p, l, on);
    OpenLoanIsLive(p, paid);
    RestIs(w, met, i, on);
    match RestOf(p, paid, on, s.cash - required) {
      case None =>
      case Some(rest) =>
        TouchedTwice(w, s, met, RestMet(w, met, i, on), i, paid, rest.0, s.cash - required, s.cash - required - rest.1, on);
    }
  }

  /**
   From pooled funding, settling a due that cash can meet leaves exactly the loan and the cash
   that `SettledOf` names, and fails exactly where it names none.
   */
  lemma SettlingIs(w: World, s: Snap, i: nat, on: Date)
    requires Pooled(w, s, i, on) && LoanOk(w.input.loans[i], s.loans[i]) && s.loans[i].due == on
    ensures var p, l := w.input.loans[i], s.loans[i];
            BookedTo(p, l, on).balance >= 0 &&
            var required := RequiredToday(p.contract, BookedTo(p, l, on), on);
            if s.cash < required then DueSettled(w, s, i, on).err == Some(ShortOfCash(on, i, required - s.cash))
            else match SettledOf(p, l, on, s.cash)
                 case None => DueSettled(w, s, i, on).err.Some?
                 case Some(done) => Touched(w, s, DueSettled(w, s, i, on), i, done.0, done.1, on)
  {
    hide Amortisation.DatesAhead, LoanOk, DayNumber, RequiredToday, RestMet, RestOf, Paid, DueMet, BookedTo, Touched,
      Amortisation.PaymentDates;
    var p, l := w.input.loans[i], s.loans[i];
    OpenLoanIsLive(p, l);
    HasCalendar(p, l);
    DueMetIs(w, s, i, on);
    var required := RequiredToday(p.contract, BookedTo(p, l, on), on);
    if s.cash >= required {
      var met, paid := DueMet(w, s, i, on), Paid(BookedTo(p, l, on), required, on);
      TouchedKeeps(w, s, met, i, paid, s.cash - required, on);
      if !paid.closed {
        OpenRestIs(w, s, met, i, on, required);
        match RestOf(p, paid, on, s.cash - required) {
          case None =>
          case Some(rest) => TouchedKeeps(w, s, RestMet(w, met, i, on), i, rest.0, s.cash - required - rest.1, on);
        }
      }
    }
  }

  // ---------- One loan on one budget ----------

  /** One zero-interest loan, paid from nothing but its budget, between two of its due dates or closed. */
  ghost predicate Plain(w: World, s: Snap) {
    && OneLoan(w.input, w.policy) && Over(w, s) && s.buckets == [] && s.lumps == [] && s.err.None? && s.memo.Forgetful?
    && !IsSet(s.nextIncome) && !IsSet(s.nextPeriod) && s.budget == w.input.cash.monthly >= 0
    && (s.loans[0].closed || PlainOpen(w, s))
  }

  ghost predicate PlainOpen(w: World, s: Snap)
    requires |s.loans| == 1 == |w.input.loans|
  {
    && PlainLoan(w.input.loans[0], s.loans[0]) && Whole(s.budget, w.input.loans[0].contract.rounding.unit)
    && w.input.loans[0].balance > 0 && s.cash == 0 && s.res.payoff == UNSET && s.incomeYM < YearMonth(s.loans[0].due)
  }

  /** The course the rest of a plain run takes by the simple form. */
  ghost function CourseLeft(w: World, s: Snap): Paydown.Course
    requires Plain(w, s) && IsDay(w.input.valuation)
  {
    if s.loans[0].closed then Paydown.PaidOff(s.res.payoff)
    else CourseFrom(w.input.loans[0], s.loans[0], s.budget, Horizon(w))
  }

  /** The failure or the pay-off date a course stands for. */
  predicate Took(s: Snap, course: Paydown.Course) {
    match course
    case PaidOff(on) => s.err.None? && AllShut(s) && s.res.payoff == on
    case CannotMeet(on) => s.err.Some? && s.err.value.ShortOfCash? && s.err.value.on == on
    case PastHorizon => s.err == Some(HorizonExceeded)
  }

  /** A plain run's only event is its loan's due. */
  lemma PlainPicksItsDue(w: World, s: Snap)
    requires Plain(w, s) && !s.loans[0].closed
    ensures Picked(s) == Some((DueEvent(0), s.loans[0].due))
  {
    hide PlainOpen;
    assert s.loans[..0] == [];
    assert BestDue(None, s.loans[..0]) == None;
  }

  /** An income of a plain run is its budget, and what that leaves beyond the due is held for the due date. */
  lemma PlainArrives(w: World, s: Snap, on: Date)
    requires Plain(w, s) && !s.loans[0].closed && IsDay(on) && on == s.loans[0].due
    ensures IsSet(s.loans[0].from) && s.loans[0].balance >= 0
    ensures var r := DueArrived(w, s, on);
            match Arrived(w.input.loans[0], s.loans[0], on, s.budget)
            case None => r.err.Some? && r.err.value.NoQuote?
            case Some(l) => Arriving(s, r, l, on)
  {
    hide PlainLoan, LoanOk, PromiseOf, Quoted, QuoteFor, Accrued, AllowanceUsed, Turned, Opened, Hold;
    PlainFacts(w.input.loans[0], s.loans[0]);
    var taken := IncomeTaken(w, s, on);
    TakenForOne(w, s, on);
    assert Routed(w, taken, on, -1) == taken;
    OneHolds(taken.loans, UNSET, YearMonth(on));
    var surplus := SurplusIn(w, taken, on);
    if surplus > 0 {
      PromisedIs(w, taken, on, surplus);
    }
  }

  /** A plain run once its income of the day has arrived. */
  predicate Arriving(s: Snap, r: Snap, l: LoanState, on: Date) {
    && r.err.None? && r.loans == [l] && r.cash == s.cash + s.budget && r.budget == s.budget && r.buckets == [] && r.lumps == s.lumps
    && r.nextIncome == UNSET && r.nextPeriod == s.nextPeriod && r.incomeYM == YearMonth(on) && r.res.payoff == s.res.payoff
    && r.memo == s.memo && r.cycle > 0
  }

  lemma TakenForOne(w: World, s: Snap, on: Date)
    requires Plain(w, s) && IsDay(on)
    ensures Arriving(s, IncomeTaken(w, s, on), s.loans[0], on)
  {
    hide PlainOpen;
    assert s.loans == [s.loans[0]];
  }

  lemma OneHolds(loans: seq<LoanState>, nextIncome: Date, incomeYM: int)
    requires |loans| == 1
    ensures Reservations(loans, nextIncome, incomeYM) == Hold(loans[0], nextIncome, incomeYM)
  {
    hide Hold;
    assert loans[..0] == [];
    assert Reservations(loans[..0], nextIncome, incomeYM) == 0;
  }

  /** The surplus of a plain run is offered to its loan and held for its due date. */
  lemma PromisedIs(w: World, s: Snap, on: Date, surplus: nat)
    requires OneLoan(w.input, w.policy) && Pooled(w, s, 0, on) && s.loans[0].timing == OnDue && surplus > 0
    ensures var r := OfferedFrom(w, s, on, surplus, 0);
            match PromiseOf(w.input.loans[0], s.loans[0], on, surplus)
            case None => r.err.Some? && r.err.value.NoQuote?
            case Some(l) => r == s.(loans := [l])
  {
    hide QuoteFor, AllowanceUsed, Accrued;
    var p, l := w.input.loans[0], s.loans[0];
    AccrualKeepsBalance(p, l, on);
    AccrualKeepsOpen(p, l, on);
    var (one, left) := Offered(w, s, 0, on, surplus);
    assert w.policy.order[0] == 0;
    assert one.err.None? ==> OfferedFrom(w, s, on, surplus, 0) == OfferedFrom(w, one, on, left, 1) == one;
    assert one.err.Some? ==> OfferedFrom(w, s, on, surplus, 0) == one;
  }

  lemma PlainIsOk(p: Position, l: LoanState)
    requires PlainLoan(p, l) && p.balance > 0
    ensures LoanOk(p, l)
  {
    hide DayNumber, Amortisation.DatesAhead, Amortisation.PaymentDates, PlainTerms, Whole;
    NextDateIsInCalendar(p.contract, l.from);
  }

  lemma ArrivedStaysOk(p: Position, l: LoanState, on: Date, money: int)
    requires LoanOk(p, l) && !l.closed && l.due == on && l.balance >= 0 && IsSet(l.from) && IsSet(on)
    requires Arrived(p, l, on, money).Some?
    ensures var held := Arrived(p, l, on, money).value; LoanOk(p, held) && !held.closed && held.due == on
  {
    hide DayNumber, Amortisation.DatesAhead, LoanOk, QuoteFor, AllowanceUsed, Hold, Accrued;
    var surplus := money - Hold(l, UNSET, YearMonth(on));
    if surplus > 0 {
      CompareIsDayOrder(on, on);
      AccrualKeepsLoan(p, l, on);
      var held := Arrived(p, l, on, money).value;
      PendingKeepsLoan(p, Accrued(p, l, on), held.pending, DayNumber(on));
    }
  }

  /** What a due date of a plain run does to its loan and its cash is what `DueOf` says. */
  lemma PlainDueIs(w: World, s: Snap, on: Date)
    requires Plain(w, s) && !s.loans[0].closed && IsDay(on) && on == s.loans[0].due
    ensures IsSet(s.loans[0].from) && s.loans[0].balance >= 0
    ensures var r := DuePassed(w, s, 0, on);
            match DueOf(w.input.loans[0], s.loans[0], on, 0, s.budget)
            case Stuck => r.err.Some?
            case Short(shortfall) => r.err == Some(ShortOfCash(on, 0, shortfall))
            case Left(l, cash) =>
              && r.err.None? && r.loans == [l] && r.cash == cash && r.budget == s.budget && r.buckets == [] && r.lumps == s.lumps
              && r.nextIncome == UNSET && r.nextPeriod == s.nextPeriod && r.incomeYM == YearMonth(on) && r.memo == s.memo
              && r.res.payoff == (if l.closed then Later(s.res.payoff, on) else s.res.payoff)
  {
    hide PlainLoan, LoanOk, Hold, DueArrived, DueSettled, SettledOf, Arrived, RequiredToday, BookedTo, DayNumber, Later;
    var p, l := w.input.loans[0], s.loans[0];
    PlainFacts(p, l);
    PlainIsOk(p, l);
    PlainArrives(w, s, on);
    match Arrived(p, l, on, s.budget) {
      case None =>
      case Some(held) =>
        ArrivedStaysOk(p, l, on, s.budget);
        var arrived := DueArrived(w, s, on);
        SettlingIs(w, arrived, 0, on);
        SettledWithoutBuckets(w, s, on);
    }
  }

  lemma SettledWithoutBuckets(w: World, s: Snap, on: Date)
    requires Over(w, s) && |s.loans| > 0 && IsDay(on) && DueArrived(w, s, on).err.None?
    ensures var settled := DueSettled(w, DueArrived(w, s, on), 0, on);
            if settled.err.Some? then DuePassed(w, s, 0, on) == settled
            else settled.buckets == [] ==> DuePassed(w, s, 0, on) == settled
  {
    hide DueArrived, DueSettled;
  }

  /** One turn of a plain run takes one step of its course. */
  lemma PlainTurn(w: World, s: Snap)
    requires Plain(w, s) && !s.loans[0].closed && IsDay(w.input.valuation)
    ensures var r := Next(w, s);
            if r.err.None? then Plain(w, r) && CourseLeft(w, r) == CourseLeft(w, s) else Took(r, CourseLeft(w, s))
  {
    hide DayNumber, Whole, PlainLoan, DueOf, CourseFrom, DuePassed, Picked, LoanOk;
    var p, l := w.input.loans[0], s.loans[0];
    PlainFacts(p, l);
    PlainPicksItsDue(w, s);
    DueIsADay(p, l);
    if After(l.due, Horizon(w)) {
      CourseEndsPastHorizon(p, l, s.budget, Horizon(w));
    } else {
      PlainDueIs(w, s, l.due);
      CourseStep(p, l, s.budget, Horizon(w));
      CompareIsDayOrder(UNSET, l.due);
    }
  }

  lemma DueIsADay(p: Position, l: LoanState)
    requires PlainLoan(p, l)
    ensures IsDay(l.due)
  {
  }

  /** However many turns are taken, a plain run stays on its course or has come to its end. */
  lemma {:induction false} PlainStays(w: World, s: Snap, n: nat)
    requires Plain(w, s) && IsDay(w.input.valuation)
    ensures var r := Steps(w, s, n);
            if r.err.None? then Plain(w, r) && CourseLeft(w, r) == CourseLeft(w, s) else Took(r, CourseLeft(w, s))
    decreases n
  {
    hide Plain, CourseLeft, Next, Took;
    OpenUnlessShut(w, s);
    if n > 0 && !Ended(s) {
      PlainTurn(w, s);
      if Next(w, s).err.None? {
        PlainStays(w, Next(w, s), n - 1);
      }
    }
  }

  lemma OpenUnlessShut(w: World, s: Snap)
    requires Plain(w, s)
    ensures Ended(s) <==> s.loans[0].closed
    ensures |s.loans| == 1 && Over(w, s) && s.err.None?
  {
  }

  // ---------- Starting ----------

  /** The outcome a course stands for; a loan that cannot be projected has none. */
  predicate Follows(r: Outcome, course: Option<Paydown.Course>) {
    match course
    case None => r.Failed? && r.why.NoProjection?
    case Some(PaidOff(on)) => r.Finished? && r.result.payoff == on
    case Some(CannotMeet(on)) => r.Failed? && r.why.ShortOfCash? && r.why.on == on
    case Some(PastHorizon) => r == Failed(HorizonExceeded)
  }

  /** A position that owes something is taken up as a run renews it, or neither has a projection. */
  lemma TakenUpIs(w: World, s: Snap, timing: Timing, effect: PrepaymentEffect)
    requires |s.loans| == 1 == |w.input.loans| && s.err.None? && s.memo.Forgetful? && w.input.loans[0].balance > 0
    requires IsSet(w.input.loans[0].from) && s.loans[0] == Starting(w.input.loans[0], timing, effect)
    ensures match TakenUp(w.input.loans[0], timing, effect)
            case None => Renewed(w, s, 0).err.Some? && Renewed(w, s, 0).err.value.NoProjection?
            case Some(l) => Renewed(w, s, 0) == s.(loans := [l])
  {
    hide Amortisation.DatesAhead, ProjectionMemo.NextFor, LoanOk, DayNumber;
    var p, l := w.input.loans[0], s.loans[0];
    if ProjectionMemo.NextFor(p.contract, TermsOf(l)).Ok? {
      ObligationNeedsADate(p.contract, TermsOf(l));
      RefreshKeepsLoan(p, l);
    }
  }

  /** In the domain of the inverse search a run starts plain, on the course its input names, or has none. */
  lemma StartsPlain(in_: Input, policy: Policy)
    requires Accepted(in_) && InverseDomain(in_, policy) && IsDay(in_.valuation) && IsSet(in_.loans[0].from)
    requires |policy.effect| == 1
    ensures var w := WorldOf(in_, policy);
            var start := Started(w, ProjectionMemo.Forgetful);
            if start.err.None? then Plain(w, start) && CourseOf(in_, Horizon(w)) == Some(CourseLeft(w, start))
            else start.err.value.NoProjection? && CourseOf(in_, Horizon(w)) == None
  {
    hide DayNumber, Whole, PlainLoan, PlainTerms, Amortisation.DatesAhead, RefreshOf, LastDate, Renewed;
    var w, p := WorldOf(in_, policy), in_.loans[0];
    var blank := Blank(w, ProjectionMemo.Forgetful);
    assert EffectOf(w.policy, 0) == ShortenTerm && TimingOf(w.policy, 0) == OnDue;
    var added := blank.(loans := [Starting(p, OnDue, ShortenTerm)]);
    assert blank.loans + [Starting(p, OnDue, ShortenTerm)] == [Starting(p, OnDue, ShortenTerm)];
    assert LoanTaken(w, blank) == if p.balance > 0 then Renewed(w, added, 0) else added;
    assert LoansTaken(w, blank) == LoanTaken(w, blank);
    if p.balance > 0 {
      TakenUpIs(w, added, OnDue, ShortenTerm);
      if TakenUp(p, OnDue, ShortenTerm).Some? {
        PlainTakenUp(p, ShortenTerm);
        PlainFacts(p, TakenUp(p, OnDue, ShortenTerm).value);
        PlainLoanHasDates(p, TakenUp(p, OnDue, ShortenTerm).value);
      }
    }
  }

  /**
   In the domain of the inverse search every run that ends has the outcome of its course: the
   pay-off date, the first due the budget cannot meet, or the horizon.
   */
  lemma PlainRunFollowsItsCourse(in_: Input, policy: Policy)
    requires Accepted(in_) && Covers(policy, |in_.loans|) && InverseDomain(in_, policy)
    requires IsDay(in_.valuation)
    requires var start := Started(WorldOf(in_, policy), ProjectionMemo.Forgetful);
             start.err.None? ==> Stops(WorldOf(in_, policy), start)
    ensures |in_.loans| == 1 && IsSet(in_.loans[0].from) && in_.cash.monthly >= 0
    ensures Follows(RunOf(in_, policy, ProjectionMemo.Forgetful).0, CourseOf(in_, AddMonths(in_.valuation, in_.Months())))
  {
    hide Accepted, InverseDomain, Plain, CourseLeft, Started, CourseOf, Completed, Steps, AddMonths;
    InverseDomainIsPlain(in_, policy);
    OneIsDated(in_);
    StartsPlain(in_, policy);
    var w := WorldOf(in_, policy);
    var start := Started(w, ProjectionMemo.Forgetful);
    if start.err.None? {
      var n: nat :| Ended(Steps(w, start, n)) && StopOf(w, start) == Steps(w, start, n);
      PlainStays(w, start, n);
      EndsWell(w, StopOf(w, start), CourseLeft(w, start));
    }
  }

  lemma OneIsDated(in_: Input)
    requires Accepted(in_)
    ensures forall k :: 0 <= k < |in_.loans| ==> IsSet(in_.loans[k].from)
  {
    hide RoutingValid, FundingValid;
  }

  /** The end of a plain run gives the outcome of its course. */
  lemma EndsWell(w: World, s: Snap, course: Paydown.Course)
    requires IsDay(w.input.valuation) && Ended(s)
    requires if s.err.None? then Plain(w, s) && CourseLeft(w, s) == course else Took(s, course)
    ensures Follows(OutcomeOf(s), Some(course))
  {
    hide PlainLoan, CourseFrom, OpenBalance, Restricted;
  }
}
