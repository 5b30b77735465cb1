/**
 Two dues in one income window. With a payment day of 28 and a pay day of 31, February's income
 falls on the due date itself and the next due comes before March's income. The income reserves
 one of the two. This module follows such a run: its start and its income leave everything reserved
 covered, every due asks for no more than its instalment, and the second due finds no cash.
 */
module SharedWindow {
  import opened Dates
  import opened Contracts
  import opened Portfolio
  import opened SimState
  import opened LoanDues
  import opened Flow
  import Amortisation
  import Money
  import PlainRun
  import ProjectionMemo

  // ---------- The input ----------

  const FIRST: Date := Civil(2023, 2, 28)
  const LAST: Date := Civil(2023, 3, 28)
  const PAY: Date := Civil(2023, 3, 31)

  /** Two instalments of ten, without interest. */
  const LOAN: Contract := Contract("loan", 1, "AMD", UNSET, UNSET, 0, Money.Actual365, Annuity, Civil(2023, 1, 28), LAST,
    28, UNSET, 10, true, Money.Policy(Money.Down, 1), Prepayment(ShortenTerm, 0, [], 0), "")

  const DEBT: Position := Position("debt", LOAN, 20, Civil(2023, 2, 1), ReducePrincipal, false)

  /** An income of ten on the last day of every month. */
  const INPUT: Input := Input(Civil(2023, 2, 15), CashPlan(UNSET, None, 10, 31, 0, 0, [], map[]), [DEBT], 0)

  const PLAIN: Policy := Policy("", false, [0], [OnDue], [ShortenTerm], RollFreed, 0)

  const WORLD: World := World(INPUT, PLAIN)

  lemma InputIsAccepted()
    ensures Accepted(INPUT) && Covers(PLAIN, 1) && WorldOf(INPUT, PLAIN) == WORLD && IsDay(INPUT.valuation)
    ensures !OneDueAWindow(INPUT)
  {
    hide DayNumber;
    assert Canonical(INPUT, PLAIN).effect == [ShortenTerm];
    assert FromOpening([]) == 0;
    assert 28 <= Amortisation.ContractDay(INPUT.loans[0].contract) < INPUT.cash.payDay;
  }

  lemma DatesAre()
    ensures Amortisation.PaymentDates(LOAN) == Amortisation.Ok([FIRST, LAST])
  {
    hide DayNumber;
    assert Occurrence(LOAN.start, 28, 1) == FIRST && Occurrence(LOAN.start, 28, 2) == LAST;
    assert Occurrence(LOAN.start, 28, 3) == Civil(2023, 4, 28);
    assert Amortisation.DatesFrom(LOAN, 3) == [];
    assert Amortisation.DatesFrom(LOAN, 2) == [LAST];
    assert Amortisation.DatesFrom(LOAN, 1) == [FIRST, LAST];
  }

  lemma Calendar()
    ensures Amortisation.PaymentDates(LOAN) == Amortisation.Ok([FIRST, LAST])
    ensures Amortisation.DatesAhead(LOAN, DEBT.from) == Amortisation.Ok([FIRST, LAST])
    ensures Amortisation.DatesAhead(LOAN, FIRST) == Amortisation.Ok([LAST]) && Amortisation.DatesAhead(LOAN, LAST).Err?
  {
    hide Amortisation.PaymentDates, DayNumber;
    DatesAre();
    assert Amortisation.Remaining(LOAN, [LAST], FIRST) == [LAST];
    assert Amortisation.Remaining(LOAN, [LAST], LAST) == [];
  }

  lemma FirstObligation()
    ensures ProjectionMemo.NextFor(LOAN, ProjectionMemo.Terms(20, DEBT.from, ShortenTerm, 0)) == Amortisation.Ok(Amortisation.Obligation(FIRST, 10, 10))
  {
    hide Amortisation.PaymentDates, Amortisation.DatesAhead, DaysBetween, DayNumber;
    Calendar();
    Amortisation.DatesAheadAreAhead(LOAN, DEBT.from);
    assert [FIRST, LAST][1..] == [LAST] && [LAST][1..] == [];
    NoInterest(LOAN, 20, DaysBetween(DEBT.from, FIRST));
    NoInterest(LOAN, 10, DaysBetween(FIRST, LAST));
    var two := Amortisation.LevelRow(LOAN, 10, FIRST, LAST, 10, 2);
    assert two.closing == 0;
    assert Amortisation.LevelRows(LOAN, 10, FIRST, [LAST], 10, 2) == [two];
  }

  // ---------- Where the run stands ----------

  function Owed(balance: int, from: Date, due: Date): LoanState {
    LoanState(ShortenTerm, OnDue, balance, 0, from, 10, due, 10, 0, map[], false, UNSET)
  }

  predicate Stands(s: Snap, l: LoanState, cash: int, nextIncome: Date) {
    && s.loans == [l] && s.cash == cash && s.budget == 10 && s.buckets == [] && s.lumps == [] && s.nextIncome == nextIncome
    && s.nextPeriod == UNSET && s.err.None? && s.memo.Forgetful?
  }

  lemma Starts()
    ensures Stands(Started(WORLD, ProjectionMemo.Forgetful), Owed(20, DEBT.from, FIRST), 0, FIRST)
  {
    hide Amortisation.PaymentDates, ProjectionMemo.NextFor, DayNumber;
    FirstObligation();
    var blank, start := Blank(WORLD, ProjectionMemo.Forgetful), Starting(DEBT, OnDue, ShortenTerm);
    assert blank.loans + [start] == [start] && [start][0] == start;
    var one := LoanTaken(WORLD, blank);
    assert one.loans == [Owed(20, DEBT.from, FIRST)];
    assert LoansTaken(WORLD, blank) == one;
    assert OnDayOfMonth(INPUT.valuation, 31) == FIRST;
  }

  /** What the loan leaves of the cash in a window. */
  lemma SpareIs(s: Snap, l: LoanState, cash: int, nextIncome: Date)
    requires Stands(s, l, cash, nextIncome)
    ensures SpareIn(WORLD, s) == cash - Hold(l, nextIncome, s.incomeYM)
  {
    hide Hold;
    PlainRun.OneHolds(s.loans, nextIncome, s.incomeYM);
  }

  lemma DueIsNext(s: Snap, l: LoanState, cash: int, nextIncome: Date)
    requires Stands(s, l, cash, nextIncome) && !l.closed && IsSet(nextIncome)
    requires (nextIncome == FIRST && l.due == FIRST) || (nextIncome == PAY && (l.due == FIRST || l.due == LAST))
    ensures Picked(s) == Some(if nextIncome == FIRST then (IncomeEvent, FIRST) else (DueEvent(0), l.due))
    ensures !After(l.due, Horizon(WORLD))
  {
    hide DayNumber;
    var income := Some((IncomeEvent, nextIncome));
    assert BestWake(income, []) == income == BestLump(income, []);
    assert [l][..0] == [] && BestDue(income, []) == income;
    assert Horizon(WORLD) == Civil(2073, 2, 15);
  }

  // ---------- The turns ----------

  /** The income covers the one due reserved, and leaves nothing over. */
  lemma IncomeTurn(s: Snap)
    requires Stands(s, Owed(20, DEBT.from, FIRST), 0, FIRST)
    ensures Stands(Next(WORLD, s), Owed(20, DEBT.from, FIRST), 10, PAY)
    ensures Covered(WORLD, s) && KeptNext(WORLD, s, true)
  {
    hide DayNumber, OpenBalance, Restricted, CycleRecorded;
    var l := Owed(20, DEBT.from, FIRST);
    DueIsNext(s, l, 0, FIRST);
    SpareIs(s, l, 0, FIRST);
    var taken := IncomeTaken(WORLD, s, FIRST);
    assert OnDayOfMonth(AddMonths(FIRST, 1), 31) == PAY;
    assert Stands(taken, l, 10, PAY);
    SpareIs(taken, l, 10, PAY);
    assert RoutedFrom(WORLD, taken, 0, FIRST, -1) == taken;
  }

  lemma NothingAccrues(l: LoanState, on: Date)
    requires IsSet(on) && IsSet(l.from) && l.balance > 0 && After(on, l.from)
    ensures AccruedTo(DEBT, l, on) == l.(from := on)
  {
    hide DaysBetween, DayNumber;
    NoInterest(LOAN, l.balance, DaysBetween(l.from, on));
  }

  /** The first due takes all the cash. */
  lemma FirstDueTurn(s: Snap)
    requires Stands(s, Owed(20, DEBT.from, FIRST), 10, PAY)
    ensures Stands(Next(WORLD, s), Owed(10, FIRST, LAST), 0, PAY) && KeptNext(WORLD, s, true)
  {
    hide DayNumber, AccruedTo, Amortisation.DatesAhead, Amortisation.PaymentDates;
    Calendar();
    var l, booked, l' := Owed(20, DEBT.from, FIRST), Owed(20, FIRST, FIRST), Owed(10, FIRST, LAST);
    DueIsNext(s, l, 10, PAY);
    NothingAccrues(l, FIRST);
    var arrived := DueArrived(WORLD, s, FIRST);
    assert Stands(arrived, l, 10, PAY);
    assert arrived.loans[0 := booked] == [booked];
    var met := DueMet(WORLD, arrived, 0, FIRST);
    var paid := Owed(10, FIRST, FIRST);
    assert [booked][0 := paid] == [paid];
    assert Stands(met, paid, 0, PAY);
    assert ProjectionMemo.NextFor(LOAN, TermsOf(paid)) == Amortisation.Ok(Amortisation.Obligation(LAST, 10, 10));
    assert met.loans[0 := l'] == [l'];
    assert Stands(DueSettled(WORLD, arrived, 0, FIRST), l', 0, PAY);
  }

  lemma ArrivesUnpaid(s: Snap)
    requires Stands(s, Owed(10, FIRST, LAST), 0, PAY)
    ensures Stands(DueArrived(WORLD, s, LAST), Owed(10, FIRST, LAST), 0, PAY)
  {
    hide DayNumber, OpenBalance;
  }

  lemma AsksItsInstalment()
    ensures AccruedTo(DEBT, Owed(10, FIRST, LAST), LAST) == Owed(10, LAST, LAST)
    ensures AskedToday(LOAN, Owed(10, LAST, LAST), LAST) == 10
  {
    hide DayNumber, AccruedTo, Amortisation.DatesAhead, Amortisation.PaymentDates;
    Calendar();
    NothingAccrues(Owed(10, FIRST, LAST), LAST);
  }

  lemma FindsNoCash(s: Snap)
    requires Stands(s, Owed(10, FIRST, LAST), 0, PAY)
    ensures DueMet(WORLD, s, 0, LAST).err == Some(ShortOfCash(LAST, 0, 10))
  {
    hide DayNumber, AccruedTo, AskedToday, DueTaken, Amortisation.PaymentDates;
    Calendar();
    AsksItsInstalment();
    assert s.loans[0 := Owed(10, LAST, LAST)] == [Owed(10, LAST, LAST)];
  }

  /** The second due of the window finds none. */
  lemma SecondDueTurn(s: Snap)
    requires Stands(s, Owed(10, FIRST, LAST), 0, PAY)
    ensures Next(WORLD, s).err == Some(ShortOfCash(LAST, 0, 10)) && KeptNext(WORLD, s, true)
  {
    hide DayNumber, AccruedTo, AskedToday, Picked, DueArrived, DueMet, Horizon, Routed, RestMet;
    AsksItsInstalment();
    DueIsNext(s, Owed(10, FIRST, LAST), 0, PAY);
    ArrivesUnpaid(s);
    FindsNoCash(DueArrived(WORLD, s, LAST));
  }

  // ---------- The run ----------

  lemma OneMoreTurn(s: Snap, n: nat, r: Snap)
    requires Over(WORLD, s) && IsDay(INPUT.valuation) && Steps(WORLD, s, n) == r && r.err.None? && |r.loans| == 1 && !r.loans[0].closed
    requires Kept(WORLD, s, n) && KeptNext(WORLD, r, true)
    ensures Steps(WORLD, s, n + 1) == Next(WORLD, r) && Kept(WORLD, s, n + 1)
  {
    hide Next, Steps, KeptNext;
    StepsOneMore(WORLD, s, n);
    assert !AllShut(r);
  }

  /**
   An accepted input whose start and incomes leave everything reserved covered, and whose dues ask
   for no more than their instalments, runs short of cash: its days put two dues in one window.
   */
  lemma CoveredRunGoesShort()
    ensures Accepted(INPUT) && Covers(PLAIN, 1) && !OneDueAWindow(INPUT)
    ensures var w := WorldOf(INPUT, PLAIN);
            var start := Started(w, ProjectionMemo.Forgetful);
            && IsDay(INPUT.valuation) && start.err.None? && Kept(w, start, 3)
            && Ended(Steps(w, start, 3)) && Steps(w, start, 3).err == Some(ShortOfCash(LAST, 0, 10))
  {
    hide Started, Next, DayNumber, KeptNext, Covered, OneDueAWindow;
    InputIsAccepted();
    Starts();
    var s := Started(WORLD, ProjectionMemo.Forgetful);
    IncomeTurn(s);
    assert Steps(WORLD, s, 0) == s && Kept(WORLD, s, 0);
    OneMoreTurn(s, 0, s);
    var one := Next(WORLD, s);
    FirstDueTurn(one);
    OneMoreTurn(s, 1, one);
    var two := Next(WORLD, one);
    SecondDueTurn(two);
    OneMoreTurn(s, 2, two);
  }
}
