/**
 A due date can ask twice. Asking for a quote books interest, and where interest is rounded up each
 time it is booked, a few quotes before a due date can book more than the instalment that date asks
 for; a payment on receipt then takes the whole balance and leaves that interest owed. The due pays
 part of the interest and turns the rest into debt, interest is still booked only up to the payment,
 and so the loan's next date is the one it has just paid. This module follows such a run, turn by
 turn, from an accepted input to its end.
 */
module DueTwice {
  import opened Dates
  import opened Contracts
  import opened Portfolio
  import opened SimState
  import opened Fees
  import opened LoanDues
  import opened Flow
  import Amortisation
  import Money
  import PlainRun
  import ProjectionMemo

  // ---------- The input ----------

  const FIRST: Date := Civil(2024, 2, 15)
  const LAST: Date := Civil(2024, 3, 15)

  /** Two instalments of two units; interest next to nothing, rounded up whenever it is booked. */
  const LOAN: Contract := Contract("loan", 1, "AMD", UNSET, UNSET, 1, Money.Actual365, Annuity, Civil(2024, 1, 15), LAST,
    15, UNSET, 2, true, Money.Policy(Money.Up, 1), Prepayment(ShortenTerm, 0, [], 0), "")

  const DEBT: Position := Position("debt", LOAN, 2, Civil(2024, 1, 15), ReducePrincipal, false)

  function Receipt(day: int, amount: int): CashEvent
    requires 1 <= day <= 28
  {
    CashEvent("", None, false, Civil(2024, 1, day), amount, false)
  }

  const RECEIPTS: seq<CashEvent> := [Receipt(16, 1), Receipt(17, 0), Receipt(18, 1)]

  const INPUT: Input := Input(DEBT.from, CashPlan(UNSET, None, 4, 0, 0, 0, RECEIPTS, map[]), [DEBT], 0)

  /** Pay on receipt, in parts of at least two. */
  const PROMPT: Policy := Policy("", false, [0], [OnReceipt], [ShortenTerm], RollFreed, 2)

  const WORLD: World := World(INPUT, PROMPT)

  lemma InputIsAccepted()
    ensures Accepted(INPUT) && Covers(PROMPT, 1) && WorldOf(INPUT, PROMPT) == WORLD && IsDay(INPUT.valuation)
  {
    hide DayNumber;
    assert Canonical(INPUT, PROMPT).effect == [ShortenTerm];
    assert !HasRouting(RECEIPTS);
  }

  // ---------- The contract ----------

  /** Interest on a unit or two over a few days is one unit. */
  lemma InterestIsOne(balance: nat, days: nat)
    requires 1 <= balance <= 2 && 1 <= days <= 100
    ensures LOAN.Interest(balance, days) == 1
  {
    var n := Money.Numerator(balance, 1, days);
    assert n == balance * days;
    assert 0 < n < Money.Divisor(Money.Actual365, LOAN.rounding);
  }

  lemma Days()
    ensures DaysBetween(Civil(2024, 1, 15), Civil(2024, 1, 16)) == 1 == DaysBetween(Civil(2024, 1, 16), Civil(2024, 1, 17))
    ensures DaysBetween(Civil(2024, 1, 17), Civil(2024, 1, 18)) == 1
    ensures DaysBetween(Civil(2024, 1, 15), FIRST) == 31 && DaysBetween(Civil(2024, 1, 18), FIRST) == 28
    ensures DaysBetween(FIRST, LAST) == 29
  {
    var t := YearMonth(FIRST);
    assert MonthStart(t) == MonthStart(t - 1) + 31 && MonthStart(t + 1) == MonthStart(t) + 29;
  }

  lemma DatesAre()
    ensures Amortisation.PaymentDates(LOAN) == Amortisation.Ok([FIRST, LAST])
  {
    hide DayNumber;
    assert Occurrence(LOAN.start, 15, 1) == FIRST && Occurrence(LOAN.start, 15, 2) == LAST;
    assert Occurrence(LOAN.start, 15, 3) == Civil(2024, 4, 15);
    assert Amortisation.DatesFrom(LOAN, 3) == [];
    assert Amortisation.DatesFrom(LOAN, 2) == [LAST];
    assert Amortisation.DatesFrom(LOAN, 1) == [FIRST, LAST];
  }

  lemma Calendar()
    ensures Amortisation.PaymentDates(LOAN) == Amortisation.Ok([FIRST, LAST])
    ensures Amortisation.DatesAhead(LOAN, Civil(2024, 1, 15)) == Amortisation.Ok([FIRST, LAST])
    ensures Amortisation.DatesAhead(LOAN, Civil(2024, 1, 18)) == Amortisation.Ok([FIRST, LAST])
    ensures Amortisation.DatesAhead(LOAN, FIRST) == Amortisation.Ok([LAST])
  {
    hide Amortisation.PaymentDates, DayNumber;
    DatesAre();
    assert Amortisation.Remaining(LOAN, [LAST], FIRST) == [LAST];
  }

  lemma Rows()
    ensures Amortisation.Ahead(DEBT.from, [FIRST, LAST])
    ensures var rows := Amortisation.LevelRows(LOAN, 2, DEBT.from, [FIRST, LAST], 2, 1);
            |rows| == 2 && rows[0].due == FIRST && rows[0].payment == 2 && rows[0].principal == 1 && rows[1].closing == 0
  {
    hide Amortisation.PaymentDates, Amortisation.DatesAhead, DaysBetween, Contract.Interest, DayNumber;
    Days();
    Calendar();
    Amortisation.DatesAheadAreAhead(LOAN, DEBT.from);
    InterestIsOne(2, 31);
    InterestIsOne(1, 29);
    assert [FIRST, LAST][1..] == [LAST] && [LAST][1..] == [];
    var two := Amortisation.LevelRow(LOAN, 1, FIRST, LAST, 2, 2);
    assert two.closing == 0;
    assert Amortisation.LevelRows(LOAN, 1, FIRST, [LAST], 2, 2) == [two];
  }

  lemma FirstObligation()
    ensures ProjectionMemo.NextFor(LOAN, ProjectionMemo.Terms(2, DEBT.from, ShortenTerm, 0)) == Amortisation.Ok(Amortisation.Obligation(FIRST, 2, 2))
  {
    hide Amortisation.PaymentDates, Amortisation.DatesAhead, Amortisation.LevelRows, DayNumber;
    Calendar();
    Rows();
  }

  // ---------- Where the run stands ----------

  /** A loan of the run: what is owed, up to which day interest is booked, and the instalment its due asks for. */
  function Owed(balance: int, accrued: nat, from: Date, used: map<int, int>): LoanState {
    LoanState(ShortenTerm, OnReceipt, balance, accrued, from, 2, FIRST, 2, 0, used, false, UNSET)
  }

  /** The run with its one loan, some cash, the receipts still waiting and the last month that brought income. */
  predicate Stands(s: Snap, l: LoanState, cash: int, lumps: seq<CashEvent>, incomeYM: int) {
    && s.loans == [l] && s.cash == cash && s.budget == 4 && s.buckets == [] && !s.hasRouting && s.lumps == lumps
    && s.nextIncome == UNSET && s.nextPeriod == UNSET && s.incomeYM == incomeYM && s.err.None? && s.memo.Forgetful?
  }

  lemma Starts()
    ensures Stands(Started(WORLD, ProjectionMemo.Forgetful), Owed(2, 0, DEBT.from, map[]), 0, RECEIPTS, 0)
  {
    hide Amortisation.PaymentDates, ProjectionMemo.NextFor, DayNumber;
    FirstObligation();
    var blank, start := Blank(WORLD, ProjectionMemo.Forgetful), Starting(DEBT, OnReceipt, ShortenTerm);
    assert blank.loans + [start] == [start] && [start][0] == start;
    var one := LoanTaken(WORLD, blank);
    assert one.loans == [Owed(2, 0, DEBT.from, map[])];
    assert LoansTaken(WORLD, blank) == one;
    assert RECEIPTS[..3] == RECEIPTS;
    assert RECEIPTS[..2] == [RECEIPTS[0], RECEIPTS[1]] && RECEIPTS[..2][..1] == [RECEIPTS[0]] && [RECEIPTS[0]][..0] == [];
    assert LumpsTaken(one, []) == one;
    assert LumpsTaken(one, [RECEIPTS[0]]).lumps == [RECEIPTS[0]];
    assert LumpsTaken(one, RECEIPTS[..2]).lumps == [RECEIPTS[0], RECEIPTS[1]];
  }

  // ---------- A receipt ----------

  /** With one loan and nothing routed, allocating is offering it the surplus. */
  lemma OneIsOffered(s: Snap, l: LoanState, cash: int, lumps: seq<CashEvent>, incomeYM: int, on: Date)
    requires Stands(s, l, cash, lumps, incomeYM) && IsDay(on) && !l.closed
    ensures var surplus := cash - Hold(l, UNSET, incomeYM);
            Allocated(WORLD, s, on) == if surplus > 0 then Offered(WORLD, s, 0, on, surplus).0 else s
  {
    hide Hold, Offered;
    PlainRun.OneHolds(s.loans, UNSET, incomeYM);
    assert RoutedFrom(WORLD, s, 0, on, -1) == s;
    var surplus := cash - Hold(l, UNSET, incomeYM);
    assert SurplusIn(WORLD, s, on) == surplus;
    if surplus > 0 {
      var (one, left) := Offered(WORLD, s, 0, on, surplus);
      assert one.err.None? ==> OfferedFrom(WORLD, one, on, left, 1) == one;
      assert OfferedFrom(WORLD, s, on, surplus, 0) == one;
    }
  }

  /** The lender charges nothing and takes any amount. */
  lemma QuoteIs(on: Date, balance: nat, accrued: nat, used: int, available: nat)
    ensures QuoteFor(LOAN, on, balance, accrued, used, available)
            == Fees.Ok(if available >= balance + accrued then Quote(balance, accrued, 0, balance + accrued, true)
                       else if available == 0 || balance == 0 then NOTHING
                       else var part := if available > balance then balance else available; Quote(part, 0, 0, part, false))
  {
  }

  /** A surplus below what the policy pays in one part only books the interest up to the day. */
  lemma OnlyAsked(s: Snap, l: LoanState, cash: int, lumps: seq<CashEvent>, incomeYM: int, on: Date, booked: LoanState)
    requires Stands(s, l, cash, lumps, incomeYM) && IsDay(on) && booked == AccruedTo(DEBT, l, on) && booked.balance == 2
    ensures Offered(WORLD, s, 0, on, 1) == (s.(loans := [booked]), 1)
  {
    hide AccruedTo, QuoteFor, AllowanceUsed;
    QuoteIs(on, booked.balance, booked.accrued, AllowanceUsed(DEBT, booked, on), 1);
    assert s.loans[0 := booked] == [booked];
  }

  /** A receipt is pooled before its day's surplus is offered. */
  lemma ReceiptIsPooled(s: Snap, l: LoanState, cash: int, lumps: seq<CashEvent>, on: Date)
    requires Stands(s, l, cash, lumps, 0) && lumps != [] && !l.closed && IsDay(on)
    ensures Stands(LumpReceived(s, 0, on), l, cash + lumps[0].amount, lumps[1..], 0)
    ensures LumpTaken(WORLD, s, 0, on) == Allocated(WORLD, LumpReceived(s, 0, on), on)
  {
    assert lumps[..0] + lumps[1..] == lumps[1..];
  }

  /** The next receipt comes before the due. */
  lemma ReceiptIsNext(s: Snap, l: LoanState, cash: int, lumps: seq<CashEvent>)
    requires Stands(s, l, cash, lumps, 0) && !l.closed && l.due == FIRST
    requires lumps == RECEIPTS || lumps == RECEIPTS[1..] || lumps == RECEIPTS[2..]
    ensures Picked(s) == Some((LumpEvent(0), lumps[0].on)) && Next(WORLD, s) == LumpTaken(WORLD, s, 0, lumps[0].on)
  {
    hide DayNumber, LumpTaken;
    var start: Option<(Event, Date)> := None;
    assert BestWake(start, []) == start;
    var first := Some((LumpEvent(0), lumps[0].on));
    assert lumps[..1] == [lumps[0]] && [lumps[0]][..0] == [];
    assert BestLump(start, []) == start;
    assert BestLump(start, lumps[..1]) == first;
    if |lumps| > 1 {
      assert lumps[..2][..1] == lumps[..1];
      assert BestLump(start, lumps[..2]) == first;
    }
    if |lumps| > 2 {
      assert lumps[..3] == lumps && lumps[..3][..2] == lumps[..2];
    }
    assert BestLump(start, lumps) == first;
    assert [l][..0] == [] && BestDue(first, []) == first;
    HorizonIsFar();
  }

  lemma HorizonIsFar()
    ensures Horizon(WORLD) == Civil(2074, 1, 15)
  {
  }

  /** A receipt that leaves a surplus of one books interest up to its day, and nothing is paid. */
  lemma BookingTurn(s: Snap, l: LoanState, cash: int, lumps: seq<CashEvent>, booked: LoanState)
    requires Stands(s, l, cash, lumps, 0) && !l.closed && l.due == FIRST && l.pending == 0
    requires lumps == RECEIPTS || lumps == RECEIPTS[1..]
    requires cash + lumps[0].amount == 1 && booked == AccruedTo(DEBT, l, lumps[0].on) && booked.balance == 2
    ensures Stands(Next(WORLD, s), booked, 1, lumps[1..], 0)
  {
    hide DayNumber, AccruedTo, LumpTaken, Allocated, Offered, LumpReceived, Next;
    var on := lumps[0].on;
    ReceiptIsNext(s, l, cash, lumps);
    ReceiptIsPooled(s, l, cash, lumps, on);
    var begun := LumpReceived(s, 0, on);
    OneIsOffered(begun, l, 1, lumps[1..], 0, on);
    OnlyAsked(begun, l, 1, lumps[1..], 0, on, booked);
  }

  const USED: map<int, int> := map[1 := 2]

  /** The third receipt pays the whole balance, and three units of interest stay owed. */
  lemma PayingTurn(s: Snap)
    requires Stands(s, Owed(2, 2, Civil(2024, 1, 17), map[]), 1, RECEIPTS[2..], 0)
    ensures Stands(Next(WORLD, s), Owed(0, 3, Civil(2024, 1, 18), USED), 0, [], 0)
  {
    hide DayNumber, LumpTaken, Allocated, LumpReceived, Next, DaysBetween, Contract.Interest, QuoteFor, ResultCredited,
      MonthCredited;
    var l, on, lumps := Owed(2, 2, Civil(2024, 1, 17), map[]), Civil(2024, 1, 18), RECEIPTS[2..];
    Days();
    InterestIsOne(2, 1);
    ReceiptIsNext(s, l, 1, lumps);
    ReceiptIsPooled(s, l, 1, lumps, on);
    var begun := LumpReceived(s, 0, on);
    OneIsOffered(begun, l, 2, [], 0, on);
    var booked := Owed(2, 3, on, map[]);
    assert AccruedTo(DEBT, l, on) == booked;
    QuoteIs(on, 2, 3, AllowanceUsed(DEBT, booked, on), 2);
    assert begun.loans[0 := booked] == [booked];
    var asked := begun.(loans := [booked]);
    assert Quoted(WORLD, begun, 0, on, 2) == (asked, Quote(2, 0, 0, 2, false));
    assert asked.loans[0 := Owed(0, 3, on, USED)] == [Owed(0, 3, on, USED)];
  }

  // ---------- The due ----------

  lemma DueIsNext(s: Snap, l: LoanState, cash: int, incomeYM: int)
    requires Stands(s, l, cash, [], incomeYM) && !l.closed && l.due == FIRST
    ensures Picked(s) == Some((DueEvent(0), FIRST)) && Next(WORLD, s) == DuePassed(WORLD, s, 0, FIRST)
  {
    hide DayNumber, DuePassed;
    var start: Option<(Event, Date)> := None;
    assert BestWake(start, []) == start == BestLump(start, []);
    assert [l][..0] == [] && BestDue(start, []) == start;
    assert BestDue(start, [l]) == Some((DueEvent(0), FIRST));
    HorizonIsFar();
  }

  /** The month's income is pooled, and with no balance left to pay on its surplus stays there. */
  lemma IncomeStays(s: Snap, l: LoanState)
    requires Stands(s, l, 0, [], 0) && l == Owed(0, 3, Civil(2024, 1, 18), USED)
    ensures Stands(DueArrived(WORLD, s, FIRST), l, 4, [], YearMonth(FIRST))
  {
    hide DayNumber, Allocated, QuoteFor, OpenBalance, Restricted, CycleRecorded;
    var taken := IncomeTaken(WORLD, s, FIRST);
    assert Stands(taken, l, 4, [], YearMonth(FIRST));
    OneIsOffered(taken, l, 4, [], YearMonth(FIRST), FIRST);
    QuoteIs(FIRST, 0, 3, AllowanceUsed(DEBT, l, FIRST), 2);
    assert taken.loans[0 := l] == taken.loans;
    assert Quoted(WORLD, taken, 0, FIRST, 2) == (taken, NOTHING);
  }

  /** A due that leaves a debt of one: the next date after the day interest is booked up to is the due itself. */
  lemma DueLeavesItsDate(s: Snap)
    requires Stands(s, Owed(0, 3, Civil(2024, 1, 18), USED), 4, [], YearMonth(FIRST))
    ensures Stands(DueSettled(WORLD, s, 0, FIRST), Owed(1, 0, Civil(2024, 1, 18), USED), 2, [], YearMonth(FIRST))
  {
    hide DayNumber, Amortisation.DatesAhead, Amortisation.PaymentDates;
    Calendar();
    var l := Owed(1, 0, Civil(2024, 1, 18), USED);
    assert s.loans[0 := s.loans[0]] == s.loans;
    assert s.loans[0 := l] == [l];
    var met := DueMet(WORLD, s, 0, FIRST);
    assert Stands(met, l, 2, [], YearMonth(FIRST));
    assert ProjectionMemo.NextFor(LOAN, TermsOf(l)) == Amortisation.Ok(Amortisation.Obligation(FIRST, 2, 2));
    assert met.loans[0 := l] == [l];
  }

  lemma NothingRouted(s: Snap, l: LoanState, cash: int, incomeYM: int)
    requires Over(WORLD, s) && s.buckets == []
    ensures Routed(WORLD, s, FIRST, 0) == s
  {
  }

  lemma FirstDueTurn(s: Snap)
    requires Stands(s, Owed(0, 3, Civil(2024, 1, 18), USED), 0, [], 0)
    ensures Stands(Next(WORLD, s), Owed(1, 0, Civil(2024, 1, 18), USED), 2, [], YearMonth(FIRST))
  {
    hide DayNumber, DueArrived, DueSettled, Next, Routed;
    var l := Owed(0, 3, Civil(2024, 1, 18), USED);
    DueIsNext(s, l, 0, 0);
    IncomeStays(s, l);
    var arrived := DueArrived(WORLD, s, FIRST);
    DueLeavesItsDate(arrived);
    NothingRouted(DueSettled(WORLD, arrived, 0, FIRST), l, 2, 0);
  }

  lemma SecondDueTurn(s: Snap)
    requires Stands(s, Owed(1, 0, Civil(2024, 1, 18), USED), 2, [], YearMonth(FIRST))
    ensures var r := Next(WORLD, s); r.err.None? && |r.loans| == 1 && r.loans[0].closed
  {
    hide DayNumber, Next, Routed, Amortisation.DatesAhead, Amortisation.PaymentDates, DaysBetween, Contract.Interest,
      Cleared, BudgetAfter;
    Calendar();
    Days();
    InterestIsOne(1, 28);
    var l := Owed(1, 0, Civil(2024, 1, 18), USED);
    DueIsNext(s, l, 2, YearMonth(FIRST));
    var booked := Owed(1, 1, FIRST, USED);
    assert AccruedTo(DEBT, l, FIRST) == booked;
    assert s.loans[0 := booked] == [booked];
    var arrived := DueArrived(WORLD, s, FIRST);
    var met := DueMet(WORLD, arrived, 0, FIRST);
    assert met.err.None? && met.loans[0].closed;
    NothingRouted(met, l, 0, 0);
  }

  // ---------- The run ----------

  lemma OneMoreTurn(s: Snap, n: nat, r: Snap)
    requires Over(WORLD, s) && IsDay(INPUT.valuation) && Steps(WORLD, s, n) == r && r.err.None? && |r.loans| == 1 && !r.loans[0].closed
    ensures Steps(WORLD, s, n + 1) == Next(WORLD, r)
  {
    hide Next, Steps;
    StepsOneMore(WORLD, s, n);
    assert !AllShut(r);
  }

  /**
   An accepted input whose run pays the same due date twice: after three receipts and the due, the
   loan is open, its next due is the date just paid, and the next turn pays that date again.
   */
  lemma TheSameDueComesTwice()
    ensures Accepted(INPUT) && Covers(PROMPT, 1)
    ensures var w := WorldOf(INPUT, PROMPT);
            var start := Started(w, ProjectionMemo.Forgetful);
            && IsDay(INPUT.valuation) && start.err.None?
            && Picked(Steps(w, start, 3)) == Some((DueEvent(0), FIRST))
            && Steps(w, start, 4).err.None? && !Ended(Steps(w, start, 4))
            && Picked(Steps(w, start, 4)) == Some((DueEvent(0), FIRST))
            && Ended(Steps(w, start, 5)) && Steps(w, start, 5).err.None?
  {
    hide Started, Steps, Next, DayNumber, DaysBetween, Contract.Interest, Picked;
    InputIsAccepted();
    Starts();
    Days();
    InterestIsOne(2, 1);
    var s := Started(WORLD, ProjectionMemo.Forgetful);
    var one := Next(WORLD, s);
    StepsFromNone(s);
    OneMoreTurn(s, 0, s);
    BookingTurn(s, Owed(2, 0, DEBT.from, map[]), 0, RECEIPTS, Owed(2, 1, Civil(2024, 1, 16), map[]));
    OneMoreTurn(s, 1, one);
    var two := Next(WORLD, one);
    BookingTurn(one, Owed(2, 1, Civil(2024, 1, 16), map[]), 1, RECEIPTS[1..], Owed(2, 2, Civil(2024, 1, 17), map[]));
    OneMoreTurn(s, 2, two);
    assert RECEIPTS[1..][1..] == RECEIPTS[2..];
    var three := Next(WORLD, two);
    PayingTurn(two);
    DueIsNext(three, Owed(0, 3, Civil(2024, 1, 18), USED), 0, 0);
    OneMoreTurn(s, 3, three);
    var four := Next(WORLD, three);
    FirstDueTurn(three);
    DueIsNext(four, Owed(1, 0, Civil(2024, 1, 18), USED), 2, YearMonth(FIRST));
    OneMoreTurn(s, 4, four);
    SecondDueTurn(four);
    assert !four.loans[0].closed;
  }

  lemma StepsFromNone(s: Snap)
    requires Over(WORLD, s) && IsDay(INPUT.valuation)
    ensures Steps(WORLD, s, 0) == s
  {
  }
}
