/**
 Repayment schedules: the contract's instalment dates, the two ways of walking them, and
 the level instalment found by bisection. Loops are proved against the recursive
 definitions beside them; what a lender's paperwork promises is proved of those.
 */
module Amortisation {
  import opened Dates
  import opened Contracts
  import Money

  const MAX_PERIODS: nat := 600

  datatype Refusal =
    | NoDates              // no start or maturity, maturity not after start, none or too many instalments
    | NothingAhead         // every instalment date has passed
    | NotPositive          // the principal or the instalment is not positive
    | BalanceWouldGrow     // a stated instalment below the first interest
    | LeavesBalance        // a stated instalment that does not clear by maturity
    | DiffersFromBank      // a declining payment that contradicts the bank's figure

  datatype Result<+T> = Ok(value: T) | Err(refusal: Refusal) {
    predicate IsFailure() { Err? }
    function PropagateFailure<U>(): Result<U> requires Err? { Err(refusal) }
    function Extract(): T requires Ok? { value }
  }

  // ---------- Instalment dates ----------

  function ContractDay(c: Contract): int {
    if c.paymentDay == 0 then c.start.d else c.paymentDay
  }

  /** The contract's dates from its nth on, up to maturity and the period bound. */
  function DatesFrom(c: Contract, n: nat): seq<Date>
    requires IsSet(c.start)
    decreases MAX_PERIODS + 1 - n
  {
    if n > MAX_PERIODS then []
    else
      var d := Occurrence(c.start, ContractDay(c), n);
      if After(d, c.maturity) then [] else [d] + DatesFrom(c, n + 1)
  }

  function PaymentDates(c: Contract): Result<seq<Date>> {
    if !IsSet(c.start) || !IsSet(c.maturity) || !After(c.maturity, c.start) then Err(NoDates)
    else
      var dates := DatesFrom(c, 1);
      if |dates| == 0 || |dates| == MAX_PERIODS then Err(NoDates) else Ok(dates)
  }

  lemma {:induction false} DatesFromAt(c: Contract, n: nat, i: nat)
    requires IsSet(c.start) && i < |DatesFrom(c, n)|
    ensures DatesFrom(c, n)[i] == Occurrence(c.start, ContractDay(c), n + i)
    ensures !After(DatesFrom(c, n)[i], c.maturity)
    decreases i
  {
    hide Clamp, After, Compare, DayNumber, ContractDay;
    if i > 0 {
      DatesFromAt(c, n + 1, i - 1);
    }
  }

  /** The walk over occurrences stops only at the period bound or past maturity. */
  lemma {:induction false} DatesFromStop(c: Contract, n: nat)
    requires IsSet(c.start) && n <= MAX_PERIODS + 1
    ensures var k := n + |DatesFrom(c, n)|;
            k <= MAX_PERIODS + 1 && (k <= MAX_PERIODS ==> After(Occurrence(c.start, ContractDay(c), k), c.maturity))
    decreases MAX_PERIODS + 1 - n
  {
    hide Clamp, After, Compare, DayNumber, ContractDay;
    if n <= MAX_PERIODS && !After(Occurrence(c.start, ContractDay(c), n), c.maturity) {
      DatesFromStop(c, n + 1);
    }
  }

  /**
   A resolved calendar is exactly the occurrences after the start and up to maturity, one
   for each calendar month, in order: none missing, none extra.
   */
  lemma PaymentDatesAreTheOccurrences(c: Contract)
    requires PaymentDates(c).Ok?
    ensures var dates := PaymentDates(c).value;
            && IsSet(c.start)
            && (forall i :: 0 <= i < |dates| ==>
                  && dates[i] == Occurrence(c.start, ContractDay(c), i + 1)
                  && Before(c.start, dates[i]) && !After(dates[i], c.maturity))
            && (forall n: nat :: n >= 1 && !After(Occurrence(c.start, ContractDay(c), n), c.maturity) ==> n <= |dates|)
  {
    hide Clamp, After, Before, Compare, DayNumber, ContractDay, DatesFrom;
    var dates := PaymentDates(c).value;
    var day := ContractDay(c);
    forall i | 0 <= i < |dates|
      ensures dates[i] == Occurrence(c.start, day, i + 1)
      ensures Before(c.start, dates[i]) && !After(dates[i], c.maturity)
    {
      DatesFromAt(c, 1, i);
      OccurrencesIncrease(c.start, day, i, i + 1);
    }
    DatesFromStop(c, 1);
    forall n: nat | n > |dates|
      ensures After(Occurrence(c.start, day, n), c.maturity)
    {
      if n > |dates| + 1 {
        OccurrencesIncrease(c.start, day, |dates| + 1, n);
      }
    }
  }

  lemma CalendarIsAhead(c: Contract)
    requires PaymentDates(c).Ok?
    ensures IsSet(c.start) && PaymentDates(c).value != [] && Ahead(c.start, PaymentDates(c).value)
  {
    hide Clamp, After, Before, Compare, DayNumber, ContractDay, DatesFrom;
    var dates := PaymentDates(c).value;
    forall i | 0 <= i < |dates|
      ensures dates[i] == Occurrence(c.start, ContractDay(c), 0 + 1 + i)
    {
      DatesFromAt(c, 1, i);
    }
    OccurrencesAhead(c, c.start, 0, dates);
  }

  lemma {:induction false} OccurrencesAhead(c: Contract, prev: Date, n: nat, dates: seq<Date>)
    requires IsSet(c.start) && IsSet(prev)
    requires prev == (if n == 0 then c.start else Occurrence(c.start, ContractDay(c), n))
    requires forall i :: 0 <= i < |dates| ==> dates[i] == Occurrence(c.start, ContractDay(c), n + 1 + i)
    ensures Ahead(prev, dates)
    decreases |dates|
  {
    if dates != [] {
      LaterMonthIsAfter(prev, dates[0]);
      OccurrencesAhead(c, dates[0], n + 1, dates[1..]);
    }
  }

  /** Dates that strictly increase, starting after `prev`. */
  predicate Ahead(prev: Date, dates: seq<Date>)
    decreases |dates|
  {
    dates == [] || (IsSet(dates[0]) && Before(prev, dates[0]) && Ahead(dates[0], dates[1..]))
  }

  /** Whether a calendar date is no longer ahead of `from`, or comes before the bank's first due date. */
  predicate Passed(c: Contract, d: Date, from: Date) {
    (IsSet(from) && !After(d, from)) || (IsSet(c.notBeforeDue) && Before(d, c.notBeforeDue))
  }

  /** The dates still ahead: the calendar without its passed prefix. */
  function Remaining(c: Contract, dates: seq<Date>, from: Date): (r: seq<Date>)
    ensures |r| <= |dates|
  {
    if dates != [] && Passed(c, dates[0], from) then Remaining(c, dates[1..], from) else dates
  }

  lemma {:induction false} RemainingIsASuffix(c: Contract, dates: seq<Date>, from: Date)
    ensures var r := Remaining(c, dates, from);
            && r == dates[|dates| - |r|..]
            && (r != [] ==> !Passed(c, r[0], from))
  {
    if dates != [] && Passed(c, dates[0], from) {
      RemainingIsASuffix(c, dates[1..], from);
    }
  }

  function DatesAhead(c: Contract, from: Date): (r: Result<seq<Date>>)
    ensures r.Ok? ==> r.value != []
  {
    var dates :- PaymentDates(c);
    var r := Remaining(c, dates, from);
    if r == [] then Err(NothingAhead) else Ok(r)
  }

  /** The day interest starts from: the anchor, or the drawdown when there is none. */
  function Anchor(c: Contract, from: Date): Date {
    if IsSet(from) then from else c.start
  }

  lemma {:induction false} RemainingIsAhead(c: Contract, prev: Date, dates: seq<Date>, from: Date)
    requires Ahead(prev, dates)
    ensures IsSet(from) ==> Ahead(from, Remaining(c, dates, from))
    ensures Ahead(prev, Remaining(c, dates, from))
    decreases |dates|
  {
    if dates != [] {
      if Passed(c, dates[0], from) {
        RemainingIsAhead(c, dates[0], dates[1..], from);
        AheadFromEarlier(prev, dates[0], Remaining(c, dates[1..], from));
      } else if IsSet(from) {
        CompareIsDayOrder(dates[0], from);
        CompareIsDayOrder(from, dates[0]);
      }
    }
  }

  lemma AheadFromEarlier(prev: Date, later: Date, dates: seq<Date>)
    requires Before(prev, later) && Ahead(later, dates)
    ensures Ahead(prev, dates)
  {
    if dates != [] {
      CompareIsDayOrder(prev, later);
      CompareIsDayOrder(later, dates[0]);
      CompareIsDayOrder(prev, dates[0]);
    }
  }

  /** A calendar still ahead follows the day interest starts from, and ends with the contract's last date. */
  lemma DatesAheadAreAhead(c: Contract, from: Date)
    requires DatesAhead(c, from).Ok?
    ensures PaymentDates(c).Ok? && IsSet(c.start) && IsSet(Anchor(c, from))
    ensures var dates, all := DatesAhead(c, from).value, PaymentDates(c).value;
            && dates != [] && Ahead(Anchor(c, from), dates)
            && |dates| <= |all| && dates == all[|all| - |dates|..]
  {
    hide DayNumber, DatesFrom, Compare, Clamp;
    CalendarIsAhead(c);
    RemainingIsASuffix(c, PaymentDates(c).value, from);
    RemainingIsAhead(c, c.start, PaymentDates(c).value, from);
  }

  /** The dates ahead are exactly the contract's dates after a day and not before the bank's first due date. */
  lemma DatesAheadAreExactly(c: Contract, from: Date, d: Date)
    requires DatesAhead(c, from).Ok? && IsSet(from)
    ensures d in DatesAhead(c, from).value
            <==> d in PaymentDates(c).value && After(d, from) && (IsSet(c.notBeforeDue) ==> !Before(d, c.notBeforeDue))
  {
    hide DayNumber, DatesFrom, Compare, Clamp;
    DatesAheadAreAhead(c, from);
    CalendarIsAhead(c);
    RemainingAreExactly(c, c.start, PaymentDates(c).value, from, d);
  }

  lemma {:induction false} RemainingAreExactly(c: Contract, prev: Date, dates: seq<Date>, from: Date, d: Date)
    requires Ahead(prev, dates) && IsSet(from)
    ensures d in Remaining(c, dates, from)
            <==> d in dates && After(d, from) && (IsSet(c.notBeforeDue) ==> !Before(d, c.notBeforeDue))
    decreases |dates|
  {
    hide DayNumber;
    if dates != [] {
      assert dates == [dates[0]] + dates[1..];
      if Passed(c, dates[0], from) {
        RemainingAreExactly(c, dates[0], dates[1..], from, d);
      } else {
        NoneIsEarlier(dates[0], dates[1..], d);
      }
    }
  }

  lemma {:induction false} NoneIsEarlier(prev: Date, dates: seq<Date>, d: Date)
    requires Ahead(prev, dates)
    ensures d in dates ==> Before(prev, d)
    decreases |dates|
  {
    hide DayNumber;
    if dates != [] {
      assert dates == [dates[0]] + dates[1..];
      NoneIsEarlier(dates[0], dates[1..], d);
    }
  }

  method ResolveCalendar(c: Contract) returns (r: Result<seq<Date>>)
    ensures r == PaymentDates(c)
  {
    hide Occurrence, Clamp, After, Compare, DayNumber, ContractDay;
    if !IsSet(c.start) || !IsSet(c.maturity) || !After(c.maturity, c.start) {
      return Err(NoDates);
    }
    var out: seq<Date> := [];
    var n := 1;
    while n <= MAX_PERIODS
      invariant 1 <= n <= MAX_PERIODS + 1
      invariant DatesFrom(c, 1) == out + DatesFrom(c, n)
    {
      var d := Occurrence(c.start, ContractDay(c), n);
      if After(d, c.maturity) {
        break;
      }
      assert out + DatesFrom(c, n) == out + [d] + DatesFrom(c, n + 1);
      out := out + [d];
      n := n + 1;
    }
    assert DatesFrom(c, n) == [];
    assert DatesFrom(c, 1) == out;
    if |out| == 0 || |out| == MAX_PERIODS {
      return Err(NoDates);
    }
    return Ok(out);
  }

  method RemainingDates(c: Contract, dates: seq<Date>, from: Date) returns (r: Result<seq<Date>>)
    ensures r == if Remaining(c, dates, from) == [] then Err(NothingAhead) else Ok(Remaining(c, dates, from))
  {
    if !IsSet(from) && !IsSet(c.notBeforeDue) && dates != [] {
      return Ok(dates);
    }
    var i := 0;
    while i < |dates| && Passed(c, dates[i], from)
      invariant 0 <= i <= |dates|
      invariant Remaining(c, dates, from) == Remaining(c, dates[i..], from)
    {
      assert dates[i..][1..] == dates[i + 1..];
      i := i + 1;
    }
    if i == |dates| {
      return Err(NothingAhead);
    }
    return Ok(dates[i..]);
  }

  // ---------- Schedules ----------

  datatype Row = Row(n: nat, due: Date, days: nat, opening: nat, interest: nat, principal: int, payment: int, closing: nat)

  /** What a walk produces once its rows are dropped. */
  datatype Outcome = Outcome(periods: nat, firstDue: Date, firstInterest: int, firstPrincipal: int, firstPayment: int,
                             finalPayment: int, finalClosing: int, totalPaid: int, totalInterest: int)

  const NO_ROWS: Outcome := Outcome(0, UNSET, 0, 0, 0, 0, 0, 0, 0)

  function TotalPaid(rows: seq<Row>): int {
    if rows == [] then 0 else rows[0].payment + TotalPaid(rows[1..])
  }

  function TotalInterest(rows: seq<Row>): int {
    if rows == [] then 0 else rows[0].interest + TotalInterest(rows[1..])
  }

  function OutcomeOf(rows: seq<Row>): Outcome {
    if rows == [] then NO_ROWS
    else
      var first, last := rows[0], rows[|rows| - 1];
      Outcome(|rows|, first.due, first.interest, first.principal, first.payment,
              last.payment, last.closing, TotalPaid(rows), TotalInterest(rows))
  }

  /** One level row: the instalment, or all that is owed when that is less. */
  function LevelRow(c: Contract, balance: nat, prev: Date, due: Date, instalment: int, n: nat): Row
    requires IsSet(prev) && IsSet(due) && Before(prev, due) && instalment > 0
  {
    var days := DaysBetween(prev, due);
    var interest := c.Interest(balance, days);
    var owed := balance + interest;
    var pay := if instalment >= owed then owed else instalment;
    Row(n, due, days, balance, interest, pay - interest, pay, balance - (pay - interest))
  }

  function LevelRows(c: Contract, balance: nat, prev: Date, dates: seq<Date>, instalment: int, n: nat): seq<Row>
    requires IsSet(prev) && Ahead(prev, dates) && instalment > 0
    decreases |dates|
  {
    if dates == [] || balance == 0 then []
    else
      var row := LevelRow(c, balance, prev, dates[0], instalment, n);
      [row] + LevelRows(c, row.closing, dates[0], dates[1..], instalment, n + 1)
  }

  /** One declining row: the fixed principal part, or the whole balance at the end. */
  function DecliningRow(c: Contract, balance: nat, prev: Date, due: Date, per: nat, last: bool, n: nat): Row
    requires IsSet(prev) && IsSet(due) && Before(prev, due)
  {
    var days := DaysBetween(prev, due);
    var interest := c.Interest(balance, days);
    var part := if last || balance < per then balance else per;
    Row(n, due, days, balance, interest, part, part + interest, balance - part)
  }

  function DecliningRows(c: Contract, balance: nat, prev: Date, dates: seq<Date>, per: nat, n: nat): seq<Row>
    requires IsSet(prev) && Ahead(prev, dates)
    decreases |dates|
  {
    if dates == [] then []
    else
      var row := DecliningRow(c, balance, prev, dates[0], per, |dates| == 1, n);
      [row] + if row.closing == 0 then [] else DecliningRows(c, row.closing, dates[0], dates[1..], per, n + 1)
  }

  /** The principal part of a declining row: the even share, rounded down to whole units. */
  function EvenShare(principal: nat, periods: nat, unit: int): (per: nat)
    requires periods > 0 && unit > 0
    ensures per * periods <= principal
  {
    var share := Money.Quotient(Money.Quotient(principal, periods), unit) * unit;
    Money.MulMonotone(share, principal / periods, periods);
    share
  }

  /** The bank's own figure for its first due date contradicts the declining schedule. */
  predicate Contradicts(c: Contract, row: Row) {
    c.hasScheduled && IsSet(c.notBeforeDue) && row.due == c.notBeforeDue && row.payment != c.scheduledPayment
  }

  predicate Contradicted(c: Contract, rows: seq<Row>) {
    exists i :: 0 <= i < |rows| && Contradicts(c, rows[i])
  }

  method WalkLevel(c: Contract, principal: nat, instalment: int, prev0: Date, dates: seq<Date>)
    returns (out: Outcome, rows: seq<Row>)
    requires IsSet(prev0) && Ahead(prev0, dates) && instalment > 0
    ensures rows == LevelRows(c, principal, prev0, dates, instalment, 1)
    ensures out == OutcomeOf(rows)
  {
    hide Contract.Interest, DayNumber, DaysBetween, Before, Compare, OutcomeOf, Record;
    EmptyOutcome();
    out, rows := NO_ROWS, [];
    var balance: nat, prev: Date := principal, prev0;
    ghost var rest := LevelRows(c, principal, prev0, dates, instalment, 1);
    assert dates == dates[0..];
    var i := 0;
    while i < |dates| && balance > 0
      invariant 0 <= i <= |dates| && IsSet(prev) && Ahead(prev, dates[i..])
      invariant rest == LevelRows(c, balance, prev, dates[i..], instalment, i + 1)
      invariant rows + rest == LevelRows(c, principal, prev0, dates, instalment, 1)
      invariant out == OutcomeOf(rows)
    {
      assert dates[i..][0] == dates[i] && dates[i..][1..] == dates[i + 1..];
      var due := dates[i];
      var days := DaysBetween(prev, due);
      var interest := c.Interest(balance, days);
      var owed := balance + interest;
      var pay := instalment;
      if pay >= owed {
        pay := owed;
      }
      var principalPart := pay - interest;
      var closing := balance - principalPart;
      var row := Row(i + 1, due, days, balance, interest, principalPart, pay, closing);
      assert row == LevelRow(c, balance, prev, due, instalment, i + 1);
      assert rest == [row] + LevelRows(c, closing, due, dates[i + 1..], instalment, i + 2);
      rest := rest[1..];
      AppendRow(rows, row, rest);
      rows := rows + [row];
      out := Record(out, row);
      balance, prev := closing, due;
      i := i + 1;
    }
    assert rest == [] && rows + rest == rows;
  }

  /** The outcome after one more row. */
  function Record(out: Outcome, row: Row): Outcome {
    var next := out.(periods := out.periods + 1, finalPayment := row.payment, finalClosing := row.closing,
                     totalPaid := out.totalPaid + row.payment, totalInterest := out.totalInterest + row.interest);
    if out.periods > 0 then next
    else next.(firstDue := row.due, firstInterest := row.interest,
               firstPrincipal := row.principal, firstPayment := row.payment)
  }

  lemma EmptyOutcome()
    ensures OutcomeOf([]) == NO_ROWS
  {
  }

  /** Recording rows one at a time is the outcome of them all. */
  lemma AppendRow(rows: seq<Row>, row: Row, rest: seq<Row>)
    ensures rows + ([row] + rest) == rows + [row] + rest
    ensures OutcomeOf(rows + [row]) == Record(OutcomeOf(rows), row)
  {
    TotalsOfOneMore(rows, row);
  }

  lemma {:induction false} TotalsOfOneMore(rows: seq<Row>, row: Row)
    ensures TotalPaid(rows + [row]) == TotalPaid(rows) + row.payment
    ensures TotalInterest(rows + [row]) == TotalInterest(rows) + row.interest
  {
    if rows != [] {
      assert (rows + [row])[1..] == rows[1..] + [row];
      TotalsOfOneMore(rows[1..], row);
    }
  }

  lemma NothingContradicted(c: Contract)
    ensures !Contradicted(c, [])
  {
  }

  lemma ContradictionIn(c: Contract, rows: seq<Row>, row: Row, rest: seq<Row>)
    ensures Contradicts(c, row) ==> Contradicted(c, rows + ([row] + rest))
    ensures !Contradicts(c, row) && !Contradicted(c, rows) ==> !Contradicted(c, rows + [row])
  {
    assert (rows + ([row] + rest))[|rows|] == row;
  }

  lemma DecliningUnfolds(c: Contract, balance: nat, prev: Date, dates: seq<Date>, i: nat, per: nat, n: nat)
    requires IsSet(prev) && i < |dates| && Ahead(prev, dates[i..])
    ensures IsSet(dates[i]) && Before(prev, dates[i]) && Ahead(dates[i], dates[i + 1..])
    ensures var row := DecliningRow(c, balance, prev, dates[i], per, i == |dates| - 1, n);
            DecliningRows(c, balance, prev, dates[i..], per, n)
            == [row] + if row.closing == 0 then [] else DecliningRows(c, row.closing, dates[i], dates[i + 1..], per, n + 1)
  {
    hide DecliningRow, DayNumber, Before;
    assert dates[i..][0] == dates[i] && dates[i..][1..] == dates[i + 1..];
  }

  lemma NoRowsLeft(c: Contract, balance: nat, prev: Date, dates: seq<Date>, per: nat, n: nat)
    requires IsSet(prev) && Ahead(prev, dates[|dates|..])
    ensures DecliningRows(c, balance, prev, dates[|dates|..], per, n) == []
  {
  }

  method WalkDeclining(c: Contract, principal: nat, prev0: Date, dates: seq<Date>)
    returns (r: Result<(Outcome, seq<Row>)>)
    requires IsSet(prev0) && Ahead(prev0, dates) && dates != []
    ensures var rows := DecliningRows(c, principal, prev0, dates, EvenShare(principal, |dates|, c.rounding.Unit()), 1);
            r == if Contradicted(c, rows) then Err(DiffersFromBank) else Ok((OutcomeOf(rows), rows))
  {
    hide Contract.Interest, DayNumber, DaysBetween, Before, Compare, EvenShare, Contradicts, Contradicted, DecliningRow,
      DecliningRows, OutcomeOf, Record, Ahead;
    EmptyOutcome();
    NothingContradicted(c);
    var per := EvenShare(principal, |dates|, c.rounding.Unit());
    ghost var all := DecliningRows(c, principal, prev0, dates, per, 1);
    ghost var rest := all;
    var out, rows := NO_ROWS, [];
    var balance: nat, prev: Date, open := principal, prev0, true;
    assert dates == dates[0..];
    var i := 0;
    while i < |dates| && open
      invariant 0 <= i <= |dates| && IsSet(prev) && Ahead(prev, dates[i..])
      invariant rest == if open then DecliningRows(c, balance, prev, dates[i..], per, i + 1) else []
      invariant all == rows + rest
      invariant out == OutcomeOf(rows) && !Contradicted(c, rows)
    {
      DecliningUnfolds(c, balance, prev, dates, i, per, i + 1);
      var due := dates[i];
      var row := DecliningRow(c, balance, prev, due, per, i == |dates| - 1, i + 1);
      assert rest == [row] + rest[1..];
      ContradictionIn(c, rows, row, rest[1..]);
      if Contradicts(c, row) {
        return Err(DiffersFromBank);
      }
      rest := rest[1..];
      AppendRow(rows, row, rest);
      rows := rows + [row];
      out := Record(out, row);
      balance, prev := row.closing, due;
      open := balance != 0;
      i := i + 1;
    }
    if open {
      NoRowsLeft(c, balance, prev, dates, per, i + 1);
    }
    assert rest == [] && all == rows;
    return Ok((out, rows));
  }

  // ---------- The level instalment ----------

  /** The balance a level instalment leaves after walking the dates. */
  function Closing(c: Contract, balance: nat, prev: Date, dates: seq<Date>, instalment: int): nat
    requires IsSet(prev) && Ahead(prev, dates) && instalment > 0
    decreases |dates|
  {
    if dates == [] || balance == 0 then balance
    else Closing(c, LevelRow(c, balance, prev, dates[0], instalment, 1).closing, dates[0], dates[1..], instalment)
  }

  lemma {:induction false} ClosingIsTheLastRow(c: Contract, balance: nat, prev: Date, dates: seq<Date>, instalment: int, n: nat)
    requires IsSet(prev) && Ahead(prev, dates) && instalment > 0
    ensures var rows := LevelRows(c, balance, prev, dates, instalment, n);
            Closing(c, balance, prev, dates, instalment) == if rows == [] then balance else rows[|rows| - 1].closing
    decreases |dates|
  {
    hide Contract.Interest, DayNumber;
    if dates != [] && balance > 0 {
      var row := LevelRow(c, balance, prev, dates[0], instalment, n);
      ClosingIsTheLastRow(c, row.closing, dates[0], dates[1..], instalment, n + 1);
    }
  }

  /** A larger instalment or a smaller balance never leaves more: what bisection rests on. */
  lemma {:induction false} ClosingIsAntitone(c: Contract, balance: nat, balance': nat, prev: Date, dates: seq<Date>,
                                             instalment: int, instalment': int)
    requires IsSet(prev) && Ahead(prev, dates) && 0 < instalment' <= instalment && balance <= balance'
    ensures Closing(c, balance, prev, dates, instalment) <= Closing(c, balance', prev, dates, instalment')
    decreases |dates|
  {
    hide Contract.Interest, DayNumber;
    if dates != [] {
      var days := DaysBetween(prev, dates[0]);
      c.InterestIsMonotone(balance, balance', days, days);
      var closing := LevelRow(c, balance, prev, dates[0], instalment, 1).closing;
      var closing' := LevelRow(c, balance', prev, dates[0], instalment', 1).closing;
      ClosingIsAntitone(c, closing, closing', dates[0], dates[1..], instalment, instalment');
      if balance == 0 && balance' > 0 {
        ClosedStaysClosed(c, dates[0], dates[1..], instalment);
      }
    }
  }

  lemma ClosedStaysClosed(c: Contract, prev: Date, dates: seq<Date>, instalment: int)
    requires IsSet(prev) && Ahead(prev, dates) && instalment > 0
    ensures Closing(c, 0, prev, dates, instalment) == 0
  {
  }

  /** What the bisection asks of a candidate: it produces a row and its last row closes the loan. */
  predicate Clears(c: Contract, principal: nat, prev: Date, dates: seq<Date>, instalment: int)
    requires IsSet(prev) && Ahead(prev, dates) && instalment > 0
  {
    var out := OutcomeOf(LevelRows(c, principal, prev, dates, instalment, 1));
    out.periods > 0 && out.finalClosing <= 0
  }

  lemma ClearsIsClosingZero(c: Contract, principal: nat, prev: Date, dates: seq<Date>, instalment: int)
    requires IsSet(prev) && Ahead(prev, dates) && instalment > 0 && principal > 0 && dates != []
    ensures Clears(c, principal, prev, dates, instalment) <==> Closing(c, principal, prev, dates, instalment) == 0
  {
    hide Contract.Interest, DayNumber;
    ClosingIsTheLastRow(c, principal, prev, dates, instalment, 1);
  }

  function CeilDiv(a: int, b: int): (q: int)
    requires b > 0
    ensures q >= 1 && q * b >= a
  {
    if a <= 0 then 1
    else
      var q := Money.Quotient(a + b - 1, b);
      assert a + b - 1 == q * b + Money.Remainder(a + b - 1, b);
      q
  }

  /** The whole loan settled on the first date, in settlement units: no candidate need be larger. */
  function UpperBound(c: Contract, principal: nat, prev: Date, dates: seq<Date>): (u: int)
    requires IsSet(prev) && Ahead(prev, dates) && dates != []
    ensures u >= 1
  {
    CeilDiv(principal + c.Interest(principal, DaysBetween(prev, dates[0])), c.rounding.Unit())
  }

  lemma UpperBoundClears(c: Contract, principal: nat, prev: Date, dates: seq<Date>)
    requires IsSet(prev) && Ahead(prev, dates) && dates != [] && principal > 0
    ensures UpperBound(c, principal, prev, dates) * c.rounding.Unit() > 0
    ensures Clears(c, principal, prev, dates, UpperBound(c, principal, prev, dates) * c.rounding.Unit())
  {
    hide Contract.Interest, DayNumber, CeilDiv;
    var u, unit := UpperBound(c, principal, prev, dates), c.rounding.Unit();
    Money.MulMonotone(1, u, unit);
    ClearsIsClosingZero(c, principal, prev, dates, u * unit);
    ClosedStaysClosed(c, dates[0], dates[1..], u * unit);
  }

  predicate UnitsClear(c: Contract, principal: nat, prev: Date, dates: seq<Date>, units: int)
    requires IsSet(prev) && Ahead(prev, dates) && units >= 1
  {
    PositiveUnits(units, c.rounding.Unit());
    Clears(c, principal, prev, dates, units * c.rounding.Unit())
  }

  lemma PositiveUnits(units: int, unit: int)
    requires units >= 1 && unit >= 1
    ensures units * unit >= 1
  {
    Money.MulMonotone(1, units, unit);
  }

  /** Once some number of units clears the loan, every larger number does. */
  lemma MoreUnitsClear(c: Contract, principal: nat, prev: Date, dates: seq<Date>, units: int, more: int)
    requires IsSet(prev) && Ahead(prev, dates) && dates != [] && principal > 0 && 1 <= units <= more
    requires UnitsClear(c, principal, prev, dates, units)
    ensures UnitsClear(c, principal, prev, dates, more)
  {
    hide Contract.Interest, DayNumber, Clears;
    var unit := c.rounding.Unit();
    PositiveUnits(units, unit);
    PositiveUnits(more, unit);
    Money.MulMonotone(units, more, unit);
    ClearsIsClosingZero(c, principal, prev, dates, units * unit);
    ClearsIsClosingZero(c, principal, prev, dates, more * unit);
    ClosingIsAntitone(c, principal, principal, prev, dates, more * unit, units * unit);
  }

  /** The least number of settlement units from `units` on that clears the loan. */
  function LeastUnitsFrom(c: Contract, principal: nat, prev: Date, dates: seq<Date>, units: int, bound: int): (u: int)
    requires IsSet(prev) && Ahead(prev, dates) && 1 <= units <= bound
    requires UnitsClear(c, principal, prev, dates, bound)
    ensures units <= u <= bound && UnitsClear(c, principal, prev, dates, u)
    ensures forall v :: units <= v < u ==> !UnitsClear(c, principal, prev, dates, v)
    decreases bound - units
  {
    if UnitsClear(c, principal, prev, dates, units) then units
    else LeastUnitsFrom(c, principal, prev, dates, units + 1, bound)
  }

  /** The level instalment: the least positive number of settlement units that clears the loan. */
  function LevelInstalment(c: Contract, principal: nat, prev: Date, dates: seq<Date>): (instalment: int)
    requires IsSet(prev) && Ahead(prev, dates) && dates != [] && principal > 0
    ensures instalment >= 1
  {
    UpperBoundClears(c, principal, prev, dates);
    var u := LeastUnitsFrom(c, principal, prev, dates, 1, UpperBound(c, principal, prev, dates));
    PositiveUnits(u, c.rounding.Unit());
    u * c.rounding.Unit()
  }

  /**
   The level instalment is a whole number of settlement units, clears the loan, and every
   positive whole number of units clears it exactly when it is no smaller.
   */
  lemma LevelInstalmentIsLeast(c: Contract, principal: nat, prev: Date, dates: seq<Date>, units: int)
    requires IsSet(prev) && Ahead(prev, dates) && dates != [] && principal > 0 && units >= 1
    ensures var instalment := LevelInstalment(c, principal, prev, dates);
            && instalment % c.rounding.Unit() == 0 && Clears(c, principal, prev, dates, instalment)
            && (UnitsClear(c, principal, prev, dates, units) <==> instalment <= units * c.rounding.Unit())
  {
    hide Contract.Interest, DayNumber, Clears, UpperBound;
    UpperBoundClears(c, principal, prev, dates);
    var unit := c.rounding.Unit();
    var u := LeastUnitsFrom(c, principal, prev, dates, 1, UpperBound(c, principal, prev, dates));
    Money.ModMultiple(u, unit);
    if u <= units {
      Money.MulMonotone(u, units, unit);
      MoreUnitsClear(c, principal, prev, dates, u, units);
    } else {
      Money.MulMonotone(units + 1, u, unit);
      assert (units + 1) * unit == units * unit + unit;
    }
  }

  /**
   Bisection for the level instalment, with every candidate walked by the same loop. The
   refusal for an upper bound that does not clear is never taken.
   */
  method Solve(c: Contract, principal: int, from: Date) returns (r: Result<int>)
    ensures principal <= 0 ==> r == Err(NotPositive)
    ensures principal > 0 && DatesAhead(c, from).Err? ==> r == Err(DatesAhead(c, from).refusal)
    ensures principal > 0 && DatesAhead(c, from).Ok? ==>
              && IsSet(Anchor(c, from)) && Ahead(Anchor(c, from), DatesAhead(c, from).value)
              && DatesAhead(c, from).value != []
              && r == Ok(LevelInstalment(c, principal, Anchor(c, from), DatesAhead(c, from).value))
  {
    hide Contract.Interest, DayNumber, UpperBound, Remaining, PaymentDates;
    if principal <= 0 {
      return Err(NotPositive);
    }
    var calendar := ResolveCalendar(c);
    if calendar.Err? {
      return Err(calendar.refusal);
    }
    var ahead := RemainingDates(c, calendar.value, from);
    if ahead.Err? {
      return Err(ahead.refusal);
    }
    var dates := ahead.value;
    DatesAheadAreAhead(c, from);
    var prev, unit := Anchor(c, from), c.rounding.Unit();
    var lo, hi := 1, UpperBound(c, principal, prev, dates);
    UpperBoundClears(c, principal, prev, dates);
    ghost var bound := hi;
    var whole, _ := WalkLevel(c, principal, hi * unit, prev, dates);
    if whole.periods == 0 || whole.finalClosing > 0 {
      assert false; // paying everything on the first date always clears
    }
    while lo < hi
      invariant 1 <= lo <= hi <= bound
      invariant UnitsClear(c, principal, prev, dates, hi)
      invariant forall v :: 1 <= v < lo ==> !UnitsClear(c, principal, prev, dates, v)
    {
      var mid := lo + (hi - lo) / 2;
      PositiveUnits(mid, unit);
      var out, _ := WalkLevel(c, principal, mid * unit, prev, dates);
      if out.periods > 0 && out.finalClosing <= 0 {
        hi := mid;
      } else {
        forall v | 1 <= v < mid + 1
          ensures !UnitsClear(c, principal, prev, dates, v)
        {
          if UnitsClear(c, principal, prev, dates, v) {
            MoreUnitsClear(c, principal, prev, dates, v, mid);
          }
        }
        lo := mid + 1;
      }
    }
    var least := LeastUnitsFrom(c, principal, prev, dates, 1, bound);
    assert least == hi;
    return Ok(hi * unit);
  }

  // ---------- Building a schedule ----------

  datatype Schedule = Schedule(rows: seq<Row>, instalment: int)

  /** The next payment a contract implies from a balance. */
  datatype Obligation = Obligation(due: Date, payment: int, instalment: int)

  function BuildLevel(c: Contract, principal: nat, prev: Date, dates: seq<Date>): Result<Schedule>
    requires IsSet(prev) && Ahead(prev, dates) && dates != []
  {
    var stated := c.hasScheduled && c.scheduledPayment > 0;
    if !stated && principal == 0 then Err(NotPositive)
    else
      var instalment := if stated then c.scheduledPayment else LevelInstalment(c, principal, prev, dates);
      var rows := LevelRows(c, principal, prev, dates, instalment, 1);
      if stated && rows != [] && rows[0].principal < 0 then Err(BalanceWouldGrow)
      else if stated && rows != [] && rows[|rows| - 1].closing > 0 then Err(LeavesBalance)
      else Ok(Schedule(rows, instalment))
  }

  function BuildDeclining(c: Contract, principal: nat, prev: Date, dates: seq<Date>): Result<Schedule>
    requires IsSet(prev) && Ahead(prev, dates) && dates != []
  {
    var rows := DecliningRows(c, principal, prev, dates, EvenShare(principal, |dates|, c.rounding.Unit()), 1);
    if Contradicted(c, rows) then Err(DiffersFromBank)
    else Ok(Schedule(rows, if rows == [] then 0 else rows[0].payment))
  }

  /** The schedule of whichever repayment structure the contract declares. */
  function Build(c: Contract, principal: int, from: Date): Result<Schedule> {
    var _ :- PaymentDates(c);
    if principal < 0 || (principal == 0 && c.kind == DecliningPrincipal) then Err(NotPositive)
    else if principal == 0 && !(c.hasScheduled && c.scheduledPayment > 0) then Err(NotPositive)
    else
      var dates :- DatesAhead(c, from);
      DatesAheadAreAhead(c, from);
      if c.kind == Annuity then BuildLevel(c, principal, Anchor(c, from), dates)
      else BuildDeclining(c, principal, Anchor(c, from), dates)
  }

  /** The first row of the schedule, without the schedule. */
  function Next(c: Contract, principal: int, from: Date): Result<Obligation> {
    var s :- Build(c, principal, from);
    if s.rows == [] then Err(NothingAhead) else Ok(Obligation(s.rows[0].due, s.rows[0].payment, s.instalment))
  }

  /** Rows that chain, each reducing its opening balance by its principal part. */
  ghost predicate Chained(rows: seq<Row>, opening: nat, n: nat) {
    rows == [] ||
    (var row := rows[0];
     && row.n == n && row.opening == opening
     && row.closing == row.opening - row.principal
     && row.payment == row.principal + row.interest
     && Chained(rows[1..], row.closing, n + 1))
  }

  ghost predicate Dated(rows: seq<Row>, dates: seq<Date>) {
    |rows| <= |dates| && forall i :: 0 <= i < |rows| ==> rows[i].due == dates[i]
  }

  lemma {:induction false} LevelRowsTelescope(c: Contract, balance: nat, prev: Date, dates: seq<Date>, instalment: int, n: nat)
    requires IsSet(prev) && Ahead(prev, dates) && instalment > 0
    ensures Chained(LevelRows(c, balance, prev, dates, instalment, n), balance, n)
    ensures Dated(LevelRows(c, balance, prev, dates, instalment, n), dates)
    decreases |dates|
  {
    hide Contract.Interest, DayNumber;
    if dates != [] && balance > 0 {
      var row := LevelRow(c, balance, prev, dates[0], instalment, n);
      LevelRowsTelescope(c, row.closing, dates[0], dates[1..], instalment, n + 1);
    }
  }

  lemma {:induction false} DecliningRowsTelescope(c: Contract, balance: nat, prev: Date, dates: seq<Date>, per: nat, n: nat)
    requires IsSet(prev) && Ahead(prev, dates)
    ensures var rows := DecliningRows(c, balance, prev, dates, per, n);
            && Chained(rows, balance, n)
            && Dated(rows, dates)
            && (rows != [] ==> rows[|rows| - 1].closing == 0)
    decreases |dates|
  {
    hide Contract.Interest, DayNumber;
    if dates != [] {
      var row := DecliningRow(c, balance, prev, dates[0], per, |dates| == 1, n);
      DecliningRowsTelescope(c, row.closing, dates[0], dates[1..], per, n + 1);
    }
  }

  /** Paid is retired principal plus interest, over any chained schedule. */
  lemma {:induction false} ChainedTotals(rows: seq<Row>, opening: nat, n: nat)
    requires Chained(rows, opening, n)
    ensures TotalPaid(rows) == TotalInterest(rows) + opening - if rows == [] then opening else rows[|rows| - 1].closing
  {
    if rows != [] {
      ChainedTotals(rows[1..], rows[0].closing, n + 1);
    }
  }

  lemma LevelScheduleSettles(c: Contract, principal: nat, prev: Date, dates: seq<Date>)
    requires IsSet(prev) && Ahead(prev, dates) && dates != []
    requires BuildLevel(c, principal, prev, dates).Ok? && BuildLevel(c, principal, prev, dates).value.rows != []
    ensures var rows := BuildLevel(c, principal, prev, dates).value.rows;
            Chained(rows, principal, 1) && Dated(rows, dates) && rows[|rows| - 1].closing == 0
  {
    hide Contract.Interest, DayNumber, DaysBetween, Before, Compare, LevelInstalment;
    var s := BuildLevel(c, principal, prev, dates).value;
    LevelRowsTelescope(c, principal, prev, dates, s.instalment, 1);
    if !(c.hasScheduled && c.scheduledPayment > 0) {
      LevelInstalmentIsLeast(c, principal, prev, dates, 1);
    }
  }

  lemma DecliningScheduleSettles(c: Contract, principal: nat, prev: Date, dates: seq<Date>)
    requires IsSet(prev) && Ahead(prev, dates) && dates != []
    requires BuildDeclining(c, principal, prev, dates).Ok? && BuildDeclining(c, principal, prev, dates).value.rows != []
    ensures var rows := BuildDeclining(c, principal, prev, dates).value.rows;
            Chained(rows, principal, 1) && Dated(rows, dates) && rows[|rows| - 1].closing == 0
  {
    DecliningRowsTelescope(c, principal, prev, dates, EvenShare(principal, |dates|, c.rounding.Unit()), 1);
  }

  /**
   Any non-empty schedule telescopes from the principal to zero, pays exactly the principal
   plus its interest, falls on the calendar's remaining dates, and starts with the next
   obligation.
   */
  lemma BuildSettlesThePrincipal(c: Contract, principal: int, from: Date)
    requires Build(c, principal, from).Ok? && Build(c, principal, from).value.rows != []
    ensures principal >= 0 && DatesAhead(c, from).Ok?
    ensures var s := Build(c, principal, from).value;
            && Chained(s.rows, principal, 1) && s.rows[|s.rows| - 1].closing == 0
            && TotalPaid(s.rows) == principal + TotalInterest(s.rows)
            && Dated(s.rows, DatesAhead(c, from).value)
            && Next(c, principal, from) == Ok(Obligation(s.rows[0].due, s.rows[0].payment, s.instalment))
            && s.rows[0].due == DatesAhead(c, from).value[0]
  {
    hide BuildLevel, BuildDeclining, PaymentDates, Remaining, Ahead, TotalPaid, TotalInterest;
    DatesAheadAreAhead(c, from);
    var prev, dates, s := Anchor(c, from), DatesAhead(c, from).value, Build(c, principal, from).value;
    if c.kind == Annuity {
      LevelScheduleSettles(c, principal, prev, dates);
    } else {
      DecliningScheduleSettles(c, principal, prev, dates);
    }
    ChainedTotals(s.rows, principal, 1);
  }

  /** Each row is charged the contract's interest on its opening balance, for the days since the row before it. */
  ghost predicate Charged(c: Contract, rows: seq<Row>, from: Date) {
    forall k :: 0 <= k < |rows| ==> RowCharged(c, rows[k], Since(rows, k, from))
  }

  /** The day a row's interest runs from. */
  function Since(rows: seq<Row>, k: nat, from: Date): Date
    requires k < |rows|
  {
    if k == 0 then from else rows[k - 1].due
  }

  predicate RowCharged(c: Contract, row: Row, since: Date) {
    && IsSet(since) && IsSet(row.due) && Before(since, row.due)
    && row.days == DaysBetween(since, row.due) && row.interest == c.Interest(row.opening, row.days)
  }

  /** Level rows pay the instalment, or all that is owed where that is less. */
  predicate PaysLevel(rows: seq<Row>, instalment: int) {
    forall k :: 0 <= k < |rows| ==>
      rows[k].payment == var owed := rows[k].opening + rows[k].interest; if instalment < owed then instalment else owed
  }

  /** Declining rows retire an equal share each; the last date, or a smaller balance, what is left. */
  predicate RetiresEvenly(rows: seq<Row>, per: nat, periods: nat) {
    |rows| <= periods && forall k :: 0 <= k < |rows| ==>
      rows[k].principal == if k == periods - 1 || rows[k].opening < per then rows[k].opening else per
  }

  lemma {:induction false} LevelRowsCharge(c: Contract, balance: nat, prev: Date, dates: seq<Date>, instalment: int, n: nat)
    requires IsSet(prev) && Ahead(prev, dates) && instalment > 0
    ensures var rows := LevelRows(c, balance, prev, dates, instalment, n); Charged(c, rows, prev) && PaysLevel(rows, instalment)
    decreases |dates|
  {
    hide Contract.Interest, DayNumber, DaysBetween, Compare;
    if dates != [] && balance > 0 {
      var row := LevelRow(c, balance, prev, dates[0], instalment, n);
      LevelRowsCharge(c, row.closing, dates[0], dates[1..], instalment, n + 1);
      var rest := LevelRows(c, row.closing, dates[0], dates[1..], instalment, n + 1);
      OneRowMore(c, row, rest, prev);
      var rows := LevelRows(c, balance, prev, dates, instalment, n);
      assert rows == [row] + rest;
      forall k | 0 <= k < |rows|
        ensures rows[k].payment == var owed := rows[k].opening + rows[k].interest; if instalment < owed then instalment else owed
      {
        assert k > 0 ==> rows[k] == rest[k - 1];
      }
    }
  }

  lemma OneRowMore(c: Contract, row: Row, rest: seq<Row>, since: Date)
    requires RowCharged(c, row, since) && Charged(c, rest, row.due)
    ensures Charged(c, [row] + rest, since)
  {
    hide RowCharged;
    var rows := [row] + rest;
    forall k | 0 <= k < |rows| ensures RowCharged(c, rows[k], Since(rows, k, since)) {
      if k > 0 {
        assert RowCharged(c, rest[k - 1], Since(rest, k - 1, row.due));
      }
    }
  }

  lemma {:induction false} DecliningRowsCharge(c: Contract, balance: nat, prev: Date, dates: seq<Date>, per: nat, n: nat)
    requires IsSet(prev) && Ahead(prev, dates)
    ensures var rows := DecliningRows(c, balance, prev, dates, per, n); Charged(c, rows, prev) && RetiresEvenly(rows, per, |dates|)
    decreases |dates|
  {
    hide Contract.Interest, DayNumber, DaysBetween, Compare;
    if dates != [] {
      var row := DecliningRow(c, balance, prev, dates[0], per, |dates| == 1, n);
      DecliningRowsCharge(c, row.closing, dates[0], dates[1..], per, n + 1);
      var rest := if row.closing == 0 then [] else DecliningRows(c, row.closing, dates[0], dates[1..], per, n + 1);
      OneRowMore(c, row, rest, prev);
      var rows := DecliningRows(c, balance, prev, dates, per, n);
      assert rows == [row] + rest;
      forall k | 0 <= k < |rows|
        ensures rows[k].principal == if k == |dates| - 1 || rows[k].opening < per then rows[k].opening else per
      {
        assert k > 0 ==> rows[k] == rest[k - 1];
      }
    }
  }

  /** The even share is the largest number of whole units that all periods together can retire. */
  lemma EvenShareIsLargest(principal: nat, periods: nat, unit: int)
    requires periods > 0 && unit > 0
    ensures var per := EvenShare(principal, periods, unit);
            per % unit == 0 && per * periods <= principal < (per + unit) * periods
  {
    var share := principal / periods;
    var units := share / unit;
    Money.ModMultiple(units, unit);
    assert principal < (share + 1) * periods;
    assert share + 1 <= units * unit + unit;
    Money.MulMonotone(share + 1, units * unit + unit, periods);
  }

  /**
   A schedule charges every day from its anchor to its last row once, each on the balance then
   open. An annuity pays the stated or computed instalment until less is owed; a declining loan
   retires the largest equal share of whole units, and what is left at the end.
   */
  lemma BuildChargesEveryDay(c: Contract, principal: int, from: Date)
    requires Build(c, principal, from).Ok?
    ensures principal >= 0 && DatesAhead(c, from).Ok?
    ensures var s := Build(c, principal, from).value;
            && Charged(c, s.rows, if IsSet(from) then from else c.start)
            && (c.kind == Annuity ==>
                  PaysLevel(s.rows, s.instalment)
                  && (c.hasScheduled && c.scheduledPayment > 0 ==> s.instalment == c.scheduledPayment))
            && (c.kind == DecliningPrincipal ==>
                  exists per: nat ::
                    && RetiresEvenly(s.rows, per, |DatesAhead(c, from).value|) && per % c.rounding.Unit() == 0
                    && per * |DatesAhead(c, from).value| <= principal < (per + c.rounding.Unit()) * |DatesAhead(c, from).value|)
  {
    hide Contract.Interest, DayNumber, DaysBetween, Compare, PaymentDates, DatesAhead, Ahead, EvenShare, LevelRows, DecliningRows,
      LevelInstalment, Charged, PaysLevel, RetiresEvenly, Contradicted;
    DatesAheadAreAhead(c, from);
    var prev, dates, s := Anchor(c, from), DatesAhead(c, from).value, Build(c, principal, from).value;
    if c.kind == Annuity {
      LevelRowsCharge(c, principal, prev, dates, s.instalment, 1);
    } else {
      var per := EvenShare(principal, |dates|, c.rounding.Unit());
      DecliningRowsCharge(c, principal, prev, dates, per, 1);
      EvenShareIsLargest(principal, |dates|, c.rounding.Unit());
    }
  }

  /** An obligation falls on the first remaining date and asks for a non-negative payment. */
  lemma NextIsAhead(c: Contract, principal: int, from: Date)
    requires Next(c, principal, from).Ok?
    ensures var o := Next(c, principal, from).value;
            && DatesAhead(c, from).Ok? && o.due == DatesAhead(c, from).value[0]
            && 0 <= o.payment && 0 <= o.instalment
            && (c.hasScheduled && c.scheduledPayment > 0 && c.kind == Annuity ==> o.instalment == c.scheduledPayment)
  {
    hide Contract.Interest, DayNumber, DaysBetween, Remaining, EvenShare, DatesFrom, Compare, Clamp, TotalPaid, TotalInterest;
    BuildSettlesThePrincipal(c, principal, from);
    DatesAheadAreAhead(c, from);
  }
}
