/**
 The planner's memo of contract arithmetic. A hit must give what a fresh projection would,
 and a projection reads one contract term the fingerprint leaves out: the bank's earliest
 outstanding due date. This module proves what the memo answers, and exactly when that is
 what the loan's own contract says.
 */
module ProjectionMemo {
  import opened Dates
  import opened Contracts
  import opened Amortisation
  import Money

  /** The contract terms the memo keys on. */
  datatype Fingerprint = Fingerprint(
    loanId: string, version: int, currency: string, rate: nat, dayCount: Money.DayCount, kind: RepaymentType,
    start: Date, paymentDay: int, hasScheduled: bool, scheduledPayment: int, rounding: Money.Policy,
    maturity: Date, effect: PrepaymentEffect)

  function FingerprintOf(c: Contract): Fingerprint {
    Fingerprint(c.loanId, c.version, c.currency, c.rate, c.dayCount, c.kind, c.start, c.paymentDay,
                c.hasScheduled, c.scheduledPayment, c.rounding, c.maturity, c.prepayment.effect)
  }

  /** The loan state a projection depends on, beside the contract. */
  datatype Terms = Terms(balance: int, from: Date, effect: PrepaymentEffect, carried: int)

  predicate Fixed(c: Contract, t: Terms) {
    t.effect == ShortenTerm && c.kind == Annuity && t.carried > 0
  }

  /**
   The next obligation of a loan: the carried instalment on the next date when the term is
   being shortened, else the first row of a schedule rebuilt from the balance.
   */
  function NextFor(c: Contract, t: Terms): Result<Obligation>
    requires IsSet(t.from)
  {
    var _ :- PaymentDates(c);
    if Fixed(c, t) then
      var due := match DatesAhead(c, t.from)
        case Ok(dates) => dates[0]
        case Err(_) => Occurrence(t.from, c.paymentDay, 1);
      Ok(Obligation(due, t.carried, t.carried))
    else Next(c, t.balance, t.from)
  }

  datatype Key = Key(fp: Fingerprint, balance: int, from: Date, effect: PrepaymentEffect, carried: int)

  function KeyOf(c: Contract, t: Terms): Key {
    Key(FingerprintOf(c), t.balance, t.from, t.effect, if Fixed(c, t) then t.carried else 0)
  }

  // ---------- What a projection reads ----------

  /** Contracts the memo cannot tell apart. */
  predicate Alike(c: Contract, c': Contract) {
    FingerprintOf(c) == FingerprintOf(c')
  }

  lemma SameDates(c: Contract, c': Contract)
    requires Alike(c, c')
    ensures PaymentDates(c) == PaymentDates(c')
  {
    hide DatesFrom;
    if IsSet(c.start) {
      SameDatesFrom(c, c', 1);
    }
  }

  lemma {:induction false} SameDatesFrom(c: Contract, c': Contract, n: nat)
    requires Alike(c, c') && IsSet(c.start)
    ensures DatesFrom(c, n) == DatesFrom(c', n)
    decreases MAX_PERIODS + 1 - n
  {
    hide Clamp;
    if n <= MAX_PERIODS {
      SameDatesFrom(c, c', n + 1);
    }
  }

  lemma {:induction false} SameRemaining(c: Contract, c': Contract, dates: seq<Date>, from: Date)
    requires c.notBeforeDue == c'.notBeforeDue
    ensures Remaining(c, dates, from) == Remaining(c', dates, from)
  {
    hide Compare;
    if dates != [] && Passed(c, dates[0], from) {
      SameRemaining(c, c', dates[1..], from);
    }
  }

  lemma {:induction false} SameLevelRows(c: Contract, c': Contract, balance: nat, prev: Date, dates: seq<Date>,
                                         instalment: int, n: nat)
    requires Alike(c, c') && IsSet(prev) && Ahead(prev, dates) && instalment > 0
    ensures LevelRows(c, balance, prev, dates, instalment, n) == LevelRows(c', balance, prev, dates, instalment, n)
    decreases |dates|
  {
    hide Money.Interest, DayNumber;
    if dates != [] && balance > 0 {
      var row := LevelRow(c, balance, prev, dates[0], instalment, n);
      assert row == LevelRow(c', balance, prev, dates[0], instalment, n);
      SameLevelRows(c, c', row.closing, dates[0], dates[1..], instalment, n + 1);
    }
  }

  lemma {:induction false} SameDecliningRows(c: Contract, c': Contract, balance: nat, prev: Date, dates: seq<Date>,
                                             per: nat, n: nat)
    requires Alike(c, c') && IsSet(prev) && Ahead(prev, dates)
    ensures DecliningRows(c, balance, prev, dates, per, n) == DecliningRows(c', balance, prev, dates, per, n)
    decreases |dates|
  {
    hide Money.Interest, DayNumber;
    if dates != [] {
      var row := DecliningRow(c, balance, prev, dates[0], per, |dates| == 1, n);
      assert row == DecliningRow(c', balance, prev, dates[0], per, |dates| == 1, n);
      SameDecliningRows(c, c', row.closing, dates[0], dates[1..], per, n + 1);
    }
  }

  lemma SameUnitsClear(c: Contract, c': Contract, principal: nat, prev: Date, dates: seq<Date>, units: int)
    requires Alike(c, c') && IsSet(prev) && Ahead(prev, dates) && units >= 1
    ensures UnitsClear(c, principal, prev, dates, units) <==> UnitsClear(c', principal, prev, dates, units)
  {
    hide LevelRows;
    PositiveUnits(units, c.rounding.Unit());
    SameLevelRows(c, c', principal, prev, dates, units * c.rounding.Unit(), 1);
  }

  lemma {:induction false} SameLeastUnits(c: Contract, c': Contract, principal: nat, prev: Date, dates: seq<Date>,
                                          units: int, bound: int)
    requires Alike(c, c') && IsSet(prev) && Ahead(prev, dates) && 1 <= units <= bound
    requires UnitsClear(c, principal, prev, dates, bound) && UnitsClear(c', principal, prev, dates, bound)
    ensures LeastUnitsFrom(c, principal, prev, dates, units, bound)
            == LeastUnitsFrom(c', principal, prev, dates, units, bound)
    decreases bound - units
  {
    hide UnitsClear;
    SameUnitsClear(c, c', principal, prev, dates, units);
    if !UnitsClear(c, principal, prev, dates, units) {
      SameLeastUnits(c, c', principal, prev, dates, units + 1, bound);
    }
  }

  lemma SameLevelInstalment(c: Contract, c': Contract, principal: nat, prev: Date, dates: seq<Date>)
    requires Alike(c, c') && IsSet(prev) && Ahead(prev, dates) && dates != [] && principal > 0
    ensures LevelInstalment(c, principal, prev, dates) == LevelInstalment(c', principal, prev, dates)
  {
    hide Clears, Money.Interest, DayNumber, CeilDiv, LeastUnitsFrom;
    UpperBoundClears(c, principal, prev, dates);
    UpperBoundClears(c', principal, prev, dates);
    assert UpperBound(c, principal, prev, dates) == UpperBound(c', principal, prev, dates);
    SameLeastUnits(c, c', principal, prev, dates, 1, UpperBound(c, principal, prev, dates));
  }

  /** A level schedule does not read the earliest due date, nor any term outside the fingerprint. */
  lemma SameLevelBuild(c: Contract, c': Contract, principal: nat, prev: Date, dates: seq<Date>)
    requires Alike(c, c') && IsSet(prev) && Ahead(prev, dates) && dates != []
    ensures BuildLevel(c, principal, prev, dates) == BuildLevel(c', principal, prev, dates)
  {
    hide LevelRows, LevelInstalment;
    if c.hasScheduled && c.scheduledPayment > 0 {
      SameLevelRows(c, c', principal, prev, dates, c.scheduledPayment, 1);
    } else if principal > 0 {
      SameLevelInstalment(c, c', principal, prev, dates);
      SameLevelRows(c, c', principal, prev, dates, LevelInstalment(c, principal, prev, dates), 1);
    }
  }

  lemma SameDecliningBuild(c: Contract, c': Contract, principal: nat, prev: Date, dates: seq<Date>)
    requires Alike(c, c') && c.notBeforeDue == c'.notBeforeDue && IsSet(prev) && Ahead(prev, dates) && dates != []
    ensures BuildDeclining(c, principal, prev, dates) == BuildDeclining(c', principal, prev, dates)
  {
    hide DecliningRows, EvenShare;
    var per := EvenShare(principal, |dates|, c.rounding.Unit());
    SameDecliningRows(c, c', principal, prev, dates, per, 1);
    var rows := DecliningRows(c, principal, prev, dates, per, 1);
    assert forall i :: 0 <= i < |rows| ==> (Contradicts(c, rows[i]) <==> Contradicts(c', rows[i]));
  }

  /**
   A projection reads nothing but the fingerprint and the earliest due date: fees, free
   allowances, version dates and allocation rules never move it.
   */
  lemma ProjectionReads(c: Contract, c': Contract, t: Terms)
    requires IsSet(t.from) && Alike(c, c') && c.notBeforeDue == c'.notBeforeDue
    ensures NextFor(c, t) == NextFor(c', t)
  {
    hide Remaining, PaymentDates, BuildLevel, BuildDeclining, Clamp;
    SameDates(c, c');
    if PaymentDates(c).Ok? {
      SameRemaining(c, c', PaymentDates(c).value, t.from);
      if DatesAhead(c, t.from).Ok? && t.balance >= 0 {
        var dates := DatesAhead(c, t.from).value;
        DatesAheadAreAhead(c, t.from);
        SameLevelBuild(c, c', t.balance, Anchor(c, t.from), dates);
        SameDecliningBuild(c, c', t.balance, Anchor(c, t.from), dates);
      }
    }
  }

  // ---------- The memo ----------

  /** A resolved calendar remembers the contract it was resolved for. */
  datatype Calendar = Calendar(contract: Contract, dates: seq<Date>)

  /** What a run remembers of projections: nothing, or the tables that asking fills. */
  datatype Memo = Forgetful | Tables(calendars: map<Fingerprint, Calendar>, obligations: map<Key, Obligation>)

  /** A question put to a memo: its answer, and the memo that remembers it. */
  function Ask(m: Memo, c: Contract, t: Terms): (Result<Obligation>, Memo)
    requires IsSet(t.from)
  {
    match m
    case Forgetful => (NextFor(c, t), m)
    case Tables(calendars, obligations) =>
      var k, fp := KeyOf(c, t), FingerprintOf(c);
      if k in obligations then (Ok(obligations[k]), m)
      else
        match PaymentDates(c)
        case Err(why) => (Err(why), m)
        case Ok(dates) =>
          var resolved := if fp in calendars then calendars else calendars[fp := Calendar(c, dates)];
          var o := NextFor(resolved[fp].contract, t);
          (o, Tables(resolved, if o.Ok? then obligations[k := o.value] else obligations))
  }

  /** The calendar a memo reads a contract's dates from: the first one resolved with its fingerprint. */
  function Resolve(m: Memo, c: Contract): (Result<Contract>, Memo) {
    if m.Tables? && FingerprintOf(c) in m.calendars then (Ok(m.calendars[FingerprintOf(c)].contract), m)
    else
      match PaymentDates(c)
      case Err(why) => (Err(why), m)
      case Ok(dates) =>
        (Ok(c), if m.Tables? then m.(calendars := m.calendars[FingerprintOf(c) := Calendar(c, dates)]) else m)
  }

  /** Every calendar is its contract's own, and every obligation that contract's projection. */
  ghost predicate TablesHold(calendars: map<Fingerprint, Calendar>, obligations: map<Key, Obligation>) {
    && (forall fp :: fp in calendars ==>
          && FingerprintOf(calendars[fp].contract) == fp
          && PaymentDates(calendars[fp].contract) == Ok(calendars[fp].dates))
    && (forall k :: k in obligations ==>
          && k.fp in calendars && IsSet(k.from)
          && NextFor(calendars[k.fp].contract, Terms(k.balance, k.from, k.effect, k.carried)) == Ok(obligations[k]))
  }

  /** Contracts that share a fingerprint open alike, so the memo may confuse them. */
  ghost predicate Agree(cs: seq<Contract>) {
    forall i, j :: 0 <= i < |cs| && 0 <= j < |cs| && Alike(cs[i], cs[j]) && PaymentDates(cs[i]).Ok? && PaymentDates(cs[j]).Ok? ==>
      SameOpening(cs[i], cs[j])
  }

  class Cache {
    var obligations: map<Key, Obligation>
    var calendars: map<Fingerprint, Calendar>

    ghost predicate Valid()
      reads this
    {
      TablesHold(calendars, obligations)
    }

    /** The tables as a value. */
    function Contents(): Memo
      reads this
    {
      Tables(calendars, obligations)
    }

    /** The contract the memo answers with for a loan under `c`: the first one resolved with its fingerprint. */
    ghost function Speaks(c: Contract): Contract
      reads this
      requires Valid()
      ensures FingerprintOf(Speaks(c)) == FingerprintOf(c)
    {
      if FingerprintOf(c) in calendars then calendars[FingerprintOf(c)].contract else c
    }

    constructor ()
      ensures Valid() && calendars == map[] && obligations == map[]
    {
      obligations, calendars := map[], map[];
    }

    method ResolveFor(c: Contract) returns (r: Result<Calendar>)
      requires Valid()
      modifies `calendars
      ensures Valid() && forall fp :: fp in old(calendars) ==> fp in calendars && calendars[fp] == old(calendars[fp])
      ensures r.Ok? <==> PaymentDates(c).Ok?
      ensures r.Err? ==> r == Err(PaymentDates(c).refusal) && calendars == old(calendars)
      ensures r.Ok? ==>
                && calendars == old(calendars)[FingerprintOf(c) := r.value]
                && (FingerprintOf(c) in old(calendars) ==> r.value == old(calendars)[FingerprintOf(c)])
                && r.value.contract == old(Speaks(c)) && PaymentDates(r.value.contract) == Ok(r.value.dates)
      ensures Resolve(old(Contents()), c) == (match r case Ok(cal) => Ok(cal.contract) case Err(why) => Err(why), Contents())
    {
      hide PaymentDates, NextFor, Clamp, DayNumber;
      var fp := FingerprintOf(c);
      if fp in calendars {
        SameDates(c, calendars[fp].contract);
        return Ok(calendars[fp]);
      }
      var dates := ResolveCalendar(c);
      if dates.Err? {
        return Err(dates.refusal);
      }
      calendars := calendars[fp := Calendar(c, dates.value)];
      return Ok(calendars[fp]);
    }

    /**
     The memoised projection: whatever was asked before, the answer is the fresh projection
     of the contract the memo speaks for, and a loan's answer never changes afterwards.
     */
    method NextObligation(c: Contract, t: Terms) returns (r: Result<Obligation>)
      requires Valid() && IsSet(t.from)
      modifies this
      ensures Valid() && (r, Contents()) == Ask(old(Contents()), c, t)
      ensures r == NextFor(old(Speaks(c)), t)
      ensures forall c' :: old(FingerprintOf(c') in calendars) ==> Speaks(c') == old(Speaks(c'))
    {
      hide NextFor, PaymentDates, Clamp, DayNumber;
      var k := KeyOf(c, t);
      KeyKeepsTheProjection(Speaks(c), c, t);
      if k in obligations {
        return Ok(obligations[k]);
      }
      var cal := ResolveFor(c);
      if cal.Err? {
        NoCalendarNoProjection(c, Speaks(c), t);
        return Err(cal.refusal);
      }
      assert calendars == if FingerprintOf(c) in old(calendars) then old(calendars)
                          else old(calendars)[FingerprintOf(c) := Calendar(c, PaymentDates(c).value)];
      r := Projected(cal.value.contract, t);
      if r.Ok? {
        obligations := obligations[k := r.value];
      }
    }
  }

  /** The projection itself, on a calendar already resolved. */
  method Projected(c: Contract, t: Terms) returns (r: Result<Obligation>)
    requires IsSet(t.from)
    ensures r == NextFor(c, t)
  {
    return NextFor(c, t);
  }

  lemma NoCalendarNoProjection(c: Contract, c': Contract, t: Terms)
    requires IsSet(t.from) && Alike(c, c') && PaymentDates(c).Err?
    ensures NextFor(c', t) == Err(PaymentDates(c).refusal)
  {
    SameDates(c, c');
  }

  /** The carried amount in the key is all a projection needs of it. */
  lemma KeyKeepsTheProjection(c: Contract, c': Contract, t: Terms)
    requires IsSet(t.from) && Alike(c, c')
    ensures var k := KeyOf(c', t); NextFor(c, Terms(k.balance, k.from, k.effect, k.carried)) == NextFor(c, t)
  {
  }

  // ---------- When the memo is transparent ----------

  /** The calendar's dates the bank has not declared settled. */
  function OpenDates(c: Contract): seq<Date>
    requires PaymentDates(c).Ok?
  {
    Remaining(c, PaymentDates(c).value, UNSET)
  }

  lemma {:induction false} RemainingInTwoSteps(c: Contract, dates: seq<Date>, from: Date)
    ensures Remaining(c, dates, from) == Remaining(c, Remaining(c, dates, UNSET), from)
  {
    if dates != [] && Passed(c, dates[0], from) {
      RemainingInTwoSteps(c, dates[1..], from);
      if !Passed(c, dates[0], UNSET) {
        assert Remaining(c, dates, UNSET) == dates;
      }
    }
  }

  lemma {:induction false} RemainingOfOpen(c: Contract, c': Contract, prev: Date, dates: seq<Date>, from: Date)
    requires dates == [] || (!Passed(c, dates[0], UNSET) && !Passed(c', dates[0], UNSET))
    requires Ahead(prev, dates)
    ensures Remaining(c, dates, from) == Remaining(c', dates, from)
    decreases |dates|
  {
    hide DayNumber;
    if |dates| > 1 {
      CompareIsDayOrder(dates[0], dates[1]);
      CompareIsDayOrder(dates[0], c.notBeforeDue);
      CompareIsDayOrder(dates[1], c.notBeforeDue);
      CompareIsDayOrder(dates[0], c'.notBeforeDue);
      CompareIsDayOrder(dates[1], c'.notBeforeDue);
      RemainingOfOpen(c, c', dates[0], dates[1..], from);
    }
  }

  /** Which dates stay ahead depends on the contract only through its open dates. */
  lemma RemainingFromOpen(c: Contract, c': Contract, from: Date)
    requires PaymentDates(c).Ok? && PaymentDates(c') == PaymentDates(c) && OpenDates(c) == OpenDates(c')
    ensures Remaining(c, PaymentDates(c).value, from) == Remaining(c', PaymentDates(c').value, from)
  {
    hide PaymentDates;
    var dates := PaymentDates(c).value;
    RemainingInTwoSteps(c, dates, from);
    RemainingInTwoSteps(c', dates, from);
    CalendarIsAhead(c);
    RemainingIsAhead(c, c.start, dates, UNSET);
    RemainingIsASuffix(c, dates, UNSET);
    RemainingIsASuffix(c', dates, UNSET);
    RemainingOfOpen(c, c', c.start, OpenDates(c), from);
  }

  /** For a level loan the earliest due date matters only through the dates still open. */
  lemma OpenDatesDecide(c: Contract, c': Contract, t: Terms)
    requires IsSet(t.from) && Alike(c, c') && c.kind == Annuity
    requires PaymentDates(c).Ok? && PaymentDates(c') == PaymentDates(c) && OpenDates(c) == OpenDates(c')
    ensures NextFor(c, t) == NextFor(c', t)
  {
    hide PaymentDates, BuildLevel, BuildDeclining, OpenDates, Remaining, Clamp, DayNumber;
    RemainingFromOpen(c, c', t.from);
    if DatesAhead(c, t.from).Ok? && t.balance >= 0 {
      var dates := DatesAhead(c, t.from).value;
      DatesAheadAreAhead(c, t.from);
      SameLevelBuild(c, c', t.balance, Anchor(c, t.from), dates);
    }
  }

  /** Differing open dates show: some loan state is projected differently under the two contracts. */
  lemma OpenDatesShow(c: Contract, c': Contract) returns (t: Terms)
    requires Alike(c, c') && c.kind == Annuity && PaymentDates(c).Ok? && PaymentDates(c') == PaymentDates(c)
    requires OpenDates(c) != OpenDates(c')
    ensures IsSet(t.from) && NextFor(c, t) != NextFor(c', t)
  {
    hide PaymentDates, DayNumber;
    var dates := PaymentDates(c).value;
    CalendarIsAhead(c);
    RemainingIsASuffix(c, dates, UNSET);
    RemainingIsASuffix(c', dates, UNSET);
    FromTheStart(c, c.start, dates);
    FromTheStart(c', c.start, dates);
    if OpenDates(c) == [] || OpenDates(c') == [] {
      t := Terms(1, c.start, BorrowerChooses, 0);
      NextNeedsADate(c, t);
      NextNeedsADate(c', t);
    } else {
      t := Terms(1, c.start, ShortenTerm, 1);
      DatesDiffer(c.start, dates, |dates| - |OpenDates(c)|, |dates| - |OpenDates(c')|);
    }
  }

  lemma {:induction false} FromTheStart(c: Contract, start: Date, dates: seq<Date>)
    requires Ahead(start, dates) && IsSet(start)
    ensures Remaining(c, dates, start) == Remaining(c, dates, UNSET)
    decreases |dates|
  {
    FromEarlier(c, start, start, dates);
  }

  lemma {:induction false} FromEarlier(c: Contract, start: Date, prev: Date, dates: seq<Date>)
    requires Ahead(prev, dates) && IsSet(start) && !Before(prev, start)
    ensures Remaining(c, dates, start) == Remaining(c, dates, UNSET)
    decreases |dates|
  {
    if dates != [] {
      CompareIsDayOrder(start, prev);
      CompareIsDayOrder(prev, start);
      CompareIsDayOrder(prev, dates[0]);
      CompareIsDayOrder(dates[0], start);
      FromEarlier(c, start, dates[0], dates[1..]);
    }
  }

  /** With a balance to pay, a level projection has a date exactly when one is ahead. */
  lemma NextNeedsADate(c: Contract, t: Terms)
    requires IsSet(t.from) && t.balance > 0 && c.kind == Annuity && !Fixed(c, t) && PaymentDates(c).Ok?
    ensures NextFor(c, t) == Err(NothingAhead) <==> DatesAhead(c, t.from).Err?
  {
    hide PaymentDates, Remaining, LevelInstalment;
    if DatesAhead(c, t.from).Ok? {
      DatesAheadAreAhead(c, t.from);
    }
  }

  lemma {:induction false} DatesDiffer(prev: Date, dates: seq<Date>, i: nat, j: nat)
    requires Ahead(prev, dates) && i < |dates| && j < |dates| && i != j
    ensures dates[i] != dates[j]
    decreases |dates|
  {
    if i == 0 {
      LaterDates(prev, dates, j);
    } else if j == 0 {
      LaterDates(prev, dates, i);
    } else {
      DatesDiffer(dates[0], dates[1..], i - 1, j - 1);
    }
  }

  lemma {:induction false} LaterDates(prev: Date, dates: seq<Date>, j: nat)
    requires Ahead(prev, dates) && j < |dates|
    ensures Before(prev, dates[j]) && (j > 0 ==> Before(dates[0], dates[j]))
    decreases |dates|
  {
    if j > 0 {
      LaterDates(dates[0], dates[1..], j - 1);
      CompareIsDayOrder(prev, dates[0]);
      CompareIsDayOrder(dates[0], dates[j]);
      CompareIsDayOrder(prev, dates[j]);
    }
  }

  // ---------- Declining loans ----------

  /** The bank's stated first payment is checked against the schedule: its date is the first one still open. */
  predicate Checked(c: Contract)
    requires PaymentDates(c).Ok?
  {
    c.kind == DecliningPrincipal && c.hasScheduled && IsSet(c.notBeforeDue) && OpenDates(c) != [] && OpenDates(c)[0] == c.notBeforeDue
  }

  /** All a projection reads of the earliest due date: the open dates, and whether the first one carries the bank's payment. */
  predicate SameOpening(c: Contract, c': Contract)
    requires PaymentDates(c).Ok? && PaymentDates(c').Ok?
  {
    OpenDates(c) == OpenDates(c') && (Checked(c) <==> Checked(c'))
  }

  /** Every date still ahead of some day is open, and only the first open date can be the bank's own. */
  lemma AheadIsOpen(c: Contract, from: Date)
    requires DatesAhead(c, from).Ok?
    ensures PaymentDates(c).Ok? && OpenDates(c) != []
    ensures forall i :: 0 <= i < |DatesAhead(c, from).value| ==>
              (IsSet(c.notBeforeDue) && DatesAhead(c, from).value[i] == c.notBeforeDue
               ==> OpenDates(c)[0] == c.notBeforeDue)
  {
    hide PaymentDates, DayNumber;
    var all, dates := PaymentDates(c).value, DatesAhead(c, from).value;
    CalendarIsAhead(c);
    RemainingInTwoSteps(c, all, from);
    RemainingIsASuffix(c, all, UNSET);
    RemainingIsASuffix(c, OpenDates(c), from);
    RemainingIsAhead(c, c.start, all, UNSET);
    OpenIsNotPassed(c, all);
    forall i | 0 <= i < |dates| && IsSet(c.notBeforeDue) && dates[i] == c.notBeforeDue
      ensures OpenDates(c)[0] == c.notBeforeDue
    {
      var j := |OpenDates(c)| - |dates| + i;
      assert OpenDates(c)[j] == c.notBeforeDue;
      LaterDates(c.start, OpenDates(c), j);
      CompareIsDayOrder(OpenDates(c)[0], c.notBeforeDue);
    }
  }

  lemma {:induction false} OpenIsNotPassed(c: Contract, dates: seq<Date>)
    requires Remaining(c, dates, UNSET) != []
    ensures !Passed(c, Remaining(c, dates, UNSET)[0], UNSET)
  {
    if Passed(c, dates[0], UNSET) {
      OpenIsNotPassed(c, dates[1..]);
    }
  }

  /** Contracts with one opening find the same contradiction with the bank's figure. */
  lemma SameContradiction(c: Contract, c': Contract, from: Date, rows: seq<Row>)
    requires Alike(c, c') && c.kind == DecliningPrincipal && PaymentDates(c).Ok? && PaymentDates(c').Ok? && SameOpening(c, c')
    requires DatesAhead(c, from).Ok? && DatesAhead(c', from) == DatesAhead(c, from) && Dated(rows, DatesAhead(c, from).value)
    ensures Contradicted(c, rows) <==> Contradicted(c', rows)
  {
    hide PaymentDates, OpenDates, Remaining, DatesAhead;
    AheadIsOpen(c, from);
    AheadIsOpen(c', from);
    forall i | 0 <= i < |rows|
      ensures Contradicts(c, rows[i]) <==> Contradicts(c', rows[i])
    {
      assert rows[i].due == DatesAhead(c, from).value[i];
    }
  }

  lemma OpeningDecides(c: Contract, c': Contract, t: Terms)
    requires IsSet(t.from) && Alike(c, c') && c.kind == DecliningPrincipal
    requires PaymentDates(c).Ok? && PaymentDates(c') == PaymentDates(c) && SameOpening(c, c')
    ensures NextFor(c, t) == NextFor(c', t)
  {
    hide PaymentDates, BuildLevel, DecliningRows, EvenShare, OpenDates, Remaining, Clamp, DayNumber, SameOpening, Contradicted;
    SameOpenDates(c, c');
    RemainingFromOpen(c, c', t.from);
    if DatesAhead(c, t.from).Ok? && t.balance >= 0 {
      var dates := DatesAhead(c, t.from).value;
      DatesAheadAreAhead(c, t.from);
      var per := EvenShare(t.balance, |dates|, c.rounding.Unit());
      SameDecliningRows(c, c', t.balance, Anchor(c, t.from), dates, per, 1);
      var rows := DecliningRows(c, t.balance, Anchor(c, t.from), dates, per, 1);
      DecliningRowsTelescope(c, t.balance, Anchor(c, t.from), dates, per, 1);
      SameContradiction(c, c', t.from, rows);
    }
  }

  lemma SameOpenDates(c: Contract, c': Contract)
    requires PaymentDates(c).Ok? && PaymentDates(c').Ok? && SameOpening(c, c')
    ensures OpenDates(c) == OpenDates(c')
  {
  }

  /** The first payment of a declining schedule over some dates. */
  function FirstPayment(c: Contract, balance: nat, prev: Date, dates: seq<Date>): int
    requires IsSet(prev) && Ahead(prev, dates) && dates != []
  {
    DecliningRow(c, balance, prev, dates[0], EvenShare(balance, |dates|, c.rounding.Unit()), |dates| == 1, 1).payment
  }

  /** Of two balances in whole shares at least one does not start with a given payment. */
  lemma SomeBalanceDiffers(c: Contract, prev: Date, dates: seq<Date>, stated: int) returns (balance: nat)
    requires IsSet(prev) && Ahead(prev, dates) && dates != []
    ensures balance > 0 && FirstPayment(c, balance, prev, dates) != stated
  {
    hide DayNumber, Contract.Interest, EvenShare, FirstPayment, Ahead, Money.Policy.Unit;
    var unit := c.rounding.Unit();
    var one := WholeShares(c, prev, dates, unit);
    var two := WholeShares(c, prev, dates, 2 * unit);
    var days := DaysBetween(prev, dates[0]);
    c.InterestIsMonotone(one, two, days, days);
    balance := if FirstPayment(c, one, prev, dates) != stated then one else two;
  }

  /** A balance of one whole share for each date starts with that share and the interest on it all. */
  lemma WholeShares(c: Contract, prev: Date, dates: seq<Date>, share: nat) returns (balance: nat)
    requires IsSet(prev) && Ahead(prev, dates) && dates != []
    requires share == c.rounding.Unit() || share == 2 * c.rounding.Unit()
    ensures DaysBetween(prev, dates[0]) >= 0 && balance == |dates| * share && balance > 0
    ensures FirstPayment(c, balance, prev, dates) == share + c.Interest(balance, DaysBetween(prev, dates[0]))
  {
    hide DayNumber, Contract.Interest, EvenShare, Money.Policy.Unit;
    balance := |dates| * share;
    SharesAreEven(|dates|, c.rounding.Unit(), if share == c.rounding.Unit() then 1 else 2);
  }

  lemma SharesAreEven(n: nat, unit: int, k: nat)
    requires n > 0 && unit > 0 && k > 0
    ensures n * (k * unit) >= k * unit > 0 && EvenShare(n * (k * unit), n, unit) == k * unit
  {
    var share := k * unit;
    Money.ModMultiple(share, n);
    assert n * share == share * n;
    Money.ModMultiple(k, unit);
    Money.MulMonotone(1, n, share);
  }

  /** Where the bank's payment is checked, some balance is refused; where it is not, none is. */
  lemma CheckingShows(c: Contract, from: Date) returns (t: Terms)
    requires c.kind == DecliningPrincipal && IsSet(from) && DatesAhead(c, from).Ok?
    requires PaymentDates(c).Ok? && Checked(c) && DatesAhead(c, from).value[0] == OpenDates(c)[0]
    ensures t.from == from && t.balance > 0 && NextFor(c, t) == Err(DiffersFromBank)
  {
    hide PaymentDates, OpenDates, Remaining, DayNumber, EvenShare, Contract.Interest;
    DatesAheadAreAhead(c, from);
    var dates := DatesAhead(c, from).value;
    var balance := SomeBalanceDiffers(c, from, dates, c.scheduledPayment);
    t := Terms(balance, from, ShortenTerm, 0);
    var rows := DecliningRows(c, balance, from, dates, EvenShare(balance, |dates|, c.rounding.Unit()), 1);
    assert Contradicts(c, rows[0]);
  }

  lemma UncheckedProjects(c: Contract, t: Terms)
    requires c.kind == DecliningPrincipal && IsSet(t.from) && t.balance > 0 && DatesAhead(c, t.from).Ok?
    requires forall i :: 0 <= i < |DatesAhead(c, t.from).value| ==>
               !(c.hasScheduled && IsSet(c.notBeforeDue) && DatesAhead(c, t.from).value[i] == c.notBeforeDue)
    ensures NextFor(c, t).Ok? && NextFor(c, t).value.due == DatesAhead(c, t.from).value[0]
  {
    hide PaymentDates, Remaining, DayNumber, EvenShare, Contract.Interest;
    DatesAheadAreAhead(c, t.from);
    var dates := DatesAhead(c, t.from).value;
    var rows := DecliningRows(c, t.balance, t.from, dates, EvenShare(t.balance, |dates|, c.rounding.Unit()), 1);
    DecliningRowsTelescope(c, t.balance, t.from, dates, EvenShare(t.balance, |dates|, c.rounding.Unit()), 1);
    forall i | 0 <= i < |rows| ensures !Contradicts(c, rows[i]) {
      assert rows[i].due == dates[i];
    }
  }

  /** What the earliest due date leaves open shows in the projection of some declining loan. */
  lemma OpeningShows(c: Contract, c': Contract) returns (t: Terms)
    requires Alike(c, c') && c.kind == DecliningPrincipal && PaymentDates(c).Ok? && PaymentDates(c') == PaymentDates(c)
    requires !SameOpening(c, c')
    ensures IsSet(t.from) && NextFor(c, t) != NextFor(c', t)
  {
    hide PaymentDates, DayNumber, Remaining, DatesAhead, NextFor;
    FromStartIsOpen(c);
    FromStartIsOpen(c');
    if OpenDates(c) == [] || OpenDates(c') == [] {
      t := Terms(1, c.start, ShortenTerm, 0);
      NoDateNoProjection(c, t);
      NoDateNoProjection(c', t);
    } else if Checked(c) && Checked(c') {
      OpenDatesAreSuffixes(c, c');
      if |OpenDates(c)| > |OpenDates(c')| {
        t := BothCheckedShow(c, c');
      } else {
        t := BothCheckedShow(c', c);
      }
    } else if Checked(c) {
      t := CheckedAgainstUnchecked(c, c');
    } else if Checked(c') {
      t := CheckedAgainstUnchecked(c', c);
    } else {
      t := Terms(1, c.start, ShortenTerm, 0);
      UncheckedIsOpen(c, c.start);
      UncheckedIsOpen(c', c.start);
      UncheckedProjects(c, t);
      UncheckedProjects(c', t);
      OpenDatesAreSuffixes(c, c');
      var dates := PaymentDates(c).value;
      CalendarIsAhead(c);
      DatesDiffer(c.start, dates, |dates| - |OpenDates(c)|, |dates| - |OpenDates(c')|);
    }
  }

  lemma FromStartIsOpen(c: Contract)
    requires PaymentDates(c).Ok?
    ensures IsSet(c.start)
    ensures DatesAhead(c, c.start) == if OpenDates(c) == [] then Err(NothingAhead) else Ok(OpenDates(c))
  {
    hide PaymentDates, DayNumber;
    CalendarIsAhead(c);
    FromTheStart(c, c.start, PaymentDates(c).value);
  }

  lemma NoDateNoProjection(c: Contract, t: Terms)
    requires IsSet(t.from) && t.balance > 0 && c.kind == DecliningPrincipal && PaymentDates(c).Ok?
    ensures NextFor(c, t) == Err(NothingAhead) <==> DatesAhead(c, t.from).Err?
  {
    hide PaymentDates, Remaining, EvenShare, Contract.Interest;
    if DatesAhead(c, t.from).Ok? {
      DatesAheadAreAhead(c, t.from);
    }
  }

  lemma OpenDatesAreSuffixes(c: Contract, c': Contract)
    requires PaymentDates(c).Ok? && PaymentDates(c') == PaymentDates(c)
    ensures var dates := PaymentDates(c).value;
            && |OpenDates(c)| <= |dates| && OpenDates(c) == dates[|dates| - |OpenDates(c)|..]
            && |OpenDates(c')| <= |dates| && OpenDates(c') == dates[|dates| - |OpenDates(c')|..]
    ensures OpenDates(c) != OpenDates(c') <==> |OpenDates(c)| != |OpenDates(c')|
  {
    hide PaymentDates;
    RemainingIsASuffix(c, PaymentDates(c).value, UNSET);
    RemainingIsASuffix(c', PaymentDates(c').value, UNSET);
  }

  lemma UncheckedIsOpen(c: Contract, from: Date)
    requires c.kind == DecliningPrincipal && DatesAhead(c, from).Ok? && PaymentDates(c).Ok? && !Checked(c)
    ensures forall i :: 0 <= i < |DatesAhead(c, from).value| ==>
              !(c.hasScheduled && IsSet(c.notBeforeDue) && DatesAhead(c, from).value[i] == c.notBeforeDue)
  {
    hide PaymentDates, OpenDates, Remaining, DatesAhead;
    AheadIsOpen(c, from);
  }

  lemma CheckedAgainstUnchecked(c: Contract, c': Contract) returns (t: Terms)
    requires Alike(c, c') && c.kind == DecliningPrincipal && PaymentDates(c).Ok? && PaymentDates(c') == PaymentDates(c)
    requires Checked(c) && !Checked(c') && OpenDates(c') != []
    ensures IsSet(t.from) && NextFor(c, t) != NextFor(c', t)
  {
    hide PaymentDates, OpenDates, Remaining, DatesAhead, NextFor;
    FromStartIsOpen(c);
    FromStartIsOpen(c');
    t := CheckingShows(c, c.start);
    UncheckedIsOpen(c', c.start);
    UncheckedProjects(c', t);
  }

  /** After the earlier bank date the first contract is no longer checked, while the second still is. */
  lemma BothCheckedShow(c: Contract, c': Contract) returns (t: Terms)
    requires Alike(c, c') && c.kind == DecliningPrincipal && PaymentDates(c).Ok? && PaymentDates(c') == PaymentDates(c)
    requires Checked(c) && Checked(c') && |OpenDates(c)| > |OpenDates(c')|
    ensures IsSet(t.from) && NextFor(c, t) != NextFor(c', t)
  {
    hide PaymentDates, DayNumber, NextFor;
    CalendarIsAhead(c);
    OpenDatesAreSuffixes(c, c');
    RemainingIsAhead(c, c.start, PaymentDates(c).value, UNSET);
    var from := OpenDates(c)[0];
    AfterFirstOpen(c);
    BeforeLaterOpen(c', c.start, PaymentDates(c).value, |PaymentDates(c).value| - |OpenDates(c)|, from);
    t := CheckingShows(c', from);
    forall i | 0 <= i < |DatesAhead(c, from).value|
      ensures DatesAhead(c, from).value[i] != from
    {
      LaterDates(c.start, OpenDates(c), i + 1);
    }
    UncheckedProjects(c, t);
  }

  /** From the first open date on, the rest of the open dates are ahead. */
  lemma AfterFirstOpen(c: Contract)
    requires PaymentDates(c).Ok? && |OpenDates(c)| > 1
    ensures DatesAhead(c, OpenDates(c)[0]) == Ok(OpenDates(c)[1..])
  {
    hide PaymentDates, DayNumber;
    var open := OpenDates(c);
    CalendarIsAhead(c);
    RemainingIsAhead(c, c.start, PaymentDates(c).value, UNSET);
    RemainingInTwoSteps(c, PaymentDates(c).value, open[0]);
    OpenIsNotPassed(c, PaymentDates(c).value);
    LaterDates(c.start, open, 1);
    CompareIsDayOrder(open[0], open[0]);
    CompareIsDayOrder(open[1], c.notBeforeDue);
    CompareIsDayOrder(open[0], c.notBeforeDue);
    assert open[1..][0] == open[1];
  }

  /** A day of the calendar before the first open date leaves all open dates ahead. */
  lemma {:induction false} BeforeLaterOpen(c: Contract, prev: Date, dates: seq<Date>, k: nat, from: Date)
    requires Ahead(prev, dates) && k < |dates| && from == dates[k] && |Remaining(c, dates, UNSET)| < |dates| - k
    ensures Remaining(c, dates, from) == Remaining(c, dates, UNSET)
    decreases |dates|
  {
    hide DayNumber;
    RemainingIsASuffix(c, dates, UNSET);
    if k > 0 {
      LaterDates(prev, dates, k);
      CompareIsDayOrder(dates[0], from);
      BeforeLaterOpen(c, dates[0], dates[1..], k - 1, from);
    } else {
      CompareIsDayOrder(from, from);
      AfterItself(c, dates[0], dates[1..]);
    }
  }

  lemma AfterItself(c: Contract, prev: Date, dates: seq<Date>)
    requires Ahead(prev, dates) && IsSet(prev)
    ensures Remaining(c, dates, prev) == Remaining(c, dates, UNSET)
  {
    hide DayNumber;
    FromEarlier(c, prev, prev, dates);
  }

  /**
   The memo speaks truly for every state of a loan if and only if the contract it resolved first
   has the same opening: the same open dates, and for a declining loan with a stated payment the
   same answer to whether the bank's date is the first of them. Both are read off the contracts.
   */
  lemma MemoIsTransparentExactlyWhen(c: Contract, c': Contract)
    requires Alike(c, c') && PaymentDates(c).Ok?
    ensures PaymentDates(c').Ok?
    ensures (forall t: Terms :: IsSet(t.from) ==> NextFor(c, t) == NextFor(c', t)) <==> SameOpening(c, c')
  {
    hide PaymentDates, OpenDates, NextFor;
    SameDates(c, c');
    if SameOpening(c, c') {
      forall t: Terms | IsSet(t.from)
        ensures NextFor(c, t) == NextFor(c', t)
      {
        if c.kind == Annuity {
          OpenDatesDecide(c, c', t);
        } else {
          OpeningDecides(c, c', t);
        }
      }
    } else if c.kind == Annuity {
      var t := OpenDatesShow(c, c');
    } else {
      var t := OpeningShows(c, c');
    }
  }

  // ---------- What a memo tells ----------

  /** Contracts the memo cannot tell apart that answer every question alike. */
  ghost predicate ProjectsAs(c: Contract, c': Contract) {
    && Alike(c, c')
    && (forall t: Terms :: IsSet(t.from) ==> NextFor(c, t) == NextFor(c', t))
    && forall from: Date :: DatesAhead(c, from) == DatesAhead(c', from)
  }

  lemma ProjectsAsIsAnEquivalence(a: Contract, b: Contract, c: Contract)
    ensures ProjectsAs(a, a) && (ProjectsAs(a, b) ==> ProjectsAs(b, a)) && (ProjectsAs(a, b) && ProjectsAs(b, c) ==> ProjectsAs(a, c))
  {
    hide NextFor, DatesAhead;
  }

  /** The bank's first due date is all that alike contracts can differ in. */
  lemma SameFloorProjectsAs(c: Contract, c': Contract)
    requires Alike(c, c') && c.notBeforeDue == c'.notBeforeDue
    ensures ProjectsAs(c, c')
  {
    hide NextFor, PaymentDates, Remaining;
    SameDates(c, c');
    forall t: Terms | IsSet(t.from) ensures NextFor(c, t) == NextFor(c', t) {
      ProjectionReads(c, c', t);
    }
    forall from: Date ensures DatesAhead(c, from) == DatesAhead(c', from) {
      if PaymentDates(c).Ok? {
        SameRemaining(c, c', PaymentDates(c).value, from);
      }
    }
  }

  /** Contracts that open alike, or have no calendar, answer alike. */
  lemma SameOpeningProjectsAs(c: Contract, c': Contract)
    requires Alike(c, c') && (PaymentDates(c).Ok? && PaymentDates(c').Ok? ==> SameOpening(c, c'))
    ensures ProjectsAs(c, c')
  {
    hide NextFor, PaymentDates, Remaining;
    SameDates(c, c');
    if PaymentDates(c).Ok? {
      MemoIsTransparentExactlyWhen(c, c');
      forall from: Date ensures DatesAhead(c, from) == DatesAhead(c', from) {
        RemainingFromOpen(c, c', from);
      }
    } else {
      forall t: Terms | IsSet(t.from) ensures NextFor(c, t) == NextFor(c', t) {
        NoCalendarNoProjection(c, c, t);
        NoCalendarNoProjection(c, c', t);
      }
    }
  }

  /**
   Some contracts and what is heard in their place: the same but for the bank's first due date,
   and one voice for alike ones among those that are asked about at all.
   */
  ghost predicate Voiced(cs: seq<Contract>, vs: seq<Contract>, live: seq<bool>) {
    && |cs| == |vs| == |live| && (forall i :: 0 <= i < |cs| ==> Alike(cs[i], vs[i]))
    && forall i, j :: 0 <= i < |cs| && 0 <= j < |cs| && live[i] && live[j] && Alike(cs[i], cs[j]) ==> ProjectsAs(vs[i], vs[j])
  }

  /** What a memo remembers of the contracts asked about is what is heard in their place. */
  ghost predicate Told(m: Memo, cs: seq<Contract>, vs: seq<Contract>, live: seq<bool>) {
    m.Tables? ==>
      && TablesHold(m.calendars, m.obligations)
      && forall i :: 0 <= i < |cs| && i < |vs| && i < |live| && live[i] && FingerprintOf(cs[i]) in m.calendars ==>
           ProjectsAs(m.calendars[FingerprintOf(cs[i])].contract, vs[i])
  }

  /** A contract whose voice the memo remembers, or that is its own voice. */
  ghost predicate Hears(m: Memo, c: Contract, v: Contract) {
    (m.Tables? && FingerprintOf(c) in m.calendars) || ProjectsAs(c, v)
  }

  /** A memo only ever learns calendars. */
  predicate Grows(m: Memo, m': Memo) {
    && (m.Forgetful? <==> m'.Forgetful?)
    && (m.Tables? && m'.Tables? ==> forall fp :: fp in m.calendars ==> fp in m'.calendars)
  }

  /** Asking a memo is projecting the contract heard, and leaves what it tells. */
  lemma AskingHears(m: Memo, cs: seq<Contract>, vs: seq<Contract>, live: seq<bool>, i: nat, t: Terms)
    requires Voiced(cs, vs, live) && Told(m, cs, vs, live) && i < |cs| && live[i] && IsSet(t.from) && Hears(m, cs[i], vs[i])
    ensures Ask(m, cs[i], t).0 == NextFor(vs[i], t) && Told(Ask(m, cs[i], t).1, cs, vs, live) && Grows(m, Ask(m, cs[i], t).1)
    ensures Ask(m, cs[i], t).0.Ok? && m.Tables? ==> FingerprintOf(cs[i]) in Ask(m, cs[i], t).1.calendars
  {
    hide PaymentDates, NextFor, DatesAhead, ProjectsAs;
    AskVoice(cs[i], vs[i], t);
    if m.Tables? {
      var c, k := cs[i], KeyOf(cs[i], t);
      if k.fp in m.calendars {
        AskVoice(m.calendars[k.fp].contract, vs[i], t);
        SameDates(m.calendars[k.fp].contract, c);
        KeyKeepsTheProjection(m.calendars[k.fp].contract, c, t);
      } else if PaymentDates(c).Err? {
        NoCalendarNoProjection(c, vs[i], t);
      } else {
        KeyKeepsTheProjection(c, c, t);
        NewCalendarIsTold(m, cs, vs, live, i);
      }
    }
  }

  lemma AskVoice(c: Contract, v: Contract, t: Terms)
    requires IsSet(t.from)
    ensures ProjectsAs(c, v) ==> NextFor(c, t) == NextFor(v, t) && Alike(c, v)
  {
    hide NextFor, DatesAhead;
  }

  lemma NewCalendarIsTold(m: Memo, cs: seq<Contract>, vs: seq<Contract>, live: seq<bool>, i: nat)
    requires m.Tables? && Voiced(cs, vs, live) && Told(m, cs, vs, live) && i < |cs| && live[i] && PaymentDates(cs[i]).Ok?
    requires FingerprintOf(cs[i]) !in m.calendars && ProjectsAs(cs[i], vs[i])
    ensures Told(Tables(m.calendars[FingerprintOf(cs[i]) := Calendar(cs[i], PaymentDates(cs[i]).value)], m.obligations), cs, vs, live)
  {
    hide PaymentDates, NextFor, DatesAhead, ProjectsAs;
    forall j | 0 <= j < |cs| && live[j] && Alike(cs[i], cs[j]) ensures ProjectsAs(cs[i], vs[j]) {
      ProjectsAsIsAnEquivalence(cs[i], vs[i], vs[j]);
    }
  }

  /** Reading a calendar off a memo is reading the contract heard. */
  lemma ResolvingHears(m: Memo, cs: seq<Contract>, vs: seq<Contract>, live: seq<bool>, i: nat)
    requires Voiced(cs, vs, live) && Told(m, cs, vs, live) && i < |cs| && live[i] && Hears(m, cs[i], vs[i])
    ensures var (r, m') := Resolve(m, cs[i]);
            && (match r case Ok(c) => PaymentDates(vs[i]).Ok? && ProjectsAs(c, vs[i]) case Err(why) => PaymentDates(vs[i]) == Err(why))
            && Told(m', cs, vs, live) && Grows(m, m')
  {
    hide PaymentDates, NextFor, DatesAhead, ProjectsAs;
    SameDates(cs[i], vs[i]);
    if m.Tables? && FingerprintOf(cs[i]) in m.calendars {
      SameDates(m.calendars[FingerprintOf(cs[i])].contract, vs[i]);
    } else if m.Tables? && PaymentDates(cs[i]).Ok? {
      NewCalendarIsTold(m, cs, vs, live, i);
    }
  }

  /** A memo that has learned more hears at least as well. */
  lemma HearsStill(m: Memo, m': Memo, c: Contract, v: Contract)
    requires Grows(m, m') && Hears(m, c, v)
    ensures Hears(m', c, v)
  {
    hide ProjectsAs;
  }

  /** An empty memo tells nothing false of any contracts. */
  lemma EmptyTells(cs: seq<Contract>, vs: seq<Contract>, live: seq<bool>)
    ensures Told(Tables(map[], map[]), cs, vs, live) && Told(Forgetful, cs, vs, live)
  {
  }

  // ---------- A trusted memo ----------

  /** A memo that tells the truth of some contracts: what it remembers answers as they do themselves. */
  ghost predicate Trusted(m: Memo, cs: seq<Contract>) {
    Told(m, cs, cs, All(cs))
  }

  function All(cs: seq<Contract>): seq<bool> {
    seq(|cs|, _ => true)
  }

  /** Contracts that agree where the memo cannot tell them apart are their own voices. */
  lemma AgreeingSpeakForThemselves(cs: seq<Contract>)
    requires Agree(cs)
    ensures Voiced(cs, cs, All(cs)) && forall i :: 0 <= i < |cs| ==> ProjectsAs(cs[i], cs[i])
  {
    hide PaymentDates, SameOpening, ProjectsAs;
    forall i, j | 0 <= i < |cs| && 0 <= j < |cs| && Alike(cs[i], cs[j]) ensures ProjectsAs(cs[i], cs[j]) {
      SameOpeningProjectsAs(cs[i], cs[j]);
    }
  }

  /** Where alike contracts open alike, asking a trusted memo is projecting, and the memo stays trusted. */
  lemma AskingIsProjecting(m: Memo, cs: seq<Contract>, i: nat, t: Terms)
    requires Agree(cs) && Trusted(m, cs) && i < |cs| && IsSet(t.from)
    ensures Ask(m, cs[i], t).0 == NextFor(cs[i], t) && Trusted(Ask(m, cs[i], t).1, cs)
  {
    hide NextFor, ProjectsAs, Told, Voiced, Agree;
    AgreeingSpeakForThemselves(cs);
    AskingHears(m, cs, cs, All(cs), i, t);
  }
}
