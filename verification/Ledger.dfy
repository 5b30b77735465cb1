/**
 Replay: a loan's position rebuilt from the latest bank figure and every event after it. Each
 day is priced under one contract version, money is conserved from the anchor to the result,
 and the order in which events are listed makes no difference.
 */
module Ledger {
  import opened Dates
  import opened Contracts
  import opened Portfolio
  import opened Allocation
  import Sorting

  datatype Failure = NoContract | BadAnchor | NoAsOf | AsOfTooEarly | BadPayment | CannotApply | ImpossiblePosition

  datatype Result<+T> = Ok(value: T) | Err(failure: Failure) {
    predicate IsFailure() { Err? }
    function PropagateFailure<U>(): Result<U> requires Err? { Err(failure) }
    function Extract(): T requires Ok? { value }
  }

  // ---------- Contract versions ----------

  /** The latest-starting version that covers a day; of equals the first listed. */
  function VersionOn(versions: seq<Contract>, d: Date): Option<Contract> {
    if versions == [] then None
    else
      var c := versions[|versions| - 1];
      match VersionOn(versions[..|versions| - 1], d)
      case None => if c.CoversDate(d) then Some(c) else None
      case Some(best) => if c.CoversDate(d) && After(c.effectiveFrom, best.effectiveFrom) then Some(c) else Some(best)
  }

  method ContractFor(versions: seq<Contract>, d: Date) returns (r: Result<Contract>)
    ensures r == match VersionOn(versions, d) case Some(c) => Ok(c) case None => Err(NoContract)
  {
    var best: Option<Contract> := None;
    for k := 0 to |versions|
      invariant best == VersionOn(versions[..k], d)
    {
      assert versions[..k + 1][..k] == versions[..k];
      var c := versions[k];
      if c.CoversDate(d) {
        if best.None? {
          best := Some(c);
        } else if After(c.effectiveFrom, best.value.effectiveFrom) {
          best := Some(c);
        }
      }
    }
    assert versions[..|versions|] == versions;
    return match best case Some(c) => Ok(c) case None => Err(NoContract);
  }

  /** The version in force covers the day and no covering version starts later; there is one when any covers it. */
  lemma {:induction false} VersionOnIsTheLatest(versions: seq<Contract>, d: Date)
    ensures VersionOn(versions, d).None? <==> forall k :: 0 <= k < |versions| ==> !versions[k].CoversDate(d)
    ensures VersionOn(versions, d).Some? ==>
              var c := VersionOn(versions, d).value;
              && c in versions && c.CoversDate(d)
              && forall k :: 0 <= k < |versions| && versions[k].CoversDate(d) ==> !After(versions[k].effectiveFrom, c.effectiveFrom)
  {
    hide DayNumber, Contract.CoversDate;
    if versions != [] {
      var n := |versions| - 1;
      VersionOnIsTheLatest(versions[..n], d);
      assert versions == versions[..n] + [versions[n]];
      forall k | 0 <= k < n ensures versions[k] == versions[..n][k] {
      }
    }
  }

  // ---------- Accrual across versions ----------

  /** Days (from, to] priced under one version. */
  datatype Segment = Segment(contract: Contract, from: Date, to: Date)

  function SegmentEnd(c: Contract, to: Date): Date {
    if IsSet(c.effectiveThru) && Before(c.effectiveThru, to) then c.effectiveThru else to
  }

  /** The version in force on the next day covers it, so its segment is never empty. */
  lemma SegmentCoversDays(versions: seq<Contract>, from: Date, to: Date)
    requires IsSet(from) && Before(from, to) && VersionOn(versions, NextDay(from)).Some?
    ensures var c := VersionOn(versions, NextDay(from)).value;
            After(SegmentEnd(c, to), from) && !After(SegmentEnd(c, to), to)
  {
    hide DayNumber;
    VersionOnIsTheLatest(versions, NextDay(from));
    NextDayIsOneLater(from);
  }

  /** The interval split at every version boundary inside it. */
  function Segments(versions: seq<Contract>, from: Date, to: Date): Result<seq<Segment>>
    requires IsSet(from) && IsSet(to)
    decreases DayNumber(to) - DayNumber(from)
  {
    if !Before(from, to) then Ok([])
    else
      match VersionOn(versions, NextDay(from))
      case None => Err(NoContract)
      case Some(c) =>
        SegmentCoversDays(versions, from, to);
        var end := SegmentEnd(c, to);
        var rest :- Segments(versions, end, to);
        Ok([Segment(c, from, end)] + rest)
  }

  /** Segments that follow one another from one day to another, none of them empty. */
  ghost predicate Tiles(segments: seq<Segment>, from: Date, to: Date) {
    && (segments == [] ==> from == to)
    && (segments != [] ==> segments[0].from == from && segments[|segments| - 1].to == to)
    && (forall k :: 0 <= k < |segments| ==> Before(segments[k].from, segments[k].to))
    && (forall k :: 0 < k < |segments| ==> segments[k].from == segments[k - 1].to)
  }

  /**
   The segments tile the interval, and the version of each covers every one of its days: no day
   is charged twice, skipped, or priced under terms that do not apply to it.
   */
  lemma {:induction false} SegmentsTile(versions: seq<Contract>, from: Date, to: Date)
    requires IsSet(from) && !After(from, to) && Segments(versions, from, to).Ok?
    ensures IsSet(to) && Tiles(Segments(versions, from, to).value, from, to)
    ensures forall k, d: Date :: 0 <= k < |Segments(versions, from, to).value| ==>
              var s := Segments(versions, from, to).value[k];
              After(d, s.from) && !After(d, s.to) ==> s.contract in versions && s.contract.CoversDate(d)
    decreases DayNumber(to) - DayNumber(from)
  {
    hide DayNumber, VersionOn;
    CompareIsDayOrder(from, to);
    if Before(from, to) {
      var c := VersionOn(versions, NextDay(from)).value;
      var end := SegmentEnd(c, to);
      SegmentCoversDays(versions, from, to);
      SegmentsTile(versions, end, to);
      CoversTheSegment(versions, from, to);
    }
  }

  lemma CoversTheSegment(versions: seq<Contract>, from: Date, to: Date)
    requires IsSet(from) && Before(from, to) && VersionOn(versions, NextDay(from)).Some?
    ensures var c := VersionOn(versions, NextDay(from)).value;
            && c in versions
            && forall d: Date :: After(d, from) && !After(d, SegmentEnd(c, to)) ==> c.CoversDate(d)
  {
    hide DayNumber, VersionOn;
    VersionOnIsTheLatest(versions, NextDay(from));
    NextDayIsOneLater(from);
  }

  /** No two versions cover one day. */
  ghost predicate Disjoint(versions: seq<Contract>) {
    forall i, j, d: Date :: 0 <= i < |versions| && 0 <= j < |versions| && versions[i].CoversDate(d) && versions[j].CoversDate(d) ==>
      versions[i] == versions[j]
  }

  /** With disjoint versions every day is charged under the version in force on that very day. */
  lemma EveryDayUnderItsVersion(versions: seq<Contract>, from: Date, to: Date, k: nat, d: Date)
    requires IsSet(from) && !After(from, to) && Segments(versions, from, to).Ok? && Disjoint(versions)
    requires k < |Segments(versions, from, to).value|
    requires After(d, Segments(versions, from, to).value[k].from) && !After(d, Segments(versions, from, to).value[k].to)
    ensures VersionOn(versions, d) == Some(Segments(versions, from, to).value[k].contract)
  {
    hide VersionOn, Segments, Contract.CoversDate, DayNumber;
    SegmentsTile(versions, from, to);
    VersionOnIsTheLatest(versions, d);
    var c := Segments(versions, from, to).value[k].contract;
    var i :| 0 <= i < |versions| && versions[i] == c;
    var j :| 0 <= j < |versions| && versions[j] == VersionOn(versions, d).value;
  }

  /**
   A revision that starts on its predecessor's last day: that shared day is priced under the
   old terms by an interval that reaches it from before, and under the new ones exactly by an
   interval that starts on its eve.
   */
  lemma SharedDayIsPricedByTheOldTermsExactlyWhen(old_: Contract, new_: Contract, from: Date, to: Date)
    requires IsSet(from) && Before(from, to) && old_.effectiveThru == new_.effectiveFrom == to
    requires !Before(from, old_.effectiveFrom) && Before(old_.effectiveFrom, to) && new_.CoversDate(to)
    ensures Segments([old_, new_], from, to).Ok? && |Segments([old_, new_], from, to).value| == 1
    ensures Segments([old_, new_], from, to).value[0].contract == (if NextDay(from) == to then new_ else old_)
  {
    hide DayNumber;
    NextDayIsOneLater(from);
    CompareIsDayOrder(NextDay(from), to);
    var d := NextDay(from);
    assert [old_, new_][..1] == [old_] && [old_][..0] == [];
    assert VersionOn([old_], d) == Some(old_);
    assert VersionOn([old_, new_], d) == Some(if d == to then new_ else old_);
    assert Segments([old_, new_], to, to) == Ok([]);
  }

  // ---------- Interest ----------

  /** Days under the 30/360 US convention. */
  function Days30360(a: Date, b: Date): int {
    var d1 := if a.d == 31 then 30 else a.d;
    var d2 := if b.d == 31 && d1 == 30 then 30 else b.d;
    (b.y - a.y) * 360 + (b.m - a.m) * 30 + (d2 - d1)
  }

  function DaysPriced(c: Contract, from: Date, to: Date): nat
    requires IsSet(from) && IsSet(to)
  {
    var actual := DaysBetween(from, to);
    var days := if c.dayCount == Money.Thirty360 then Days30360(from, to) else actual;
    if actual <= 0 || days <= 0 then 0 else days
  }

  /** Interest on principal and overdue principal; it does not compound onto unpaid interest. */
  function Earned(base: int, s: Segment): nat
    requires IsSet(s.from) && IsSet(s.to)
  {
    if base <= 0 then 0 else s.contract.Interest(base, DaysPriced(s.contract, s.from, s.to))
  }

  function EarnedOver(base: int, segments: seq<Segment>): nat {
    if segments == [] then 0
    else
      var s := segments[0];
      (if IsSet(s.from) && IsSet(s.to) then Earned(base, s) else 0) + EarnedOver(base, segments[1..])
  }

  function InterestAcross(pos: Buckets, versions: seq<Contract>, from: Date, to: Date): (r: Result<nat>)
    requires IsSet(from) && IsSet(to)
    ensures r.Err? ==> r.failure == NoContract
  {
    match Segments(versions, from, to)
    case Ok(segments) => Ok(EarnedOver(pos.principal + pos.overduePrincipal, segments))
    case Err(_) => Err(NoContract)
  }

  function Total(amounts: seq<nat>): nat {
    if amounts == [] then 0 else amounts[0] + Total(amounts[1..])
  }

  /** What each segment earns on a base, by itself. */
  ghost predicate EarnedEach(base: nat, segments: seq<Segment>, amounts: seq<nat>) {
    |amounts| == |segments| && forall k :: 0 <= k < |segments| ==>
      && IsSet(segments[k].from) && IsSet(segments[k].to)
      && amounts[k] == segments[k].contract.Interest(base, DaysPriced(segments[k].contract, segments[k].from, segments[k].to))
  }

  /**
   Interest over an interval is earned by principal and overdue principal, and by nothing else:
   every segment earns its version's interest on those two buckets for its own days, and these
   amounts make up the whole.
   */
  lemma PrincipalAloneEarns(pos: Buckets, versions: seq<Contract>, from: Date, to: Date)
    requires IsSet(from) && !After(from, to) && Segments(versions, from, to).Ok? && pos.principal >= 0 && pos.overduePrincipal >= 0
    ensures IsSet(to)
    ensures exists amounts: seq<nat> ::
              && EarnedEach(pos.principal + pos.overduePrincipal, Segments(versions, from, to).value, amounts)
              && InterestAcross(pos, versions, from, to) == Ok(Total(amounts))
  {
    hide Segments, DayNumber, DaysPriced;
    SegmentsTile(versions, from, to);
    var segments := Segments(versions, from, to).value;
    forall k | 0 <= k < |segments| ensures IsSet(segments[k].from) && IsSet(segments[k].to) {
      assert Before(segments[k].from, segments[k].to);
      TiledDaysAreSet(segments, from, to, k);
    }
    var amounts := EarningsAddUp(pos.principal + pos.overduePrincipal, segments);
  }

  lemma {:induction false} TiledDaysAreSet(segments: seq<Segment>, from: Date, to: Date, k: nat)
    requires IsSet(from) && Tiles(segments, from, to) && k < |segments|
    ensures IsSet(segments[k].from) && IsSet(segments[k].to)
  {
    if k > 0 {
      TiledDaysAreSet(segments, from, to, k - 1);
    }
    CompareIsDayOrder(segments[k].from, segments[k].to);
    CompareIsDayOrder(segments[k].from, UNSET);
  }

  lemma {:induction false} EarningsAddUp(base: nat, segments: seq<Segment>) returns (amounts: seq<nat>)
    requires forall k :: 0 <= k < |segments| ==> IsSet(segments[k].from) && IsSet(segments[k].to)
    ensures EarnedEach(base, segments, amounts) && EarnedOver(base, segments) == Total(amounts)
  {
    hide DaysPriced;
    if segments == [] {
      amounts := [];
    } else {
      var rest := EarningsAddUp(base, segments[1..]);
      amounts := [Earned(base, segments[0])] + rest;
      assert amounts[1..] == rest;
    }
  }

  /** Within one version, that is its interest on principal and overdue principal for the days in between. */
  lemma OneVersionEarnsItsInterest(pos: Buckets, versions: seq<Contract>, from: Date, to: Date, c: Contract)
    requires IsSet(from) && Before(from, to) && VersionOn(versions, NextDay(from)) == Some(c)
    requires !IsSet(c.effectiveThru) || !Before(c.effectiveThru, to)
    requires pos.principal >= 0 && pos.overduePrincipal >= 0
    ensures IsSet(to) && DaysBetween(from, to) > 0
    ensures c.dayCount != Money.Thirty360 ==>
              InterestAcross(pos, versions, from, to) == Ok(c.Interest(pos.principal + pos.overduePrincipal, DaysBetween(from, to)))
  {
    hide DayNumber, VersionOn;
    CompareIsDayOrder(from, to);
    CompareIsDayOrder(from, UNSET);
    assert Segments(versions, to, to) == Ok([]);
    assert Segments(versions, from, to) == Ok([Segment(c, from, to)] + []);
    assert EarnedOver(pos.principal + pos.overduePrincipal, [Segment(c, from, to)][1..]) == 0;
  }

  /** Under 30/360 a month has thirty days, and so has the way from any day to the same day of a later month. */
  lemma MonthsHaveThirtyDays(a: Date, b: Date)
    requires IsSet(a) && IsSet(b)
    ensures a.d == b.d ==> Days30360(a, b) == 30 * (YearMonth(b) - YearMonth(a))
    ensures a.d <= 30 && b.d <= 30 ==> Days30360(a, b) == 30 * (YearMonth(b) - YearMonth(a)) + b.d - a.d
  {
  }

  /** Walks from boundary to boundary, pricing each segment under its version; it always ends. */
  method AccrueAcross(pos: Buckets, versions: seq<Contract>, from: Date, to: Date) returns (r: Result<nat>)
    requires IsSet(from) && IsSet(to)
    ensures r == InterestAcross(pos, versions, from, to)
  {
    hide DayNumber, VersionOn, Earned;
    var base := pos.principal + pos.overduePrincipal;
    var total: nat, start := 0, from;
    while Before(start, to)
      invariant IsSet(start)
      invariant match Segments(versions, start, to)
                case Ok(rest) => InterestAcross(pos, versions, from, to) == Ok(total + EarnedOver(base, rest))
                case Err(_) => InterestAcross(pos, versions, from, to) == Err(NoContract)
      decreases DayNumber(to) - DayNumber(start)
    {
      var c := ContractFor(versions, NextDay(start));
      if c.Err? {
        return Err(NoContract);
      }
      SegmentCoversDays(versions, start, to);
      var end := to;
      if IsSet(c.value.effectiveThru) && Before(c.value.effectiveThru, to) {
        end := c.value.effectiveThru;
      }
      assert end == SegmentEnd(c.value, to) && After(end, start);
      total := total + Earned(base, Segment(c.value, start, end));
      start := end;
    }
    return Ok(total);
  }

  // ---------- Events ----------

  datatype EventKind = PaymentReported | PrepaymentReported | BankFeeReported | EntryVoided | LoanClosedReported

  /** One reported fact: when it was recorded and, independently, when the lender applies it. */
  datatype Event = Event(id: string, recordedSeq: int, kind: EventKind, valueDate: Date, amount: int,
                         bankOrder: int, hasBankOrder: bool, voids: string)

  datatype Trust = UserEntered | BankConfirmed | ImportedVerified

  datatype Snapshot = Snapshot(loanId: string, asOf: Date, trust: Trust, position: Buckets, remainingInstalments: int)

  datatype Input = Input(contracts: seq<Contract>, anchor: Snapshot, events: seq<Event>, covered: set<string>,
                         policies: map<string, AllocationPolicy>, asOf: Date, freshnessDays: int)

  /** By value date, then the lender's own order where there is one, then as recorded. */
  predicate Earlier(a: Event, b: Event) {
    if Compare(a.valueDate, b.valueDate) != 0 then Compare(a.valueDate, b.valueDate) < 0
    else if a.hasBankOrder != b.hasBankOrder then a.hasBankOrder
    else if a.hasBankOrder && a.bankOrder != b.bankOrder then a.bankOrder < b.bankOrder
    else a.recordedSeq < b.recordedSeq
  }

  function ReplayKey(e: Event): (k: seq<int>)
    ensures |k| == 4
  {
    [DayNumber(e.valueDate), if e.hasBankOrder then 0 else 1, if e.hasBankOrder then e.bankOrder else 0, e.recordedSeq]
  }

  lemma EarlierIsLexicographic(a: Event, b: Event)
    ensures Earlier(a, b) <==> Sorting.LexLess(ReplayKey(a), ReplayKey(b))
  {
    hide DayNumber, Sorting.LexLess, Compare;
    CompareIsDayOrder(a.valueDate, b.valueDate);
    Sorting.LexOfFour(ReplayKey(a), ReplayKey(b));
  }

  function ReplayOrder(): (Event, Event) -> bool {
    (a: Event, b: Event) => Earlier(a, b)
  }

  lemma ReplayOrderSorts()
    ensures Sorting.StrictOrder(ReplayOrder())
  {
    hide Earlier, ReplayKey, Sorting.LexLess;
    forall a: Event, b: Event, c: Event
      ensures !Earlier(a, a)
      ensures Earlier(a, b) && Earlier(b, c) ==> Earlier(a, c)
      ensures Earlier(a, c) ==> Earlier(a, b) || Earlier(b, c)
    {
      var x, y, z := ReplayKey(a), ReplayKey(b), ReplayKey(c);
      EarlierIsLexicographic(a, a);
      EarlierIsLexicographic(a, b);
      EarlierIsLexicographic(b, c);
      EarlierIsLexicographic(a, c);
      Sorting.LexIsTotal(x, x);
      Sorting.LexIsTotal(x, y);
      Sorting.LexIsTotal(y, z);
      Sorting.LexIsTotal(x, z);
      if Sorting.LexLess(x, y) && Sorting.LexLess(y, z) {
        Sorting.LexIsTransitive(x, y, z);
      }
      if Sorting.LexLess(z, y) && Sorting.LexLess(y, x) {
        Sorting.LexIsTransitive(z, y, x);
      }
    }
  }

  /** One event is replayed no later than another: an earlier value date, then what the bank ordered, as it did, then as recorded. */
  predicate NoLater(a: Event, b: Event) {
    || Before(a.valueDate, b.valueDate)
    || (a.valueDate == b.valueDate
        && (if a.hasBankOrder && b.hasBankOrder then
              a.bankOrder < b.bankOrder || (a.bankOrder == b.bankOrder && a.recordedSeq <= b.recordedSeq)
            else if a.hasBankOrder || b.hasBankOrder then a.hasBankOrder
            else a.recordedSeq <= b.recordedSeq))
  }

  /** A replay takes its events by value date, and on one date as the bank ordered them, then as recorded. */
  lemma ReplayFollowsTheCalendar(events: seq<Event>, i: nat, j: nat)
    requires i < j < |Sorting.Sort(events, ReplayOrder())|
    ensures NoLater(Sorting.Sort(events, ReplayOrder())[i], Sorting.Sort(events, ReplayOrder())[j])
  {
    hide Sorting.Sort, DayNumber;
    ReplayOrderSorts();
    Sorting.SortOrders(events, ReplayOrder());
    var a, b := Sorting.Sort(events, ReplayOrder())[i], Sorting.Sort(events, ReplayOrder())[j];
    assert !ReplayOrder()(b, a);
    CompareIsDayOrder(a.valueDate, b.valueDate);
    CompareIsDayOrder(b.valueDate, a.valueDate);
  }

  predicate DistinctSeqs(events: seq<Event>) {
    forall i, j :: 0 <= i < j < |events| ==> events[i].recordedSeq != events[j].recordedSeq
  }

  lemma DistinctSeqsAreUntied(events: seq<Event>)
    requires DistinctSeqs(events)
    ensures Sorting.Untied(events, ReplayOrder())
  {
    hide Sorting.LexLess, DayNumber, Earlier;
    forall i, j | 0 <= i < j < |events|
      ensures Earlier(events[i], events[j]) || Earlier(events[j], events[i])
    {
      EarlierIsLexicographic(events[i], events[j]);
      EarlierIsLexicographic(events[j], events[i]);
      Sorting.LexIsTotal(ReplayKey(events[i]), ReplayKey(events[j]));
      Sorting.LexOfFour(ReplayKey(events[i]), ReplayKey(events[j]));
    }
  }

  // ---------- Partition ----------

  datatype Skip = VoidMarker | VoidedLater | AlreadyIncluded | PredatesAnchor

  predicate IsVoided(events: seq<Event>, id: string) {
    exists e :: e in events && e.kind == EntryVoided && e.voids != "" && e.voids == id
  }

  /** Why an event takes no part in the arithmetic, if it does not. */
  function Disposition(in_: Input, e: Event): Option<Skip> {
    if e.kind == EntryVoided then Some(VoidMarker)
    else if IsVoided(in_.events, e.id) then Some(VoidedLater)
    else if e.id in in_.covered then Some(AlreadyIncluded)
    else if Before(e.valueDate, in_.anchor.asOf) then Some(PredatesAnchor)
    else None
  }

  function ActiveOf(in_: Input, events: seq<Event>): seq<Event> {
    if events == [] then []
    else
      var e := events[|events| - 1];
      ActiveOf(in_, events[..|events| - 1]) + if Disposition(in_, e).None? then [e] else []
  }

  function SkippedOf(in_: Input, events: seq<Event>): seq<(Event, Skip)> {
    if events == [] then []
    else
      var e := events[|events| - 1];
      SkippedOf(in_, events[..|events| - 1])
      + match Disposition(in_, e) case Some(why) => [(e, why)] case None => []
  }

  function Watermark(events: seq<Event>): int {
    if events == [] then 0
    else
      var before, e := Watermark(events[..|events| - 1]), events[|events| - 1];
      if e.recordedSeq > before then e.recordedSeq else before
  }

  predicate Ambiguous(in_: Input) {
    exists e :: e in in_.events && Disposition(in_, e) == Some(PredatesAnchor)
  }

  /** Decides for every event, once, whether it takes part. */
  method Partition(in_: Input) returns (active: seq<Event>, skipped: seq<(Event, Skip)>, ambiguous: bool, watermark: int)
    ensures active == ActiveOf(in_, in_.events) && skipped == SkippedOf(in_, in_.events)
    ensures ambiguous == Ambiguous(in_) && watermark == Watermark(in_.events)
  {
    hide Before;
    var events := in_.events;
    var voided: set<string> := {};
    for k := 0 to |events|
      invariant forall id :: id in voided <==> exists j :: 0 <= j < k && events[j].kind == EntryVoided && events[j].voids == id != ""
    {
      if events[k].kind == EntryVoided && events[k].voids != "" {
        voided := voided + {events[k].voids};
      }
    }
    active, skipped, ambiguous, watermark := [], [], false, 0;
    for k := 0 to |events|
      invariant active == ActiveOf(in_, events[..k]) && skipped == SkippedOf(in_, events[..k])
      invariant ambiguous <==> exists j :: 0 <= j < k && Disposition(in_, events[j]) == Some(PredatesAnchor)
      invariant watermark == Watermark(events[..k])
    {
      assert events[..k + 1][..k] == events[..k];
      var e := events[k];
      VoidedByMembership(events, voided, e.id);
      if e.recordedSeq > watermark {
        watermark := e.recordedSeq;
      }
      if e.kind == EntryVoided {
        skipped := skipped + [(e, VoidMarker)];
      } else if e.id in voided {
        skipped := skipped + [(e, VoidedLater)];
      } else if e.id in in_.covered {
        skipped := skipped + [(e, AlreadyIncluded)];
      } else if Before(e.valueDate, in_.anchor.asOf) {
        skipped := skipped + [(e, PredatesAnchor)];
        ambiguous := true;
      } else {
        active := active + [e];
      }
    }
    assert events[..|events|] == events;
  }

  lemma VoidedByMembership(events: seq<Event>, voided: set<string>, id: string)
    requires forall x :: x in voided <==> exists j :: 0 <= j < |events| && events[j].kind == EntryVoided && events[j].voids == x != ""
    ensures id in voided <==> IsVoided(events, id)
  {
  }

  /** Every event is either active or skipped for one stated reason; none is lost or taken twice. */
  lemma {:induction false} PartitionKeepsEvents(in_: Input, events: seq<Event>)
    ensures |ActiveOf(in_, events)| + |SkippedOf(in_, events)| == |events|
    ensures forall e :: multiset(ActiveOf(in_, events))[e] == if Disposition(in_, e).None? then multiset(events)[e] else 0
  {
    hide Disposition;
    if events != [] {
      PartitionKeepsEvents(in_, events[..|events| - 1]);
      assert events == events[..|events| - 1] + [events[|events| - 1]];
    }
  }

  lemma {:induction false} WatermarkIsTheLargest(events: seq<Event>)
    ensures forall e :: e in events ==> e.recordedSeq <= Watermark(events)
    ensures Watermark(events) == 0 || exists e :: e in events && e.recordedSeq == Watermark(events)
  {
    if events != [] {
      WatermarkIsTheLargest(events[..|events| - 1]);
      assert events == events[..|events| - 1] + [events[|events| - 1]];
    }
  }

  // ---------- Replay ----------

  /** One event as this replay interpreted it. */
  datatype Applied = Applied(event: Event, split: Split, interest: nat)

  /** Where a replay stands: the position, the day interest has run to, and what was applied. */
  datatype Standing = Standing(pos: Buckets, cursor: Date, policyUnknown: bool, applied: seq<Applied>)

  function PolicyFor(in_: Input, c: Contract): AllocationPolicy {
    if c.allocationPolicy in in_.policies then in_.policies[c.allocationPolicy] else UNKNOWN
  }

  /** One event settled against a position: the next position, the split, and whether the policy was unknown. */
  function ApplyEvent(pos: Buckets, e: Event, p: AllocationPolicy): (r: Result<(Buckets, Split, bool)>)
    ensures r.Err? ==> r.failure == BadPayment || r.failure == CannotApply
  {
    match e.kind
    case PaymentReported => ApplyPayment(pos, e.amount, p)
    case PrepaymentReported => ApplyPayment(pos, e.amount, p)
    case BankFeeReported =>
      Ok((pos.(currentFees := pos.currentFees + e.amount), Split(map[CURRENT_FEES := e.amount], 0, 0, 0, true), false))
    case LoanClosedReported => Ok((Buckets(0, 0, 0, 0, 0, 0, 0, 0), NOTHING, false))
    case EntryVoided => Err(CannotApply)
  }

  function ApplyPayment(pos: Buckets, amount: int, p: AllocationPolicy): Result<(Buckets, Split, bool)> {
    if amount <= 0 then Err(BadPayment)
    else if !p.Known() then Ok((pos, Split(map[], 0, 0, amount, false), true))
    else
      var (next, split) := Allocated(pos, amount, p);
      Ok((next, split, false))
  }

  function ReplayOne(in_: Input, s: Standing, e: Event): (r: Result<Standing>)
    requires IsSet(s.cursor) && IsSet(e.valueDate)
    ensures r.Ok? ==> IsSet(r.value.cursor)
    ensures r.Err? ==> r.failure != ImpossiblePosition
  {
    match VersionOn(in_.contracts, e.valueDate)
    case None => Err(NoContract)
    case Some(c) =>
      var interest :- InterestAcross(s.pos, in_.contracts, s.cursor, e.valueDate);
      var accrued := s.pos.(accruedInterest := s.pos.accruedInterest + interest);
      var (next, split, unknown) :- ApplyEvent(accrued, e, PolicyFor(in_, c));
      Ok(Standing(next, e.valueDate, s.policyUnknown || unknown, s.applied + [Applied(e, split, interest)]))
  }

  predicate Dated(events: seq<Event>) {
    forall k :: 0 <= k < |events| ==> IsSet(events[k].valueDate)
  }

  function ReplayAll(in_: Input, s: Standing, events: seq<Event>): (r: Result<Standing>)
    requires IsSet(s.cursor) && Dated(events)
    ensures r.Ok? ==> IsSet(r.value.cursor)
    ensures r.Err? ==> r.failure != ImpossiblePosition
  {
    if events == [] then Ok(s)
    else
      var before :- ReplayAll(in_, s, events[..|events| - 1]);
      ReplayOne(in_, before, events[|events| - 1])
  }

  datatype Reliability = Confirmed | Estimated | NeedsReconciliation | Stale | Unsupported

  const DEFAULT_FRESHNESS_DAYS := 35

  function Grade(in_: Input, pos: Buckets, ambiguous: bool, policyUnknown: bool): Reliability
    requires IsSet(in_.anchor.asOf) && IsSet(in_.asOf)
  {
    if pos.HasArrears() || in_.anchor.position.HasArrears() then Unsupported
    else if ambiguous || policyUnknown then NeedsReconciliation
    else if in_.anchor.trust == UserEntered then Estimated
    else if DaysBetween(in_.anchor.asOf, in_.asOf) > (if in_.freshnessDays <= 0 then DEFAULT_FRESHNESS_DAYS else in_.freshnessDays)
    then Stale
    else Confirmed
  }

  /** A confirmed state owes no arrears, hides no ambiguity, rests on a bank's figure, and that is no older than is fresh. */
  lemma ConfirmedExactlyWhen(in_: Input, pos: Buckets, ambiguous: bool, policyUnknown: bool)
    requires IsSet(in_.anchor.asOf) && IsSet(in_.asOf)
    ensures Grade(in_, pos, ambiguous, policyUnknown) == Confirmed <==>
              && pos.penalties <= 0 && pos.overduePrincipal <= 0 && pos.overdueFees <= 0 && pos.unpaidInterest <= 0
              && !in_.anchor.position.HasArrears() && !ambiguous && !policyUnknown && in_.anchor.trust != UserEntered
              && DaysBetween(in_.anchor.asOf, in_.asOf) <= (if in_.freshnessDays > 0 then in_.freshnessDays else 35)
  {
    hide DayNumber;
  }

  /** The derived state, the exact events behind it in order, and what was accrued after the last of them. */
  datatype State = State(position: Buckets, active: seq<Event>, applied: seq<Applied>, skipped: seq<(Event, Skip)>, tail: nat,
                         watermark: int, reliability: Reliability)

  predicate AnchorValid(s: Snapshot) {
    s.loanId != "" && IsSet(s.asOf) && s.remainingInstalments >= 0 && s.position.Valid()
  }

  function Opening(in_: Input): Standing {
    Standing(in_.anchor.position, in_.anchor.asOf, false, [])
  }

  function Replayed(in_: Input, active: seq<Event>): Result<State>
    requires IsSet(in_.anchor.asOf) ==> Dated(active)
  {
    if !AnchorValid(in_.anchor) then Err(BadAnchor)
    else if in_.contracts == [] then Err(NoContract)
    else if !IsSet(in_.asOf) then Err(NoAsOf)
    else if Before(in_.asOf, in_.anchor.asOf) then Err(AsOfTooEarly)
    else
      var s :- ReplayAll(in_, Opening(in_), active);
      var tail :- InterestAcross(s.pos, in_.contracts, s.cursor, in_.asOf);
      var pos := s.pos.(accruedInterest := s.pos.accruedInterest + tail);
      if !pos.Valid() then Err(ImpossiblePosition)
      else
        Ok(State(pos, active, s.applied, SkippedOf(in_, in_.events), tail, Watermark(in_.events),
                 Grade(in_, pos, Ambiguous(in_), s.policyUnknown)))
  }

  /** Derives the current position; on any structural error there is no state at all. */
  method Replay(in_: Input) returns (r: Result<State>)
    ensures IsSet(in_.anchor.asOf) ==> Dated(Sorting.Sort(ActiveOf(in_, in_.events), ReplayOrder()))
    ensures r == Replayed(in_, Sorting.Sort(ActiveOf(in_, in_.events), ReplayOrder()))
  {
    hide InterestAcross, ReplayAll, Buckets.Valid, Grade, Sorting.Sort, ActiveOf, SkippedOf, Watermark, Ambiguous, Before;
    Sorting.SortKeeps(ActiveOf(in_, in_.events), ReplayOrder());
    SortedActiveAreDated(in_);
    if !AnchorValid(in_.anchor) {
      return Err(BadAnchor);
    }
    if in_.contracts == [] {
      return Err(NoContract);
    }
    if !IsSet(in_.asOf) {
      return Err(NoAsOf);
    }
    if Before(in_.asOf, in_.anchor.asOf) {
      return Err(AsOfTooEarly);
    }
    var active, skipped, ambiguous, watermark := Partition(in_);
    active := Sorting.Sort(active, ReplayOrder());
    var s :- ReplayActive(in_, Opening(in_), active);
    var tail :- AccrueAcross(s.pos, in_.contracts, s.cursor, in_.asOf);
    var pos := s.pos.(accruedInterest := s.pos.accruedInterest + tail);
    if !pos.Valid() {
      return Err(ImpossiblePosition);
    }
    return Ok(State(pos, active, s.applied, skipped, tail, watermark, Grade(in_, pos, ambiguous, s.policyUnknown)));
  }

  method ReplayActive(in_: Input, opening: Standing, active: seq<Event>) returns (r: Result<Standing>)
    requires IsSet(opening.cursor) && Dated(active)
    ensures r == ReplayAll(in_, opening, active)
  {
    hide ReplayOne;
    var s := opening;
    assert active[..0] == [];
    for k := 0 to |active|
      invariant IsSet(s.cursor) && ReplayAll(in_, opening, active[..k]) == Ok(s)
    {
      assert active[..k + 1][..k] == active[..k];
      var step := Step(in_, s, active[k]);
      if step.Err? {
        ReplayFails(in_, opening, active, k + 1);
        return step;
      }
      s := step.value;
    }
    assert active[..|active|] == active;
    return Ok(s);
  }

  /** Accrues up to one event and settles it. */
  method Step(in_: Input, s: Standing, e: Event) returns (r: Result<Standing>)
    requires IsSet(s.cursor) && IsSet(e.valueDate)
    ensures r == ReplayOne(in_, s, e) && (r.Ok? ==> IsSet(r.value.cursor))
  {
    hide VersionOn, InterestAcross, Allocated;
    var c := ContractFor(in_.contracts, e.valueDate);
    if c.Err? {
      return Err(NoContract);
    }
    var interest :- AccrueAcross(s.pos, in_.contracts, s.cursor, e.valueDate);
    var pos := s.pos.(accruedInterest := s.pos.accruedInterest + interest);
    var p := PolicyFor(in_, c.value);
    var unknown, split := false, NOTHING;
    match e.kind {
      case PaymentReported =>
        var err;
        pos, split, err := Apply(pos, e.amount, p);
        if err == Some(NotPositive) {
          return Err(BadPayment);
        }
        unknown := err == Some(UnknownPolicy);
      case PrepaymentReported =>
        var err;
        pos, split, err := Apply(pos, e.amount, p);
        if err == Some(NotPositive) {
          return Err(BadPayment);
        }
        unknown := err == Some(UnknownPolicy);
      case BankFeeReported =>
        pos := pos.(currentFees := pos.currentFees + e.amount);
        split := Split(map[CURRENT_FEES := e.amount], 0, 0, 0, true);
      case LoanClosedReported =>
        pos := Buckets(0, 0, 0, 0, 0, 0, 0, 0);
      case EntryVoided =>
        return Err(CannotApply);
    }
    return Ok(Standing(pos, e.valueDate, s.policyUnknown || unknown, s.applied + [Applied(e, split, interest)]));
  }

  lemma {:induction false} ReplayFails(in_: Input, s: Standing, events: seq<Event>, k: nat)
    requires IsSet(s.cursor) && Dated(events) && k <= |events| && ReplayAll(in_, s, events[..k]).Err?
    ensures ReplayAll(in_, s, events) == ReplayAll(in_, s, events[..k])
    decreases |events|
  {
    hide ReplayOne;
    if k < |events| {
      assert events[..|events| - 1][..k] == events[..k];
      ReplayFails(in_, s, events[..|events| - 1], k);
    } else {
      assert events[..k] == events;
    }
  }

  /** An event without a value date predates any anchor, and so is never active. */
  lemma {:induction false} ActiveAreDated(in_: Input, events: seq<Event>)
    requires IsSet(in_.anchor.asOf)
    ensures Dated(ActiveOf(in_, events))
  {
    hide DayNumber, IsVoided;
    if events != [] {
      CompareIsDayOrder(UNSET, in_.anchor.asOf);
      ActiveAreDated(in_, events[..|events| - 1]);
    }
  }

  lemma SortedActiveAreDated(in_: Input)
    ensures IsSet(in_.anchor.asOf) ==> Dated(Sorting.Sort(ActiveOf(in_, in_.events), ReplayOrder()))
  {
    if IsSet(in_.anchor.asOf) {
      ActiveAreDated(in_, in_.events);
      SortedAreDated(ActiveOf(in_, in_.events));
    }
  }

  lemma SortedAreDated(events: seq<Event>)
    requires Dated(events)
    ensures Dated(Sorting.Sort(events, ReplayOrder()))
  {
    Sorting.SortKeeps(events, ReplayOrder());
    var sorted := Sorting.Sort(events, ReplayOrder());
    forall k | 0 <= k < |sorted|
      ensures IsSet(sorted[k].valueDate)
    {
      assert sorted[k] in multiset(sorted);
      assert sorted[k] in events;
    }
  }

  // ---------- Conservation ----------

  /** What one applied event adds to what is owed: interest and fees, less what a payment settled. */
  function Charged(a: Applied): int {
    a.interest + match a.event.kind
      case PaymentReported => -(a.event.amount - a.split.pending - a.split.unapplied)
      case PrepaymentReported => -(a.event.amount - a.split.pending - a.split.unapplied)
      case BankFeeReported => a.event.amount
      case _ => 0
  }

  function ChargedBy(applied: seq<Applied>): int {
    if applied == [] then 0 else ChargedBy(applied[..|applied| - 1]) + Charged(applied[|applied| - 1])
  }

  /** Policies that never spend the lender's credit, events that never close the loan or report a negative fee. */
  predicate Ordinary(in_: Input, events: seq<Event>) {
    && (forall key :: key in in_.policies ==> OrdersDebts(in_.policies[key].order))
    && (forall k :: 0 <= k < |events| ==>
          events[k].kind != LoanClosedReported && (events[k].kind == BankFeeReported ==> events[k].amount >= 0))
  }

  lemma EventConserves(in_: Input, s: Standing, e: Event)
    requires IsSet(s.cursor) && IsSet(e.valueDate) && Ordinary(in_, [e]) && s.pos.Valid()
    requires ReplayOne(in_, s, e).Ok?
    ensures var s' := ReplayOne(in_, s, e).value;
            && s'.pos.Valid() && |s'.applied| == |s.applied| + 1 && s'.applied[..|s.applied|] == s.applied
            && s'.pos.TotalOwed() == s.pos.TotalOwed() + Charged(s'.applied[|s.applied|])
  {
    hide VersionOn, InterestAcross, Allocated;
    assert [e][0] == e;
    var c := VersionOn(in_.contracts, e.valueDate).value;
    var interest := InterestAcross(s.pos, in_.contracts, s.cursor, e.valueDate).value;
    var accrued := s.pos.(accruedInterest := s.pos.accruedInterest + interest);
    var p := PolicyFor(in_, c);
    if (e.kind == PaymentReported || e.kind == PrepaymentReported) && p.Known() {
      PaymentLowersTheDebtExactlyWhen(accrued, e.amount, p);
      DebtsTakeNoCredit(accrued, e.amount, p.order);
    }
  }

  lemma {:induction false} EventsConserve(in_: Input, s: Standing, events: seq<Event>)
    requires IsSet(s.cursor) && Dated(events) && Ordinary(in_, events) && s.pos.Valid() && s.applied == []
    requires ReplayAll(in_, s, events).Ok?
    ensures var s' := ReplayAll(in_, s, events).value;
            s'.pos.Valid() && |s'.applied| == |events| && s'.pos.TotalOwed() == s.pos.TotalOwed() + ChargedBy(s'.applied)
  {
    hide ReplayOne, Charged, Buckets.Valid, Buckets.TotalOwed;
    if events != [] {
      EventsConserve(in_, s, events[..|events| - 1]);
      EventConserves(in_, ReplayAll(in_, s, events[..|events| - 1]).value, events[|events| - 1]);
    }
  }

  /**
   What is owed at the end is what was owed at the anchor, plus all interest and bank fees, less
   what payments settled; no bucket is negative, and the position cannot be impossible.
   */
  lemma ReplayConserves(in_: Input, active: seq<Event>)
    requires Dated(active) && Ordinary(in_, active)
    ensures Replayed(in_, active) != Err(ImpossiblePosition)
    ensures Replayed(in_, active).Ok? ==>
              var s := Replayed(in_, active).value;
              && s.position.Valid() && |s.applied| == |active|
              && s.position.TotalOwed() == in_.anchor.position.TotalOwed() + ChargedBy(s.applied) + s.tail
  {
    hide ReplayAll, InterestAcross, Grade, SkippedOf, Watermark, Ambiguous;
    if AnchorValid(in_.anchor) && in_.contracts != [] && IsSet(in_.asOf) && ReplayAll(in_, Opening(in_), active).Ok? {
      EventsConserve(in_, Opening(in_), active);
    }
  }

  // ---------- Interest does not compound ----------

  predicate NoPayments(events: seq<Event>) {
    forall k :: 0 <= k < |events| ==> events[k].kind != PaymentReported && events[k].kind != PrepaymentReported
  }

  /** The same principal, whatever else is owed; other debts apart by a fixed amount. */
  predicate Apart(s: Standing, s': Standing, more: int) {
    && s'.pos.principal == s.pos.principal && s'.pos.overduePrincipal == s.pos.overduePrincipal
    && s'.cursor == s.cursor && s'.policyUnknown == s.policyUnknown && s'.applied == s.applied
    && s'.pos.TotalOwed() - s.pos.TotalOwed() == more
  }

  /** Principal and overdue principal decide what an interval earns. */
  lemma OtherDebtsEarnNothing(pos: Buckets, pos': Buckets, versions: seq<Contract>, from: Date, to: Date)
    requires IsSet(from) && IsSet(to) && pos'.principal == pos.principal && pos'.overduePrincipal == pos.overduePrincipal
    ensures InterestAcross(pos', versions, from, to) == InterestAcross(pos, versions, from, to)
  {
    hide Segments, EarnedOver;
  }

  lemma OneEventApart(in_: Input, s: Standing, s': Standing, e: Event, more: int)
    requires IsSet(s.cursor) && IsSet(e.valueDate) && Apart(s, s', more) && ReplayOne(in_, s, e).Ok?
    requires e.kind != PaymentReported && e.kind != PrepaymentReported
    ensures ReplayOne(in_, s', e).Ok?
    ensures Apart(ReplayOne(in_, s, e).value, ReplayOne(in_, s', e).value, if e.kind == LoanClosedReported then 0 else more)
  {
    hide VersionOn, InterestAcross, ApplyPayment, PolicyFor;
    OtherDebtsEarnNothing(s.pos, s'.pos, in_.contracts, s.cursor, e.valueDate);
    var interest := InterestAcross(s.pos, in_.contracts, s.cursor, e.valueDate).value;
    var a, a' := s.pos.(accruedInterest := s.pos.accruedInterest + interest), s'.pos.(accruedInterest := s'.pos.accruedInterest + interest);
    assert a'.TotalOwed() - a.TotalOwed() == more;
  }

  lemma {:induction false} EventsApart(in_: Input, s: Standing, s': Standing, events: seq<Event>, more: int)
    requires IsSet(s.cursor) && IsSet(s'.cursor) && Dated(events) && NoPayments(events)
    requires Apart(s, s', more) && ReplayAll(in_, s, events).Ok?
    ensures ReplayAll(in_, s', events).Ok?
    ensures var closed := exists k :: 0 <= k < |events| && events[k].kind == LoanClosedReported;
            Apart(ReplayAll(in_, s, events).value, ReplayAll(in_, s', events).value, if closed then 0 else more)
  {
    hide ReplayOne, Apart;
    if events != [] {
      var n := |events| - 1;
      EventsApart(in_, s, s', events[..n], more);
      var closed := exists k :: 0 <= k < n && events[..n][k].kind == LoanClosedReported;
      assert closed <==> exists k :: 0 <= k < n && events[k].kind == LoanClosedReported;
      OneEventApart(in_, ReplayAll(in_, s, events[..n]).value, ReplayAll(in_, s', events[..n]).value, events[n],
                    if closed then 0 else more);
    }
  }

  /** The same replay from an anchor that owes otherwise. */
  function Anchored(in_: Input, position: Buckets): Input {
    in_.(anchor := in_.anchor.(position := position))
  }

  lemma {:induction false} AnchorsReplayAlike(in_: Input, position: Buckets, s: Standing, events: seq<Event>)
    requires IsSet(s.cursor) && Dated(events)
    ensures ReplayAll(Anchored(in_, position), s, events) == ReplayAll(in_, s, events)
  {
    hide VersionOn, InterestAcross, ApplyEvent;
    if events != [] {
      AnchorsReplayAlike(in_, position, s, events[..|events| - 1]);
    }
  }

  /**
   Unpaid interest, fees and penalties earn nothing: anchors with the same principal and overdue
   principal accrue the same interest at every event and after the last one, until a payment
   settles them differently; what is owed stays apart by what it was apart at the anchor.
   */
  lemma InterestDoesNotCompound(in_: Input, position: Buckets, active: seq<Event>)
    requires Dated(active) && NoPayments(active)
    requires position.principal == in_.anchor.position.principal && position.overduePrincipal == in_.anchor.position.overduePrincipal
    requires Replayed(in_, active).Ok? && Replayed(Anchored(in_, position), active).Ok?
    ensures var s, s' := Replayed(in_, active).value, Replayed(Anchored(in_, position), active).value;
            && s'.tail == s.tail && s'.applied == s.applied
            && ((forall k :: 0 <= k < |active| ==> active[k].kind != LoanClosedReported) ==>
                  s'.position.TotalOwed() - s.position.TotalOwed() == position.TotalOwed() - in_.anchor.position.TotalOwed())
  {
    hide ReplayAll, Segments, EarnedOver, Grade, SkippedOf, Watermark, Ambiguous, Buckets.Valid;
    var in' := Anchored(in_, position);
    AnchorsReplayAlike(in_, position, Opening(in'), active);
    EventsApart(in_, Opening(in_), Opening(in'), active, position.TotalOwed() - in_.anchor.position.TotalOwed());
  }

  // ---------- The order events are listed in ----------

  lemma SameDispositions(in_: Input, in': Input, e: Event)
    requires in' == in_.(events := in'.events) && multiset(in_.events) == multiset(in'.events)
    ensures Disposition(in_, e) == Disposition(in', e)
  {
    SameMembers(in_.events, in'.events);
  }

  lemma SameMembers(a: seq<Event>, b: seq<Event>)
    requires multiset(a) == multiset(b)
    ensures forall e :: e in a <==> e in b
  {
    forall e ensures e in a <==> e in b {
      assert e in a <==> e in multiset(a);
      assert e in b <==> e in multiset(b);
    }
  }

  lemma SameActive(in_: Input, in': Input)
    requires in' == in_.(events := in'.events) && multiset(in_.events) == multiset(in'.events)
    ensures multiset(ActiveOf(in_, in_.events)) == multiset(ActiveOf(in', in'.events))
  {
    hide Disposition;
    PartitionKeepsEvents(in_, in_.events);
    PartitionKeepsEvents(in', in'.events);
    forall e
      ensures multiset(ActiveOf(in_, in_.events))[e] == multiset(ActiveOf(in', in'.events))[e]
    {
      SameDispositions(in_, in', e);
    }
  }

  lemma {:induction false} ActiveHaveDistinctSeqs(in_: Input, events: seq<Event>)
    requires DistinctSeqs(events)
    ensures DistinctSeqs(ActiveOf(in_, events))
    ensures forall e :: e in ActiveOf(in_, events) ==> e in events
  {
    hide Disposition;
    if events != [] {
      var n := |events| - 1;
      ActiveHaveDistinctSeqs(in_, events[..n]);
      assert events == events[..n] + [events[n]];
      var active := ActiveOf(in_, events[..n]);
      forall i | 0 <= i < |active|
        ensures active[i].recordedSeq != events[n].recordedSeq
      {
        assert active[i] in events[..n];
        var j :| 0 <= j < n && events[j] == active[i];
      }
    }
  }

  /** Interest, splits and positions read the contracts, the policies and the anchor, never the event list. */
  lemma {:induction false} SameReplay(in_: Input, in': Input, s: Standing, events: seq<Event>)
    requires in' == in_.(events := in'.events) && IsSet(s.cursor) && Dated(events)
    ensures ReplayAll(in_, s, events) == ReplayAll(in', s, events)
  {
    hide VersionOn, InterestAcross, ApplyEvent;
    if events != [] {
      SameReplay(in_, in', s, events[..|events| - 1]);
    }
  }

  /**
   Listing the same events in another order changes neither the position, nor the events behind
   it and their sequence, nor the splits, the watermark or the reliability.
   */
  lemma ReplayIgnoresListing(in_: Input, in': Input)
    requires in' == in_.(events := in'.events) && multiset(in_.events) == multiset(in'.events)
    requires DistinctSeqs(in_.events)
    ensures IsSet(in_.anchor.asOf) ==> Dated(Sorting.Sort(ActiveOf(in_, in_.events), ReplayOrder()))
    ensures var sorted := Sorting.Sort(ActiveOf(in_, in_.events), ReplayOrder());
            && Sorting.Sort(ActiveOf(in', in'.events), ReplayOrder()) == sorted
            && Replayed(in_, sorted).Ok? == Replayed(in', sorted).Ok?
            && (Replayed(in_, sorted).Ok? ==>
                  Replayed(in', sorted).value == Replayed(in_, sorted).value.(skipped := Replayed(in', sorted).value.skipped))
            && (Replayed(in_, sorted).Err? ==> Replayed(in', sorted) == Replayed(in_, sorted))
  {
    hide Disposition, Earlier, ReplayAll, InterestAcross, Sorting.Sort, SkippedOf, Watermark;
    SortedActiveAreDated(in_);
    SameActive(in_, in');
    ActiveHaveDistinctSeqs(in_, in_.events);
    ReplayOrderSorts();
    DistinctSeqsAreUntied(ActiveOf(in_, in_.events));
    Sorting.SortIgnoresOrder(ActiveOf(in_, in_.events), ActiveOf(in', in'.events), ReplayOrder());
    var sorted := Sorting.Sort(ActiveOf(in_, in_.events), ReplayOrder());
    if AnchorValid(in_.anchor) {
      SameReplay(in_, in', Opening(in_), sorted);
    }
    SameWatermark(in_.events, in'.events);
    SameAmbiguity(in_, in');
  }

  lemma SameAmbiguity(in_: Input, in': Input)
    requires in' == in_.(events := in'.events) && multiset(in_.events) == multiset(in'.events)
    ensures Ambiguous(in_) == Ambiguous(in')
  {
    hide Disposition;
    SameMembers(in_.events, in'.events);
    forall e ensures Disposition(in_, e) == Disposition(in', e) {
      SameDispositions(in_, in', e);
    }
  }

  lemma SameWatermark(a: seq<Event>, b: seq<Event>)
    requires multiset(a) == multiset(b)
    ensures Watermark(a) == Watermark(b)
  {
    hide Watermark;
    SameMembers(a, b);
    WatermarkIsTheLargest(a);
    WatermarkIsTheLargest(b);
    WatermarkIsNatural(a);
    WatermarkIsNatural(b);
  }

  lemma {:induction false} WatermarkIsNatural(events: seq<Event>)
    ensures Watermark(events) >= 0
  {
    if events != [] {
      WatermarkIsNatural(events[..|events| - 1]);
    }
  }
}
