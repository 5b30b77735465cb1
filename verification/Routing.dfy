/** Routed receipts: splitting them into isolated buckets that are kept in a stable order. */
module Routing {
  import opened Dates
  import opened Portfolio
  import opened SimState
  import Sorting

  /** Destination order never inherits the order of receipts or of the search. */
  predicate BucketLess(a: CashBucket, b: CashBucket) {
    if a.target != b.target then Sorting.StrLess(a.target, b.target)
    else if a.until != b.until then Before(a.until, b.until)
    else if a.minimum != b.minimum then a.minimum < b.minimum
    else !a.released && b.released
  }

  /** The stable order buckets are kept in. */
  function SortBuckets(bs: seq<CashBucket>): seq<CashBucket> {
    Sorting.Sort(bs, (a: CashBucket, b: CashBucket) => BucketLess(a, b))
  }

  /** Sorting moves buckets without losing, merging or inventing one, so no money moves. */
  lemma SortKeepsBuckets(bs: seq<CashBucket>)
    ensures multiset(SortBuckets(bs)) == multiset(bs)
    ensures Restricted(SortBuckets(bs)) == Restricted(bs)
  {
    Sorting.SortKeeps(bs, (a: CashBucket, b: CashBucket) => BucketLess(a, b));
    RestrictedIsOrderless(SortBuckets(bs), bs);
  }

  /** One bucket stands before another: by destination, then by hold date, then by threshold, the unreleased first. */
  predicate StandsFirst(a: CashBucket, b: CashBucket) {
    && !Sorting.StrLess(b.target, a.target)
    && (a.target == b.target ==> !After(a.until, b.until))
    && (a.target == b.target && a.until == b.until ==> a.minimum <= b.minimum)
    && (a.target == b.target && a.until == b.until && a.minimum == b.minimum ==> !(a.released && !b.released))
  }

  /** Buckets stand by destination and gates, whatever the order their money came in. */
  lemma BucketsStandInOrder(bs: seq<CashBucket>, i: nat, j: nat)
    requires i < j < |SortBuckets(bs)|
    ensures StandsFirst(SortBuckets(bs)[i], SortBuckets(bs)[j])
  {
    hide Sorting.Sort, DayNumber, Sorting.StrLess;
    var less := (a: CashBucket, b: CashBucket) => BucketLess(a, b);
    BucketOrderSorts();
    Sorting.SortOrders(bs, less);
    var a, b := SortBuckets(bs)[i], SortBuckets(bs)[j];
    assert !less(b, a);
    Sorting.StrLessIsTotal(a.target, b.target);
    CompareIsDayOrder(a.until, b.until);
    CompareIsDayOrder(b.until, a.until);
  }

  lemma BucketOrderSorts()
    ensures Sorting.StrictOrder((a: CashBucket, b: CashBucket) => BucketLess(a, b))
  {
    hide BucketLess;
    forall a: CashBucket, b: CashBucket, c: CashBucket
      ensures !BucketLess(a, a)
      ensures BucketLess(a, b) && BucketLess(b, c) ==> BucketLess(a, c)
      ensures BucketLess(a, c) ==> BucketLess(a, b) || BucketLess(b, c)
    {
      BucketsCompare(a, b, c);
    }
  }

  lemma BucketsCompare(a: CashBucket, b: CashBucket, c: CashBucket)
    ensures !BucketLess(a, a)
    ensures BucketLess(a, b) && BucketLess(b, c) ==> BucketLess(a, c)
    ensures BucketLess(a, c) ==> BucketLess(a, b) || BucketLess(b, c)
  {
    hide DayNumber, Sorting.StrLess;
    var x, y, z := a.target, b.target, c.target;
    Sorting.StrLessIsTotal(x, x);
    Sorting.StrLessIsTotal(x, y);
    Sorting.StrLessIsTotal(y, z);
    Sorting.StrLessIsTotal(x, z);
    if Sorting.StrLess(x, y) && Sorting.StrLess(y, z) {
      Sorting.StrLessIsTransitive(x, y, z);
    }
    if Sorting.StrLess(z, y) && Sorting.StrLess(y, x) {
      Sorting.StrLessIsTransitive(z, y, x);
    }
    CompareIsDayOrder(a.until, b.until);
    CompareIsDayOrder(b.until, c.until);
    CompareIsDayOrder(a.until, c.until);
  }

  /** The parts of a receipt: its exact splits, or all of it for the one destination. */
  function Parts(e: CashEvent): seq<CashSplit>
    requires e.routing.Some?
  {
    if e.routing.value.splits == [] then [CashSplit(e.routing.value.loanId, e.amount)] else e.routing.value.splits
  }

  /** A receipt's parts are positive and add up to it. */
  lemma PartsAddUp(in_: Input, e: CashEvent)
    requires e.routing.Some? && RoutingAccepted(in_, e)
    ensures SplitTotal(Parts(e)) == e.amount
    ensures forall k :: 0 <= k < |Parts(e)| ==> Parts(e)[k].amount > 0
  {
    hide TargetAccepts;
    if e.routing.value.splits == [] {
      assert SplitTotal(Parts(e)) == e.amount + SplitTotal([]);
    }
  }

  /** A bucket that may take one more part without a new bucket. */
  predicate Merges(b: CashBucket, target: string, until: Date, minimum: int) {
    !b.released && b.target == target && b.until == until && b.minimum == minimum
  }

  /**
   A bucket as of one day: unreleased ones hold money, and money whose hold date lies ahead
   has a reconsideration scheduled no later than that date.
   */
  predicate BucketOk(b: CashBucket, day: int) {
    && (!b.released ==> b.remaining > 0)
    && (IsSet(b.wake) ==> YearMonth(b.wake) > 12 && DayNumber(b.wake) >= day)
    && (IsSet(b.until) ==> YearMonth(b.until) > 12)
    && (b.remaining > 0 && day < DayNumber(b.until) ==> IsSet(b.wake) && !After(b.wake, b.until))
  }

  predicate BucketsOk(bs: seq<CashBucket>, day: int) {
    forall k :: 0 <= k < |bs| ==> BucketOk(bs[k], day)
  }

  lemma SortKeepsBucketsOk(bs: seq<CashBucket>, day: int)
    requires BucketsOk(bs, day)
    ensures BucketsOk(SortBuckets(bs), day)
  {
    hide BucketOk;
    SortKeepsBuckets(bs);
    var sorted := SortBuckets(bs);
    forall k | 0 <= k < |sorted|
      ensures BucketOk(sorted[k], day)
    {
      assert sorted[k] in multiset(sorted);
      assert sorted[k] in bs;
    }
  }

  /** A bucket reconsidered on a day: its past wake dropped, its hold date kept, its gates tried. */
  function Reconsidered(b: CashBucket, on: Date): CashBucket {
    var w := if IsSet(b.wake) && !After(b.wake, on) then b.(wake := UNSET) else b;
    if w.remaining == 0 then w
    else if Before(on, w.until) then w.(wake := w.until)
    else if !w.released && w.remaining >= w.minimum then w.(released := true)
    else w
  }

  predicate Spendable(b: CashBucket, on: Date) {
    b.remaining > 0 && !Before(on, b.until) && b.released
  }

  /** Reconsidering keeps the money and leaves no wake on or before the day. */
  lemma ReconsideringIsSafe(b: CashBucket, on: Date)
    requires BucketOk(b, DayNumber(on)) && IsSet(on)
    ensures var b' := Reconsidered(b, on);
            && BucketOk(b', DayNumber(on)) && WakeMoves(b, b') && b'.remaining == b.remaining && b'.target == b.target
            && (IsSet(b'.wake) ==> After(b'.wake, on))
            && (b.released ==> b'.released)
            && (!b.released && b.remaining > 0 ==>
                  (b'.released <==> !Before(on, b.until) && b.remaining >= b.minimum))
  {
    hide DayNumber, Before, After;
  }
}
