/** Stable sorting by a strict order. Where the order is total on the elements, the result does not depend on theirs. */
module Sorting {

  ghost predicate StrictOrder<T(!new)>(less: (T, T) -> bool) {
    && (forall x :: !less(x, x))
    && (forall x, y, z :: less(x, y) && less(y, z) ==> less(x, z))
    && (forall x, y, z :: less(x, z) ==> less(x, y) || less(y, z))
  }

  /** No two elements at different places are tied. */
  ghost predicate Untied<T(!new)>(xs: seq<T>, less: (T, T) -> bool) {
    forall i, j :: 0 <= i < j < |xs| ==> less(xs[i], xs[j]) || less(xs[j], xs[i])
  }

  ghost predicate Ordered<T(!new)>(xs: seq<T>, less: (T, T) -> bool) {
    forall i, j :: 0 <= i < j < |xs| ==> !less(xs[j], xs[i])
  }

  function Insert<T>(sorted: seq<T>, x: T, less: (T, T) -> bool): (r: seq<T>)
    ensures |r| == |sorted| + 1
  {
    if sorted == [] || !less(x, sorted[|sorted| - 1]) then sorted + [x]
    else Insert(sorted[..|sorted| - 1], x, less) + [sorted[|sorted| - 1]]
  }

  /** Each element goes after every earlier one it does not precede. */
  function Sort<T>(xs: seq<T>, less: (T, T) -> bool): (r: seq<T>)
    ensures |r| == |xs|
  {
    if xs == [] then [] else Insert(Sort(xs[..|xs| - 1], less), xs[|xs| - 1], less)
  }

  lemma {:induction false} InsertKeeps<T>(sorted: seq<T>, x: T, less: (T, T) -> bool)
    ensures multiset(Insert(sorted, x, less)) == multiset(sorted) + multiset{x}
  {
    if sorted != [] && less(x, sorted[|sorted| - 1]) {
      InsertKeeps(sorted[..|sorted| - 1], x, less);
      assert sorted == sorted[..|sorted| - 1] + [sorted[|sorted| - 1]];
    }
  }

  /** Sorting loses, repeats and invents nothing. */
  lemma {:induction false} SortKeeps<T>(xs: seq<T>, less: (T, T) -> bool)
    ensures multiset(Sort(xs, less)) == multiset(xs)
  {
    if xs != [] {
      SortKeeps(xs[..|xs| - 1], less);
      InsertKeeps(Sort(xs[..|xs| - 1], less), xs[|xs| - 1], less);
      assert xs == xs[..|xs| - 1] + [xs[|xs| - 1]];
    }
  }

  lemma {:induction false} InsertOrders<T(!new)>(sorted: seq<T>, x: T, less: (T, T) -> bool)
    requires StrictOrder(less) && Ordered(sorted, less)
    ensures Ordered(Insert(sorted, x, less), less)
  {
    if sorted != [] && less(x, sorted[|sorted| - 1]) {
      var n := |sorted| - 1;
      var before := Insert(sorted[..n], x, less);
      InsertOrders(sorted[..n], x, less);
      InsertKeeps(sorted[..n], x, less);
      forall i | 0 <= i < |before|
        ensures !less(sorted[n], before[i])
      {
        assert before[i] in multiset(before);
        assert before[i] == x || before[i] in sorted[..n];
      }
    } else if sorted != [] {
      forall i | 0 <= i < |sorted|
        ensures !less(x, sorted[i])
      {
      }
    }
  }

  lemma {:induction false} SortOrders<T(!new)>(xs: seq<T>, less: (T, T) -> bool)
    requires StrictOrder(less)
    ensures Ordered(Sort(xs, less), less)
  {
    if xs != [] {
      SortOrders(xs[..|xs| - 1], less);
      InsertOrders(Sort(xs[..|xs| - 1], less), xs[|xs| - 1], less);
    }
  }

  lemma SplitAt<T>(xs: seq<T>, k: nat)
    requires k < |xs|
    ensures xs == xs[..k] + [xs[k]] + xs[k + 1..]
    ensures multiset(xs[..k] + xs[k + 1..]) == multiset(xs) - multiset{xs[k]}
  {
    assert xs == xs[..k] + [xs[k]] + xs[k + 1..];
  }

  lemma FirstPrecedes<T(!new)>(xs: seq<T>, less: (T, T) -> bool)
    requires Ordered(xs, less) && Untied(xs, less)
    ensures forall k :: 0 < k < |xs| ==> less(xs[0], xs[k])
  {
    forall k | 0 < k < |xs|
      ensures less(xs[0], xs[k])
    {
      assert !less(xs[k], xs[0]);
    }
  }

  lemma SameFirst<T(!new)>(xs: seq<T>, ys: seq<T>, less: (T, T) -> bool)
    requires Ordered(xs, less) && Ordered(ys, less) && Untied(xs, less) && multiset(xs) == multiset(ys) && xs != []
    ensures ys != [] && xs[0] == ys[0]
  {
    assert xs[0] in multiset(ys);
    var j :| 0 <= j < |ys| && ys[j] == xs[0];
    assert ys[0] in multiset(ys);
    var i :| 0 <= i < |xs| && xs[i] == ys[0];
    FirstPrecedes(xs, less);
  }

  lemma RestOf<T>(xs: seq<T>)
    requires xs != []
    ensures multiset(xs[1..]) == multiset(xs) - multiset{xs[0]}
  {
    assert xs == [xs[0]] + xs[1..];
  }

  /** There is one way to put untied elements in order. */
  lemma {:induction false} OrderedIsUnique<T(!new)>(xs: seq<T>, ys: seq<T>, less: (T, T) -> bool)
    requires Ordered(xs, less) && Ordered(ys, less) && Untied(xs, less) && multiset(xs) == multiset(ys)
    ensures xs == ys
    decreases |xs|
  {
    if xs == [] {
      assert |multiset(xs)| == |xs| && |multiset(ys)| == |ys|;
    } else {
      SameFirst(xs, ys, less);
      RestOf(xs);
      RestOf(ys);
      OrderedIsUnique(xs[1..], ys[1..], less);
      assert xs == [xs[0]] + xs[1..] && ys == [ys[0]] + ys[1..];
    }
  }

  lemma {:induction false} UntiedIgnoresOrder<T(!new)>(xs: seq<T>, ys: seq<T>, less: (T, T) -> bool)
    requires StrictOrder(less) && Untied(xs, less) && multiset(xs) == multiset(ys)
    ensures Untied(ys, less)
  {
    forall i, j | 0 <= i < j < |ys|
      ensures less(ys[i], ys[j]) || less(ys[j], ys[i])
    {
      assert multiset(ys)[ys[i]] >= 1 && ys[i] in multiset(xs) && ys[j] in multiset(xs) by {
        assert ys[i] in multiset(ys) && ys[j] in multiset(ys);
      }
      if ys[i] == ys[j] {
        TwiceIn(ys, i, j);
        var a, b := TwoPlaces(xs, ys[i]);
      } else {
        var a :| 0 <= a < |xs| && xs[a] == ys[i];
        var b :| 0 <= b < |xs| && xs[b] == ys[j];
        assert a < b || b < a;
      }
    }
  }

  lemma TwiceIn<T>(xs: seq<T>, i: nat, j: nat)
    requires i < j < |xs| && xs[i] == xs[j]
    ensures multiset(xs)[xs[i]] >= 2
  {
    SplitAt(xs, i);
    var rest := xs[..i] + xs[i + 1..];
    assert rest[j - 1] == xs[j] && rest[j - 1] in multiset(rest);
  }

  lemma TwoPlaces<T>(xs: seq<T>, x: T) returns (a: nat, b: nat)
    requires multiset(xs)[x] >= 2
    ensures a < b < |xs| && xs[a] == xs[b] == x
  {
    var k :| 0 <= k < |xs| && xs[k] == x;
    SplitAt(xs, k);
    var rest := xs[..k] + xs[k + 1..];
    assert x in multiset(rest);
    var m :| 0 <= m < |rest| && rest[m] == x;
    var other := if m < k then m else m + 1;
    assert xs[other] == x;
    a, b := if other < k then other else k, if other < k then k else other;
  }

  /** Sorting untied elements gives one result, whatever order they come in. */
  lemma SortIgnoresOrder<T(!new)>(xs: seq<T>, ys: seq<T>, less: (T, T) -> bool)
    requires StrictOrder(less) && Untied(xs, less) && multiset(xs) == multiset(ys)
    ensures Sort(xs, less) == Sort(ys, less)
  {
    SortKeeps(xs, less);
    SortKeeps(ys, less);
    SortOrders(xs, less);
    SortOrders(ys, less);
    UntiedIgnoresOrder(xs, Sort(xs, less), less);
    OrderedIsUnique(Sort(xs, less), Sort(ys, less), less);
  }

  /** Strings in dictionary order. */
  predicate StrLess(a: string, b: string) {
    if b == "" then false
    else if a == "" then true
    else a[0] < b[0] || (a[0] == b[0] && StrLess(a[1..], b[1..]))
  }

  /** Different strings come one before the other, and never both ways. */
  lemma {:induction false} StrLessIsTotal(a: string, b: string)
    ensures if a == b then !StrLess(a, b) && !StrLess(b, a) else StrLess(a, b) != StrLess(b, a)
  {
    if a != "" && b != "" {
      StrLessIsTotal(a[1..], b[1..]);
      assert a == [a[0]] + a[1..] && b == [b[0]] + b[1..];
    }
  }

  lemma {:induction false} StrLessIsTransitive(a: string, b: string, c: string)
    requires StrLess(a, b) && StrLess(b, c)
    ensures StrLess(a, c)
  {
    if a != "" && a[0] == b[0] && b[0] == c[0] {
      StrLessIsTransitive(a[1..], b[1..], c[1..]);
    }
  }

  /** Rows of numbers, the first one deciding. */
  predicate LexLess(x: seq<int>, y: seq<int>)
    requires |x| == |y|
  {
    x != [] && (x[0] < y[0] || (x[0] == y[0] && LexLess(x[1..], y[1..])))
  }

  lemma {:induction false} LexIsTotal(x: seq<int>, y: seq<int>)
    requires |x| == |y|
    ensures if x == y then !LexLess(x, y) && !LexLess(y, x) else LexLess(x, y) != LexLess(y, x)
  {
    if x != [] {
      LexIsTotal(x[1..], y[1..]);
      assert x == [x[0]] + x[1..] && y == [y[0]] + y[1..];
    }
  }

  lemma {:induction false} LexIsTransitive(x: seq<int>, y: seq<int>, z: seq<int>)
    requires |x| == |y| == |z| && LexLess(x, y) && LexLess(y, z)
    ensures LexLess(x, z)
  {
    if x[0] == y[0] == z[0] {
      LexIsTransitive(x[1..], y[1..], z[1..]);
    }
  }

  lemma LexOfFour(x: seq<int>, y: seq<int>)
    requires |x| == |y| == 4
    ensures LexLess(x, y) <==>
              x[0] < y[0] || (x[0] == y[0] && (x[1] < y[1] || (x[1] == y[1] && (x[2] < y[2] || (x[2] == y[2] && x[3] < y[3])))))
    ensures x == y <==> x[0] == y[0] && x[1] == y[1] && x[2] == y[2] && x[3] == y[3]
  {
    assert x[1..][1..] == x[2..] && x[2..][1..] == x[3..] && y[1..][1..] == y[2..] && y[2..][1..] == y[3..];
    assert x[3..] == [x[3]] && y[3..] == [y[3]];
    assert LexLess(x[3..], y[3..]) <==> x[3] < y[3];
    assert LexLess(x[2..], y[2..]) <==> x[2] < y[2] || (x[2] == y[2] && LexLess(x[3..], y[3..]));
    assert LexLess(x[1..], y[1..]) <==> x[1] < y[1] || (x[1] == y[1] && LexLess(x[2..], y[2..]));
  }
}
