/**
 The candidate axes of a search: priority orders, prepayment effects and payment timings.
 Enumeration by swapping in place visits every order exactly once, masks visit every mix of
 free choices exactly once, and the capped product of the axes is a prefix of all candidates.
 */
module Candidates {
  import opened Contracts
  import opened Portfolio
  import Money

  const MAX_EXHAUSTIVE_ORDERS := 5
  const MAX_VECTOR_LOANS := 4
  const MAX_POLICIES := 4096

  // ---------- Permutations by swapping in place ----------

  function Swapped(s: seq<nat>, i: nat, j: nat): (r: seq<nat>)
    requires i < |s| && j < |s|
    ensures |r| == |s|
  {
    s[i := s[j]][j := s[i]]
  }

  /** Every order that keeps the first k places, in the sequence the swaps produce them. */
  function PermsFrom(s: seq<nat>, k: nat): (ps: seq<seq<nat>>)
    requires k <= |s|
    decreases |s| - k, 1, 0
  {
    if k == |s| then [s] else PermsUpTo(s, k, |s|)
  }

  /** Those that bring one of the places k to i - 1 to place k. */
  function PermsUpTo(s: seq<nat>, k: nat, i: nat): (ps: seq<seq<nat>>)
    requires k < |s| && k <= i <= |s|
    decreases |s| - k, 0, i
  {
    if i == k then [] else PermsUpTo(s, k, i - 1) + PermsFrom(Swapped(s, k, i - 1), k + 1)
  }

  class Enumeration {
    const cur: array<nat>
    var out: seq<seq<nat>>

    constructor (n: nat)
      ensures fresh(cur) && cur[..] == Identity(n) && out == []
    {
      cur := new nat[n](i => i);
      out := [];
      new;
      assert cur[..] == Identity(n);
    }

    /** Lists every order of the places from k on, and puts the working order back as it was. */
    method From(k: nat)
      requires k <= cur.Length
      modifies cur, `out
      ensures cur[..] == old(cur[..]) && out == old(out) + PermsFrom(old(cur[..]), k)
      decreases cur.Length - k
    {
      if k == cur.Length {
        out := out + [cur[..]];
        return;
      }
      ghost var s := cur[..];
      for i := k to cur.Length
        invariant cur[..] == s && out == old(out) + PermsUpTo(s, k, i)
      {
        cur[k], cur[i] := cur[i], cur[k];
        assert cur[..] == Swapped(s, k, i);
        From(k + 1);
        cur[k], cur[i] := cur[i], cur[k];
        assert cur[..] == s;
      }
    }
  }

  function Identity(n: nat): (s: seq<nat>)
    ensures |s| == n && forall i :: 0 <= i < n ==> s[i] == i
  {
    seq(n, i => i)
  }

  /** Every order of the loans, each exactly once: no order is missed, repeated, or not an order. */
  method Permutations(n: nat) returns (out: seq<seq<nat>>)
    ensures forall p :: p in out <==> IsOrder(p, n)
    ensures forall i, j :: 0 <= i < j < |out| ==> out[i] != out[j]
    ensures |out| == Factorial(n)
  {
    var e := new Enumeration(n);
    e.From(0);
    out := e.out;
    PermsAreTheOrders(n);
    PermsDiffer(Identity(n), 0);
    PermsCount(Identity(n), 0);
  }

  predicate IsOrder(p: seq<nat>, n: nat) {
    multiset(p) == multiset(Identity(n))
  }

  function Factorial(n: nat): (f: nat)
    ensures f > 0
  {
    if n == 0 then 1 else n * Factorial(n - 1)
  }

  lemma SwapIsAPermutation(s: seq<nat>, i: nat, j: nat)
    requires i < |s| && j < |s|
    ensures multiset(Swapped(s, i, j)) == multiset(s)
    ensures (forall x, y :: 0 <= x < y < |s| ==> s[x] != s[y]) ==>
              forall x, y :: 0 <= x < y < |s| ==> Swapped(s, i, j)[x] != Swapped(s, i, j)[y]
  {
  }

  /** What is listed keeps the places before k and the elements, and brings some later place to k. */
  lemma {:induction false} PermsKeep(s: seq<nat>, k: nat, t: seq<nat>)
    requires k <= |s| && t in PermsFrom(s, k)
    ensures |t| == |s| && t[..k] == s[..k] && multiset(t) == multiset(s)
    decreases |s| - k, |s| + 1
  {
    if k < |s| {
      UpToKeep(s, k, |s|, t);
    }
  }

  lemma {:induction false} UpToKeep(s: seq<nat>, k: nat, i: nat, t: seq<nat>)
    requires k < |s| && k <= i <= |s| && t in PermsUpTo(s, k, i)
    ensures |t| == |s| && t[..k] == s[..k] && multiset(t) == multiset(s) && exists j :: k <= j < i && t[k] == s[j]
    decreases |s| - k, i
  {
    hide PermsFrom;
    if t in PermsUpTo(s, k, i - 1) {
      UpToKeep(s, k, i - 1, t);
    } else {
      PermsKeep(Swapped(s, k, i - 1), k + 1, t);
      KeptThroughSwap(s, k, i - 1, t);
    }
  }

  lemma KeptThroughSwap(s: seq<nat>, k: nat, i: nat, t: seq<nat>)
    requires k <= i < |s| == |t| && t[..k + 1] == Swapped(s, k, i)[..k + 1] && multiset(t) == multiset(Swapped(s, k, i))
    ensures t[..k] == s[..k] && multiset(t) == multiset(s) && t[k] == s[i]
  {
    SwapIsAPermutation(s, k, i);
    var s' := Swapped(s, k, i);
    assert t[k] == t[..k + 1][k] == s'[k];
    assert t[..k] == t[..k + 1][..k] == s'[..k + 1][..k] == s[..k];
  }

  /** Nothing is missed: any order agreeing on the first k places is listed. */
  lemma {:induction false} PermsReach(s: seq<nat>, k: nat, t: seq<nat>)
    requires k <= |s| == |t| && t[..k] == s[..k] && multiset(t) == multiset(s)
    ensures t in PermsFrom(s, k)
    decreases |s| - k
  {
    if k == |s| {
      assert t == s by {
        assert t == t[..k] && s == s[..k];
      }
    } else {
      var i := PlaceOf(s, k, t);
      var s' := Swapped(s, k, i);
      SwapIsAPermutation(s, k, i);
      assert t[..k + 1] == s'[..k + 1];
      PermsReach(s', k + 1, t);
      assert t in PermsUpTo(s, k, i + 1);
      UpToGrows(s, k, i + 1, |s|);
    }
  }

  lemma PlaceOf(s: seq<nat>, k: nat, t: seq<nat>) returns (i: nat)
    requires k < |s| == |t| && t[..k] == s[..k] && multiset(t) == multiset(s)
    ensures k <= i < |s| && s[i] == t[k]
  {
    assert s == s[..k] + s[k..] && t == t[..k] + t[k..];
    assert multiset(s[k..]) == multiset(s) - multiset(s[..k]) == multiset(t[k..]);
    assert t[k] == t[k..][0] && t[k] in multiset(t[k..]);
    assert t[k] in s[k..];
    var j :| 0 <= j < |s[k..]| && s[k..][j] == t[k];
    i := k + j;
  }

  lemma {:induction false} UpToGrows(s: seq<nat>, k: nat, i: nat, j: nat)
    requires k < |s| && k <= i <= j <= |s|
    ensures PermsUpTo(s, k, i) <= PermsUpTo(s, k, j)
    decreases j
  {
    if i < j {
      UpToGrows(s, k, i, j - 1);
    }
  }

  lemma PermsAreTheOrders(n: nat)
    ensures forall p :: p in PermsFrom(Identity(n), 0) <==> IsOrder(p, n)
  {
    var s := Identity(n);
    forall p | p in PermsFrom(s, 0)
      ensures IsOrder(p, n)
    {
      PermsKeep(s, 0, p);
    }
    forall p | IsOrder(p, n)
      ensures p in PermsFrom(s, 0)
    {
      assert |multiset(p)| == |p|;
      PermsReach(s, 0, p);
    }
  }

  /** Nothing is listed twice. */
  lemma {:induction false} PermsDiffer(s: seq<nat>, k: nat)
    requires k <= |s| && forall i, j :: 0 <= i < j < |s| ==> s[i] != s[j]
    ensures forall x, y :: 0 <= x < y < |PermsFrom(s, k)| ==> PermsFrom(s, k)[x] != PermsFrom(s, k)[y]
    decreases |s| - k, |s| + 1
  {
    if k < |s| {
      UpToDiffer(s, k, |s|);
    }
  }

  lemma {:induction false} UpToDiffer(s: seq<nat>, k: nat, i: nat)
    requires k < |s| && k <= i <= |s| && forall i, j :: 0 <= i < j < |s| ==> s[i] != s[j]
    ensures forall x, y :: 0 <= x < y < |PermsUpTo(s, k, i)| ==> PermsUpTo(s, k, i)[x] != PermsUpTo(s, k, i)[y]
    decreases |s| - k, i
  {
    if i > k {
      var before, s' := PermsUpTo(s, k, i - 1), Swapped(s, k, i - 1);
      var here := PermsFrom(s', k + 1);
      UpToDiffer(s, k, i - 1);
      SwapIsAPermutation(s, k, i - 1);
      PermsDiffer(s', k + 1);
      forall x, y | 0 <= x < |before| && 0 <= y < |here|
        ensures before[x] != here[y]
      {
        UpToKeep(s, k, i - 1, before[x]);
        PermsKeep(s', k + 1, here[y]);
        KeptThroughSwap(s, k, i - 1, here[y]);
      }
    }
  }

  lemma {:induction false} PermsCount(s: seq<nat>, k: nat)
    requires k <= |s|
    ensures |PermsFrom(s, k)| == Factorial(|s| - k)
    decreases |s| - k, |s| + 1
  {
    if k < |s| {
      UpToCount(s, k, |s|);
    }
  }

  lemma {:induction false} UpToCount(s: seq<nat>, k: nat, i: nat)
    requires k < |s| && k <= i <= |s|
    ensures |PermsUpTo(s, k, i)| == (i - k) * Factorial(|s| - k - 1)
    decreases |s| - k, i
  {
    if i > k {
      UpToCount(s, k, i - 1);
      PermsCount(Swapped(s, k, i - 1), k + 1);
      assert (i - k) * Factorial(|s| - k - 1) == (i - 1 - k) * Factorial(|s| - k - 1) + Factorial(|s| - k - 1);
    }
  }

  // ---------- Named orders and deduplication ----------

  datatype Order = Order(name: string, idx: seq<nat>, also: seq<string>)

  /** All names given to one order, in the sequence they came. */
  function NamesOf(os: seq<Order>, idx: seq<nat>): seq<string> {
    if os == [] then []
    else NamesOf(os[..|os| - 1], idx) + if os[|os| - 1].idx == idx then [os[|os| - 1].name] else []
  }

  predicate Has(os: seq<Order>, idx: seq<nat>) {
    exists k :: 0 <= k < |os| && os[k].idx == idx
  }

  /** A deduplicated list: the same orders, each once, under its first name and remembering the others. */
  ghost predicate Deduped(os: seq<Order>, out: seq<Order>) {
    && (forall i, j :: 0 <= i < j < |out| ==> out[i].idx != out[j].idx)
    && (forall i :: 0 <= i < |out| ==> out[i].also == NamesOf(os, out[i].idx) && out[i].also != [] && out[i].name == out[i].also[0])
    && (forall idx :: Has(out, idx) <==> Has(os, idx))
  }

  /** Keeps the first of equal orders, and remembers every name it went by. */
  method DedupeOrders(os: seq<Order>) returns (out: seq<Order>)
    ensures Deduped(os, out)
  {
    hide Deduped;
    var seen: map<seq<nat>, nat> := map[];
    out := [];
    NothingDeduped(os);
    for k := 0 to |os|
      invariant forall i :: 0 <= i < |out| ==> out[i].idx in seen
      invariant forall x :: x in seen ==> seen[x] < |out| && out[seen[x]].idx == x
      invariant Deduped(os[..k], out)
    {
      var o := os[k];
      if o.idx in seen {
        var i := seen[o.idx];
        DedupeSeen(os, k, out, i);
        out := out[i := out[i].(also := out[i].also + [o.name])];
      } else {
        DedupeNew(os, k, out);
        seen := seen[o.idx := |out|];
        out := out + [o.(also := [o.name])];
      }
    }
    assert os[..|os|] == os;
  }

  lemma NothingDeduped(os: seq<Order>)
    ensures os[..0] == [] && Deduped([], [])
  {
  }

  lemma DedupeSeen(os: seq<Order>, k: nat, out: seq<Order>, i: nat)
    requires k < |os| && i < |out| && out[i].idx == os[k].idx && Deduped(os[..k], out)
    ensures Deduped(os[..k + 1], out[i := out[i].(also := out[i].also + [os[k].name])])
  {
    var out' := out[i := out[i].(also := out[i].also + [os[k].name])];
    assert os[..k + 1][..k] == os[..k];
    forall idx
      ensures Has(out', idx) <==> Has(os[..k + 1], idx)
    {
      HasOneMore(os, k, idx);
      assert Has(out', idx) <==> Has(out, idx) by {
        if Has(out, idx) {
          var j :| 0 <= j < |out| && out[j].idx == idx;
          assert out'[j].idx == idx;
        }
      }
    }
  }

  lemma DedupeNew(os: seq<Order>, k: nat, out: seq<Order>)
    requires k < |os| && Deduped(os[..k], out) && forall i :: 0 <= i < |out| ==> out[i].idx != os[k].idx
    ensures Deduped(os[..k + 1], out + [os[k].(also := [os[k].name])])
  {
    var out' := out + [os[k].(also := [os[k].name])];
    assert os[..k + 1][..k] == os[..k];
    NoNames(os[..k], os[k].idx) by {
      forall j | 0 <= j < k ensures os[..k][j].idx != os[k].idx {
        assert Has(os[..k], os[j].idx) by { assert os[..k][j].idx == os[j].idx; }
      }
    }
    forall idx
      ensures Has(out', idx) <==> Has(os[..k + 1], idx)
    {
      HasOneMore(os, k, idx);
      assert out'[..|out|] == out && out'[|out|].idx == os[k].idx;
      if Has(out, idx) {
        var j :| 0 <= j < |out| && out[j].idx == idx;
        assert out'[j].idx == idx;
      }
    }
  }

  lemma HasOneMore(os: seq<Order>, k: nat, idx: seq<nat>)
    requires k < |os|
    ensures Has(os[..k + 1], idx) <==> Has(os[..k], idx) || os[k].idx == idx
  {
    if Has(os[..k], idx) {
      var j :| 0 <= j < k && os[..k][j].idx == idx;
      assert os[..k + 1][j].idx == idx;
    }
    assert os[..k + 1][k] == os[k];
  }

  lemma {:induction false} NoNames(os: seq<Order>, idx: seq<nat>)
    requires forall k :: 0 <= k < |os| ==> os[k].idx != idx
    ensures NamesOf(os, idx) == []
  {
    if os != [] {
      NoNames(os[..|os| - 1], idx);
    }
  }

  /** Deduplicating the named orders followed by all permutations leaves every order exactly once. */
  method AllOrders(n: nat, named: seq<Order>) returns (out: seq<Order>)
    requires forall k :: 0 <= k < |named| ==> IsOrder(named[k].idx, n)
    ensures forall i, j :: 0 <= i < j < |out| ==> out[i].idx != out[j].idx
    ensures n <= MAX_EXHAUSTIVE_ORDERS ==> forall p :: Has(out, p) <==> IsOrder(p, n)
    ensures n > MAX_EXHAUSTIVE_ORDERS ==> Deduped(named, out)
  {
    hide NamesOf, IsOrder;
    if n > MAX_EXHAUSTIVE_ORDERS {
      out := DedupeOrders(named);
      return;
    }
    var perms := Permutations(n);
    var all := named + seq(|perms|, i requires 0 <= i < |perms| => Order("order", perms[i], []));
    out := DedupeOrders(all);
    forall p
      ensures Has(all, p) <==> IsOrder(p, n)
    {
      if IsOrder(p, n) {
        var k :| 0 <= k < |perms| && perms[k] == p;
        assert all[|named| + k].idx == p;
      }
    }
  }

  // ---------- Mixes of free choices ----------

  function Pow2(n: nat): (p: nat)
    ensures p > 0
  {
    if n == 0 then 1 else 2 * Pow2(n - 1)
  }

  /** Bit k of a mask. */
  predicate Bit(mask: nat, k: nat) {
    (mask / Pow2(k)) % 2 == 1
  }

  /** The mask with given bits, the lowest first. */
  function MaskOf(bits: seq<bool>): (m: nat)
    ensures m < Pow2(|bits|)
  {
    if bits == [] then 0 else (if bits[0] then 1 else 0) + 2 * MaskOf(bits[1..])
  }

  lemma {:induction false} HalfBit(mask: nat, k: nat)
    ensures Bit(mask, 0) <==> mask % 2 == 1
    ensures Bit(mask, k + 1) <==> Bit(mask / 2, k)
  {
    assert Pow2(k + 1) == 2 * Pow2(k);
    DivideTwice(mask, Pow2(k));
  }

  lemma DivideTwice(m: nat, p: nat)
    requires p > 0
    ensures m / (2 * p) == (m / 2) / p
  {
    var q, r := (m / 2) / p, (m / 2) % p;
    assert m / 2 == q * p + r;
    assert m == 2 * (q * p + r) + m % 2 == q * (2 * p) + (2 * r + m % 2);
    assert 0 <= 2 * r + m % 2 < 2 * p;
    UniqueQuotient(m, 2 * p, q, 2 * r + m % 2);
  }

  lemma UniqueQuotient(m: nat, d: nat, q: nat, r: nat)
    requires d > 0 && r < d && m == q * d + r
    ensures m / d == q
  {
    Money.DivisionAtLeast(m, d, q);
    if m / d > q {
      Money.MulMonotone(q + 1, m / d, d);
    }
  }

  /** Each row of bits belongs to one mask, and only one. */
  lemma {:induction false} BitsOfMask(bits: seq<bool>, mask: nat)
    requires mask < Pow2(|bits|)
    ensures (forall k :: 0 <= k < |bits| ==> bits[k] == Bit(mask, k)) <==> mask == MaskOf(bits)
  {
    if bits == [] {
    } else {
      var rest := bits[1..];
      BitsOfMask(rest, mask / 2);
      HalfBit(mask, 0);
      if mask == MaskOf(bits) {
        assert mask / 2 == MaskOf(rest);
        forall k | 0 <= k < |bits| ensures bits[k] == Bit(mask, k) {
          if k > 0 {
            HalfBit(mask, k - 1);
            assert bits[k] == rest[k - 1];
          }
        }
      }
      if forall k :: 0 <= k < |bits| ==> bits[k] == Bit(mask, k) {
        forall k | 0 <= k < |rest| ensures rest[k] == Bit(mask / 2, k) {
          HalfBit(mask, k);
          assert rest[k] == bits[k + 1];
        }
        assert bits[0] == Bit(mask, 0);
      }
    }
  }

  /** A vector that takes one of two values at the free places, by a mask, and a base value elsewhere. */
  function VectorOf<T>(n: nat, base: T, free: seq<nat>, off: T, on: T, mask: nat): (v: seq<T>)
    requires forall k :: 0 <= k < |free| ==> free[k] < n
    ensures |v| == n
  {
    if free == [] then seq(n, _ => base)
    else
      var k := |free| - 1;
      VectorOf(n, base, free[..k], off, on, mask)[free[k] := if Bit(mask, k) then on else off]
  }

  lemma {:induction false} VectorAt<T>(n: nat, base: T, free: seq<nat>, off: T, on: T, mask: nat)
    requires (forall k :: 0 <= k < |free| ==> free[k] < n) && (forall j, k :: 0 <= j < k < |free| ==> free[j] < free[k])
    ensures forall k :: 0 <= k < |free| ==>
              VectorOf(n, base, free, off, on, mask)[free[k]] == if Bit(mask, k) then on else off
    ensures forall i :: 0 <= i < n && i !in free ==> VectorOf(n, base, free, off, on, mask)[i] == base
  {
    hide Bit;
    if free != [] {
      var k := |free| - 1;
      VectorAt(n, base, free[..k], off, on, mask);
      assert free == free[..k] + [free[k]];
    }
  }

  /** Fills the free places of one vector from a mask, place by place. */
  method FillVector<T>(n: nat, base: T, free: seq<nat>, off: T, on: T, mask: nat) returns (v: seq<T>)
    requires forall k :: 0 <= k < |free| ==> free[k] < n
    ensures v == VectorOf(n, base, free, off, on, mask)
  {
    v := seq(n, _ => base);
    for k := 0 to |free|
      invariant |v| == n && v == VectorOf(n, base, free[..k], off, on, mask)
    {
      assert free[..k + 1][..k] == free[..k];
      v := v[free[k] := if Bit(mask, k) then on else off];
    }
    assert free[..|free|] == free;
  }

  /** A choice vector: one of two values at each free place, the base elsewhere. */
  ghost predicate IsChoice<T(!new)>(v: seq<T>, n: nat, base: T, free: seq<nat>, off: T, on: T) {
    && |v| == n
    && (forall k :: 0 <= k < |free| && free[k] < n ==> v[free[k]] == on || v[free[k]] == off)
    && (forall i :: 0 <= i < n && i !in free ==> v[i] == base)
  }

  /** All vectors of the masks: every mix of the free choices, each exactly once. */
  method Mixes<T(==, !new)>(n: nat, base: T, free: seq<nat>, off: T, on: T) returns (out: seq<seq<T>>)
    requires (forall k :: 0 <= k < |free| ==> free[k] < n) && (forall j, k :: 0 <= j < k < |free| ==> free[j] < free[k])
    requires on != off
    ensures |out| == Pow2(|free|)
    ensures forall v :: v in out <==> IsChoice(v, n, base, free, off, on)
    ensures forall i, j :: 0 <= i < j < |out| ==> out[i] != out[j]
  {
    out := [];
    for mask := 0 to Pow2(|free|)
      invariant |out| == mask && forall m :: 0 <= m < mask ==> out[m] == VectorOf(n, base, free, off, on, m)
    {
      var v := FillVector(n, base, free, off, on, mask);
      out := out + [v];
    }
    MasksAreMixes(n, base, free, off, on, out);
  }

  lemma MasksAreMixes<T(!new)>(n: nat, base: T, free: seq<nat>, off: T, on: T, out: seq<seq<T>>)
    requires (forall k :: 0 <= k < |free| ==> free[k] < n) && (forall j, k :: 0 <= j < k < |free| ==> free[j] < free[k])
    requires on != off && |out| == Pow2(|free|) && forall m :: 0 <= m < |out| ==> out[m] == VectorOf(n, base, free, off, on, m)
    ensures forall v :: v in out <==> IsChoice(v, n, base, free, off, on)
    ensures forall i, j :: 0 <= i < j < |out| ==> out[i] != out[j]
  {
    hide VectorOf, Bit, MaskOf, Pow2;
    forall v | IsChoice(v, n, base, free, off, on)
      ensures v in out
    {
      var bits := BitsOfVector(v, n, base, free, off, on);
      var m := MaskOf(bits);
      BitsOfMask(bits, m);
      VectorAt(n, base, free, off, on, m);
      assert v == out[m] by {
        forall i | 0 <= i < n ensures v[i] == out[m][i] {
          if i in free {
            var k :| 0 <= k < |free| && free[k] == i;
            assert bits[k] == Bit(m, k);
          }
        }
      }
    }
    forall m | 0 <= m < |out|
      ensures IsChoice(out[m], n, base, free, off, on)
    {
      VectorAt(n, base, free, off, on, m);
    }
    forall i, j | 0 <= i < j < |out|
      ensures out[i] != out[j]
    {
      if out[i] == out[j] {
        VectorAt(n, base, free, off, on, i);
        VectorAt(n, base, free, off, on, j);
        var bits := seq(|free|, k requires 0 <= k < |free| => Bit(i, k));
        BitsOfMask(bits, i);
        forall k | 0 <= k < |bits| ensures bits[k] == Bit(j, k) {
          assert out[i][free[k]] == out[j][free[k]];
        }
        BitsOfMask(bits, j);
        assert false;
      }
    }
  }

  lemma BitsOfVector<T(!new)>(v: seq<T>, n: nat, base: T, free: seq<nat>, off: T, on: T) returns (bits: seq<bool>)
    requires (forall k :: 0 <= k < |free| ==> free[k] < n) && IsChoice(v, n, base, free, off, on)
    ensures |bits| == |free| && forall k :: 0 <= k < |free| ==> (bits[k] <==> v[free[k]] == on)
  {
    bits := [];
    while |bits| < |free|
      invariant |bits| <= |free| && forall k :: 0 <= k < |bits| ==> (bits[k] <==> v[free[k]] == on)
    {
      bits := bits + [v[free[|bits|]] == on];
    }
  }

  // ---------- The axes ----------

  /** Places whose loans satisfy a condition, in loan order. */
  function Places(flags: seq<bool>): (free: seq<nat>)
    ensures forall k :: 0 <= k < |free| ==> free[k] < |flags| && flags[free[k]]
    ensures forall j, k :: 0 <= j < k < |free| ==> free[j] < free[k]
    ensures forall i :: 0 <= i < |flags| && flags[i] ==> i in free
  {
    if flags == [] then []
    else Places(flags[..|flags| - 1]) + if flags[|flags| - 1] then [|flags| - 1] else []
  }

  /** A borrower chooses the effect: nothing in the contract does, and there is something to prepay. */
  predicate FreeEffect(l: Position) {
    l.contract.prepayment.effect == BorrowerChooses && l.contract.kind == Annuity && l.balance > 0
  }

  predicate FreeTiming(l: Position) {
    l.excess == ReducePrincipal && l.balance > 0
  }

  predicate Charges(l: Position) {
    l.contract.prepayment.charges != [] || l.contract.prepayment.feeBP > 0 || l.contract.prepayment.minAmount > 0
  }

  function FreeEffects(loans: seq<Position>): seq<nat> {
    Places(seq(|loans|, i requires 0 <= i < |loans| => FreeEffect(loans[i])))
  }

  function FreeTimings(loans: seq<Position>): seq<nat> {
    Places(seq(|loans|, i requires 0 <= i < |loans| => FreeTiming(loans[i])))
  }

  lemma FreePlaces(loans: seq<Position>)
    ensures forall k :: 0 <= k < |FreeEffects(loans)| ==> FreeEffects(loans)[k] < |loans|
    ensures forall j, k :: 0 <= j < k < |FreeEffects(loans)| ==> FreeEffects(loans)[j] < FreeEffects(loans)[k]
    ensures forall k :: 0 <= k < |FreeTimings(loans)| ==> FreeTimings(loans)[k] < |loans|
    ensures forall j, k :: 0 <= j < k < |FreeTimings(loans)| ==> FreeTimings(loans)[j] < FreeTimings(loans)[k]
  {
    hide Places;
  }

  /** Up to four free loans every mix of effects is tried once; beyond that only the two uniform vectors. */
  method EffectVectors(loans: seq<Position>) returns (out: seq<seq<PrepaymentEffect>>)
    ensures |FreeEffects(loans)| <= MAX_VECTOR_LOANS ==>
              forall v :: v in out <==> IsChoice(v, |loans|, BorrowerChooses, FreeEffects(loans), ShortenTerm, ReduceInstalment)
    ensures |FreeEffects(loans)| > MAX_VECTOR_LOANS ==>
              out == [seq(|loans|, _ => ShortenTerm), seq(|loans|, _ => ReduceInstalment)]
    ensures out != [] && forall i, j :: 0 <= i < j < |out| ==> out[i] != out[j]
  {
    hide FreeEffects;
    FreePlaces(loans);
    var n, free := |loans|, FreeEffects(loans);
    if |free| > MAX_VECTOR_LOANS {
      var shorten, reduce := seq(n, _ => ShortenTerm), seq(n, _ => ReduceInstalment);
      assert shorten[free[0]] != reduce[free[0]];
      return [shorten, reduce];
    }
    out := Mixes(n, BorrowerChooses, free, ShortenTerm, ReduceInstalment);
  }

  /** Mixes of timings are tried only where fees could make waiting right; else all early against all on the due date. */
  method TimingVectors(payDay: int, loans: seq<Position>) returns (out: seq<seq<Timing>>)
    ensures (payDay <= 0 || FreeTimings(loans) == []) ==> out == [seq(|loans|, _ => OnDue)]
    ensures payDay > 0 && 0 < |FreeTimings(loans)| <= MAX_VECTOR_LOANS && (exists l :: l in loans && Charges(l)) ==>
              forall v :: v in out <==> IsChoice(v, |loans|, OnDue, FreeTimings(loans), OnDue, OnReceipt)
    ensures payDay > 0 && 0 < |FreeTimings(loans)|
            && (|FreeTimings(loans)| > MAX_VECTOR_LOANS || !exists l :: l in loans && Charges(l)) ==>
              && |out| == 2 && out[0] == seq(|loans|, _ => OnDue)
              && |out[1]| == |loans| && forall i :: 0 <= i < |loans| ==> out[1][i] == if i in FreeTimings(loans) then OnReceipt else OnDue
    ensures out != [] && forall i, j :: 0 <= i < j < |out| ==> out[i] != out[j]
  {
    hide FreeTimings;
    FreePlaces(loans);
    var n, free, fees := |loans|, if payDay > 0 then FreeTimings(loans) else [], payDay > 0 && exists l :: l in loans && Charges(l);
    if |free| == 0 {
      return [seq(n, _ => OnDue)];
    }
    if |free| > MAX_VECTOR_LOANS || !fees {
      var due, all := seq(n, _ => OnDue), seq(n, _ => OnDue);
      for k := 0 to |free|
        invariant |all| == n && forall i :: 0 <= i < n ==> all[i] == if i in free[..k] then OnReceipt else OnDue
      {
        all := all[free[k] := OnReceipt];
      }
      assert free[..|free|] == free;
      assert due[free[0]] != all[free[0]];
      return [due, all];
    }
    out := Mixes(n, OnDue, free, OnDue, OnReceipt);
  }

  // ---------- The capped product ----------

  datatype Axes = Axes(orders: seq<Order>, effects: seq<seq<PrepaymentEffect>>, timings: seq<seq<Timing>>, batches: seq<int>) {
    function Total(): (n: nat) {
      |orders| * |effects| * |timings| * |batches|
    }
  }

  function Candidate(a: Axes, r: Rollover, i: nat, j: nat, k: nat, l: nat): Policy
    requires i < |a.orders| && j < |a.effects| && k < |a.timings| && l < |a.batches|
  {
    Policy(a.orders[i].name, false, a.orders[i].idx, a.timings[k], a.effects[j], r, a.batches[l])
  }

  /** Where a candidate comes in the enumeration. */
  function Rank(a: Axes, i: nat, j: nat, k: nat, l: nat): nat {
    ((i * |a.effects| + j) * |a.timings| + k) * |a.batches| + l
  }

  lemma RankBelow(x: nat, m: nat, y: nat, n: nat)
    requires x < m && y < n
    ensures x * n + y < m * n && x * n + n <= m * n
  {
    Money.MulMonotone(x + 1, m, n);
    assert (x + 1) * n == x * n + n;
  }

  lemma RankFits(a: Axes, i: nat, j: nat, k: nat, l: nat)
    requires i < |a.orders| && j < |a.effects| && k < |a.timings| && l < |a.batches|
    ensures Rank(a, i, j, k, l) < a.Total()
  {
    RankBelow(i, |a.orders|, j, |a.effects|);
    RankBelow(i * |a.effects| + j, |a.orders| * |a.effects|, k, |a.timings|);
    RankBelow((i * |a.effects| + j) * |a.timings| + k, |a.orders| * |a.effects| * |a.timings|, l, |a.batches|);
  }

  lemma SameQuotient(q: nat, r: nat, q': nat, r': nat, d: nat)
    requires r < d && r' < d && q * d + r == q' * d + r'
    ensures q == q' && r == r'
  {
    UniqueQuotient(q * d + r, d, q, r);
    UniqueQuotient(q' * d + r', d, q', r');
  }

  /** Different choices come at different places. */
  lemma RankIsInjective(a: Axes, i: nat, j: nat, k: nat, l: nat, i': nat, j': nat, k': nat, l': nat)
    requires j < |a.effects| && k < |a.timings| && l < |a.batches|
    requires j' < |a.effects| && k' < |a.timings| && l' < |a.batches|
    requires Rank(a, i, j, k, l) == Rank(a, i', j', k', l')
    ensures i == i' && j == j' && k == k' && l == l'
  {
    var e, t, b := |a.effects|, |a.timings|, |a.batches|;
    SameQuotient((i * e + j) * t + k, l, (i' * e + j') * t + k', l', b);
    SameQuotient(i * e + j, k, i' * e + j', k', t);
    SameQuotient(i, j, i', j', e);
  }

  /** The enumeration so far holds exactly the candidates ranked below its length. */
  ghost predicate Enumerates(a: Axes, r: Rollover, out: seq<Policy>) {
    forall i, j, k, l {:trigger Candidate(a, r, i, j, k, l)} ::
      (0 <= i < |a.orders| && 0 <= j < |a.effects| && 0 <= k < |a.timings| && 0 <= l < |a.batches|
       && Rank(a, i, j, k, l) < |out|) ==> out[Rank(a, i, j, k, l)] == Candidate(a, r, i, j, k, l)
  }

  lemma EnumerateOne(a: Axes, r: Rollover, out: seq<Policy>, i: nat, j: nat, k: nat, l: nat)
    requires i < |a.orders| && j < |a.effects| && k < |a.timings| && l < |a.batches|
    requires Enumerates(a, r, out) && |out| == Rank(a, i, j, k, l)
    ensures Enumerates(a, r, out + [Candidate(a, r, i, j, k, l)])
  {
    hide Rank;
    var out' := out + [Candidate(a, r, i, j, k, l)];
    forall i', j', k', l' | 0 <= i' < |a.orders| && 0 <= j' < |a.effects| && 0 <= k' < |a.timings| && 0 <= l' < |a.batches|
                            && Rank(a, i', j', k', l') < |out'|
      ensures out'[Rank(a, i', j', k', l')] == Candidate(a, r, i', j', k', l')
    {
      if Rank(a, i', j', k', l') == |out| {
        RankIsInjective(a, i, j, k, l, i', j', k', l');
      } else {
        assert out[Rank(a, i', j', k', l')] == Candidate(a, r, i', j', k', l');
      }
    }
  }

  /**
   The deterministic prefix of the candidates of one rollover: all of them, or as many as the
   cap allows. The cap is reported exactly when a candidate was left out.
   */
  method Enumerate(a: Axes, r: Rollover) returns (out: seq<Policy>, capped: bool)
    ensures capped <==> a.Total() > MAX_POLICIES
    ensures |out| == if capped then MAX_POLICIES else a.Total()
    ensures Enumerates(a, r, out)
  {
    hide Enumerates, Rank;
    out := [];
    NothingEnumerated(a, r);
    for i := 0 to |a.orders|
      invariant |out| == Rank(a, i, 0, 0, 0) <= MAX_POLICIES && Enumerates(a, r, out)
    {
      for j := 0 to |a.effects|
        invariant |out| == Rank(a, i, j, 0, 0) <= MAX_POLICIES && Enumerates(a, r, out)
      {
        for k := 0 to |a.timings|
          invariant |out| == Rank(a, i, j, k, 0) <= MAX_POLICIES && Enumerates(a, r, out)
        {
          for l := 0 to |a.batches|
            invariant |out| == Rank(a, i, j, k, l) <= MAX_POLICIES && Enumerates(a, r, out)
          {
            RankFits(a, i, j, k, l);
            if |out| == MAX_POLICIES {
              return out, true;
            }
            EnumerateOne(a, r, out, i, j, k, l);
            out := out + [Candidate(a, r, i, j, k, l)];
            RankSteps(a, i, j, k, l);
          }
          RankCarries(a, i, j, k);
        }
        RankCarries(a, i, j, 0);
      }
      RankCarries(a, i, 0, 0);
    }
    RankOfAll(a);
    return out, false;
  }

  lemma NothingEnumerated(a: Axes, r: Rollover)
    ensures Enumerates(a, r, []) && Rank(a, 0, 0, 0, 0) == 0
  {
  }

  lemma RankSteps(a: Axes, i: nat, j: nat, k: nat, l: nat)
    ensures Rank(a, i, j, k, l + 1) == Rank(a, i, j, k, l) + 1
  {
  }

  /** A finished inner axis carries into the next place of the axis outside it. */
  lemma RankCarries(a: Axes, i: nat, j: nat, k: nat)
    ensures Rank(a, i, j, k, |a.batches|) == Rank(a, i, j, k + 1, 0)
    ensures Rank(a, i, j, |a.timings|, 0) == Rank(a, i, j + 1, 0, 0)
    ensures Rank(a, i, |a.effects|, 0, 0) == Rank(a, i + 1, 0, 0, 0)
  {
    var e, t, b := |a.effects|, |a.timings|, |a.batches|;
    var u := i * e + j;
    assert (u * t + k + 1) * b == (u * t + k) * b + b;
    assert (u + 1) * t == u * t + t;
    assert (i + 1) * e == i * e + e;
  }

  lemma RankOfAll(a: Axes)
    ensures Rank(a, |a.orders|, 0, 0, 0) == a.Total()
  {
  }

  /** Every place below the total is the place of some choice. */
  lemma Unrank(a: Axes, m: nat) returns (i: nat, j: nat, k: nat, l: nat)
    requires m < a.Total()
    ensures i < |a.orders| && j < |a.effects| && k < |a.timings| && l < |a.batches| && Rank(a, i, j, k, l) == m
  {
    var e, t, b := |a.effects|, |a.timings|, |a.batches|;
    TotalIsPositive(a);
    l := m % b;
    var u := m / b;
    assert m == u * b + l;
    BelowQuotient(u, l, b, |a.orders| * e * t, m);
    k := u % t;
    var w := u / t;
    assert u == w * t + k;
    BelowQuotient(w, k, t, |a.orders| * e, u);
    j := w % e;
    i := w / e;
    assert w == i * e + j;
    BelowQuotient(i, j, e, |a.orders|, w);
  }

  lemma TotalIsPositive(a: Axes)
    requires a.Total() > 0
    ensures |a.orders| > 0 && |a.effects| > 0 && |a.timings| > 0 && |a.batches| > 0
  {
  }

  lemma BelowQuotient(q: nat, r: nat, d: nat, n: nat, m: nat)
    requires d > 0 && m == q * d + r && m < n * d
    ensures q < n
  {
    if q >= n {
      Money.MulMonotone(n, q, d);
    }
  }

  lemma CandidateAt(a: Axes, r: Rollover, out: seq<Policy>, i: nat, j: nat, k: nat, l: nat)
    requires i < |a.orders| && j < |a.effects| && k < |a.timings| && l < |a.batches|
    requires Enumerates(a, r, out) && Rank(a, i, j, k, l) < |out|
    ensures out[Rank(a, i, j, k, l)] == Candidate(a, r, i, j, k, l)
  {
    hide Rank;
  }
}
