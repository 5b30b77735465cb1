/**
 The canonical name of a policy, the last tie-break of a ranking and the key of the runs already
 simulated. Policies over one portfolio have the same name only when they are the same.
 */
module PolicyIds {
  import opened Contracts
  import opened Portfolio
  import Encoding

  // ---------- The name ----------

  function Number(i: int): string {
    if i < 0 then "-" + Encoding.Decimal(-i) else Encoding.Decimal(i)
  }

  function Spaced(order: seq<int>): string {
    if order == [] then ""
    else if |order| == 1 then Number(order[0])
    else Number(order[0]) + [' '] + Spaced(order[1..])
  }

  function TimingName(t: Timing): string {
    match t case OnReceipt => "/on_receipt" case OnDue => "/on_due"
  }

  function EffectName(e: PrepaymentEffect): string {
    match e case ShortenTerm => "/shorten_term" case ReduceInstalment => "/reduce_instalment" case BorrowerChooses => "/borrower_chooses"
  }

  function RolloverName(r: Rollover): string {
    match r case KeepFreed => "/keep_freed" case RollFreed => "/roll_freed"
  }

  function TimingNames(ts: seq<Timing>): string {
    if ts == [] then "" else TimingName(ts[0]) + TimingNames(ts[1..])
  }

  function EffectNames(es: seq<PrepaymentEffect>): string {
    if es == [] then "" else EffectName(es[0]) + EffectNames(es[1..])
  }

  function Heading(p: Policy): string {
    p.name + if p.requiredOnly then "/required-only" else ""
  }

  function Ending(p: Policy): string {
    RolloverName(p.rollover) + if p.minPrepay > 0 then "/min=" + Encoding.Decimal(p.minPrepay) else ""
  }

  function IdOf(p: Policy): string {
    Heading(p) + ['['] + (Spaced(p.order) + [']'] + (TimingNames(p.timing) + (EffectNames(p.effect) + Ending(p))))
  }

  // ---------- The name names one policy ----------

  /** A name no separator of the id occurs in, as every strategy's is. */
  predicate PlainName(name: string) {
    '[' !in name && '/' !in name
  }

  lemma NumberIsPlain(i: int)
    ensures Number(i) != "" && ' ' !in Number(i) && ']' !in Number(i)
  {
    var digits := Encoding.Decimal(if i < 0 then -i else i);
    assert forall k :: 0 <= k < |digits| ==> Encoding.IsDigit(digits[k]);
  }

  lemma NumberIsInjective(i: int, j: int)
    requires Number(i) == Number(j)
    ensures i == j
  {
    var a, b := Encoding.Decimal(if i < 0 then -i else i), Encoding.Decimal(if j < 0 then -j else j);
    assert Encoding.IsDigit(a[0]) && Encoding.IsDigit(b[0]);
    assert i < 0 ==> Number(i)[0] == '-' && Number(i)[1..] == a;
    assert j < 0 ==> Number(j)[0] == '-' && Number(j)[1..] == b;
    Encoding.DecimalIsInjective(if i < 0 then -i else i, if j < 0 then -j else j);
  }

  lemma {:induction false} SpacedIsPlain(order: seq<int>)
    ensures ']' !in Spaced(order) && (order != [] ==> Spaced(order) != "")
  {
    hide Number;
    if order != [] {
      NumberIsPlain(order[0]);
      SpacedIsPlain(order[1..]);
    }
  }

  lemma {:induction false} SpacedIsInjective(a: seq<int>, b: seq<int>)
    requires Spaced(a) == Spaced(b)
    ensures a == b
  {
    hide Number;
    SpacedIsPlain(a);
    SpacedIsPlain(b);
    if a != [] && b != [] {
      NumberIsPlain(a[0]);
      NumberIsPlain(b[0]);
      if |a| == 1 && |b| == 1 {
        NumberIsInjective(a[0], b[0]);
      } else if |a| > 1 && |b| > 1 {
        Encoding.CutAtMark(' ', Number(a[0]), Spaced(a[1..]), Number(b[0]), Spaced(b[1..]));
        NumberIsInjective(a[0], b[0]);
        SpacedIsInjective(a[1..], b[1..]);
        assert a == [a[0]] + a[1..] && b == [b[0]] + b[1..];
      } else {
        SpaceInside(a);
        SpaceInside(b);
      }
    }
  }

  lemma SpaceInside(a: seq<int>)
    requires |a| > 1
    ensures ' ' in Spaced(a)
  {
    hide Number;
    assert Spaced(a)[|Number(a[0])|] == ' ';
  }

  lemma OneTiming(t: Timing, u: Timing, x: string, y: string)
    requires TimingName(t) + x == TimingName(u) + y
    ensures t == u && x == y
  {
    var p, q := TimingName(t), TimingName(u);
    assert (p + x)[4] == p[4] && (q + y)[4] == q[4];
    assert (p + x)[|p|..] == x && (q + y)[|q|..] == y;
  }

  lemma {:induction false} TimingsArePrefixFree(a: seq<Timing>, b: seq<Timing>, x: string, y: string)
    requires |a| == |b| && TimingNames(a) + x == TimingNames(b) + y
    ensures a == b && x == y
  {
    hide TimingName;
    if a != [] {
      var rest, rest' := TimingNames(a[1..]) + x, TimingNames(b[1..]) + y;
      assert TimingNames(a) + x == TimingName(a[0]) + rest && TimingNames(b) + y == TimingName(b[0]) + rest';
      OneTiming(a[0], b[0], rest, rest');
      TimingsArePrefixFree(a[1..], b[1..], x, y);
      assert a == [a[0]] + a[1..] && b == [b[0]] + b[1..];
    } else {
      assert TimingNames(a) + x == x && TimingNames(b) + y == y;
    }
  }

  lemma OneEffect(e: PrepaymentEffect, f: PrepaymentEffect, x: string, y: string)
    requires EffectName(e) + x == EffectName(f) + y
    ensures e == f && x == y
  {
    var p, q := EffectName(e), EffectName(f);
    assert (p + x)[1] == p[1] && (q + y)[1] == q[1];
    assert (p + x)[|p|..] == x && (q + y)[|q|..] == y;
  }

  lemma {:induction false} EffectsArePrefixFree(a: seq<PrepaymentEffect>, b: seq<PrepaymentEffect>, x: string, y: string)
    requires |a| == |b| && EffectNames(a) + x == EffectNames(b) + y
    ensures a == b && x == y
  {
    hide EffectName;
    if a != [] {
      var rest, rest' := EffectNames(a[1..]) + x, EffectNames(b[1..]) + y;
      assert EffectNames(a) + x == EffectName(a[0]) + rest && EffectNames(b) + y == EffectName(b[0]) + rest';
      OneEffect(a[0], b[0], rest, rest');
      EffectsArePrefixFree(a[1..], b[1..], x, y);
      assert a == [a[0]] + a[1..] && b == [b[0]] + b[1..];
    } else {
      assert EffectNames(a) + x == x && EffectNames(b) + y == y;
    }
  }

  lemma EndingIsInjective(p: Policy, q: Policy)
    requires p.minPrepay >= 0 && q.minPrepay >= 0 && Ending(p) == Ending(q)
    ensures p.rollover == q.rollover && p.minPrepay == q.minPrepay
  {
    var a, b := RolloverName(p.rollover), RolloverName(q.rollover);
    assert Ending(p)[1] == a[1] && Ending(q)[1] == b[1];
    assert |a| == |b|;
    assert Ending(p)[|a|..] == if p.minPrepay > 0 then "/min=" + Encoding.Decimal(p.minPrepay) else "";
    assert Ending(q)[|b|..] == if q.minPrepay > 0 then "/min=" + Encoding.Decimal(q.minPrepay) else "";
    if p.minPrepay > 0 && q.minPrepay > 0 {
      assert ("/min=" + Encoding.Decimal(p.minPrepay))[5..] == Encoding.Decimal(p.minPrepay);
      assert ("/min=" + Encoding.Decimal(q.minPrepay))[5..] == Encoding.Decimal(q.minPrepay);
      Encoding.DecimalIsInjective(p.minPrepay, q.minPrepay);
    }
  }

  lemma HeadingIsInjective(p: Policy, q: Policy)
    requires PlainName(p.name) && PlainName(q.name) && Heading(p) == Heading(q)
    ensures p.name == q.name && p.requiredOnly == q.requiredOnly
  {
    if p.requiredOnly {
      assert Heading(p)[|p.name|] == '/';
    }
    if q.requiredOnly {
      assert Heading(q)[|q.name|] == '/';
    }
    assert p.name + "" == p.name && q.name + "" == q.name;
    if p.requiredOnly && q.requiredOnly {
      assert |p.name| == |q.name|;
      assert Heading(p)[..|p.name|] == p.name && Heading(q)[..|q.name|] == q.name;
    }
  }

  lemma HeadingIsPlain(p: Policy)
    requires PlainName(p.name)
    ensures '[' !in Heading(p)
  {
  }

  /** Policies over as many loans have the same id if and only if they are the same policy. */
  lemma IdNamesOnePolicy(p: Policy, q: Policy)
    requires PlainName(p.name) && PlainName(q.name) && p.minPrepay >= 0 && q.minPrepay >= 0
    requires |p.timing| == |q.timing| && |p.effect| == |q.effect|
    ensures IdOf(p) == IdOf(q) <==> p == q
  {
    hide Heading, Spaced, TimingNames, EffectNames, Ending, PlainName;
    if IdOf(p) == IdOf(q) {
      HeadingIsPlain(p);
      HeadingIsPlain(q);
      var restP := TimingNames(p.timing) + (EffectNames(p.effect) + Ending(p));
      var restQ := TimingNames(q.timing) + (EffectNames(q.effect) + Ending(q));
      Encoding.CutAtMark('[', Heading(p), Spaced(p.order) + [']'] + restP, Heading(q), Spaced(q.order) + [']'] + restQ);
      HeadingIsInjective(p, q);
      SpacedIsPlain(p.order);
      SpacedIsPlain(q.order);
      Encoding.CutAtMark(']', Spaced(p.order), restP, Spaced(q.order), restQ);
      SpacedIsInjective(p.order, q.order);
      TimingsArePrefixFree(p.timing, q.timing, EffectNames(p.effect) + Ending(p), EffectNames(q.effect) + Ending(q));
      EffectsArePrefixFree(p.effect, q.effect, Ending(p), Ending(q));
      EndingIsInjective(p, q);
    }
  }
}
