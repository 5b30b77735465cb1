/**
 The cache key's encoding: every token framed by its length, every value introduced by its kind
 and type. Two value trees never have the same encoding, whatever follows them, and streaming
 it through a block buffer feeds the hash exactly the plain concatenation.
 */
module Encoding {

  // ---------- Numbers ----------

  function Digit(n: nat): char
    requires n < 10
  {
    ('0' as int + n) as char
  }

  predicate IsDigit(c: char) {
    '0' <= c <= '9'
  }

  function Decimal(n: nat): (s: string)
    ensures s != "" && forall i :: 0 <= i < |s| ==> IsDigit(s[i])
  {
    if n < 10 then [Digit(n)] else Decimal(n / 10) + [Digit(n % 10)]
  }

  lemma {:induction false} DecimalIsInjective(m: nat, n: nat)
    requires Decimal(m) == Decimal(n)
    ensures m == n
  {
    var a, b := Decimal(m), Decimal(n);
    assert a[|a| - 1] == Digit(m % 10) && b[|b| - 1] == Digit(n % 10);
    if m >= 10 && n >= 10 {
      assert a[..|a| - 1] == Decimal(m / 10) && b[..|b| - 1] == Decimal(n / 10);
      DecimalIsInjective(m / 10, n / 10);
    }
  }

  // ---------- Tokens ----------

  /** One length-framed token. */
  function Framed(s: string): (f: string)
    ensures f != ""
  {
    Decimal(|s|) + ":" + s
  }

  function Joined(tokens: seq<string>): string {
    if tokens == [] then "" else Framed(tokens[0]) + Joined(tokens[1..])
  }

  /** Where a mark first stands in a string. */
  function MarkAt(c: char, s: string): nat {
    if s == "" || s[0] == c then 0 else 1 + MarkAt(c, s[1..])
  }

  lemma {:induction false} MarkFollows(c: char, a: string, x: string)
    requires c !in a
    ensures MarkAt(c, a + [c] + x) == |a|
  {
    var s := a + [c] + x;
    if a != "" {
      assert s[1..] == a[1..] + [c] + x && s[0] == a[0] && a[0] in a;
      MarkFollows(c, a[1..], x);
    }
  }

  /** Strings that meet a mark they do not contain are told apart by what comes before it and after it. */
  lemma CutAtMark(c: char, a: string, x: string, b: string, y: string)
    requires c !in a && c !in b && a + [c] + x == b + [c] + y
    ensures a == b && x == y
  {
    MarkFollows(c, a, x);
    MarkFollows(c, b, y);
    assert (a + [c] + x)[..|a|] == a && (b + [c] + y)[..|b|] == b;
    assert (a + [c] + x)[|a| + 1..] == x && (b + [c] + y)[|b| + 1..] == y;
  }

  lemma Halves(a: string, x: string)
    ensures (a + x)[..|a|] == a && (a + x)[|a|..] == x
  {
  }

  /** Framing is uniquely decodable: a token and whatever follows it can be told apart in one way only. */
  lemma FramedIsPrefixFree(s: string, t: string, x: string, y: string)
    requires Framed(s) + x == Framed(t) + y
    ensures s == t && x == y
  {
    var a, b := Decimal(|s|), Decimal(|t|);
    assert Framed(s) + x == a + [':'] + (s + x) && Framed(t) + y == b + [':'] + (t + y);
    CutAtMark(':', a, s + x, b, t + y);
    DecimalIsInjective(|s|, |t|);
    Halves(s, x);
    Halves(t, y);
  }

  /** Different token sequences have different encodings. */
  lemma {:induction false} JoinedIsInjective(a: seq<string>, b: seq<string>)
    requires Joined(a) == Joined(b)
    ensures a == b
  {
    if a != [] && b != [] {
      FramedIsPrefixFree(a[0], b[0], Joined(a[1..]), Joined(b[1..]));
      JoinedIsInjective(a[1..], b[1..]);
      assert a == [a[0]] + a[1..] && b == [b[0]] + b[1..];
    }
  }

  lemma {:induction false} JoinedAppends(a: seq<string>, b: seq<string>)
    ensures Joined(a + b) == Joined(a) + Joined(b)
  {
    if a == [] {
      assert a + b == b;
    } else {
      assert (a + b)[1..] == a[1..] + b;
      JoinedAppends(a[1..], b);
    }
  }

  // ---------- Value trees ----------

  /** The values an input is made of, each with its package and type name; leaves carry their rendered text. */
  datatype Value =
    | Leaf(kind: string, pkg: string, name: string, text: string)
    | NoValue(kind: string, pkg: string, name: string)
    | Struct(pkg: string, name: string, fields: Fields)
    | Pointer(pkg: string, name: string, target: Value)
    | List(kind: string, pkg: string, name: string, items: Values)
    | Mapping(pkg: string, name: string, pairs: Values)

  datatype Fields = NoFields | Field(title: string, value: Value, rest: Fields)

  /** Items of a list, or keys and values of a mapping in key order, one after the other. */
  datatype Values = NoItems | Item(value: Value, rest: Values)

  const LEAF_KINDS: set<string> := {"bool", "int", "int8", "int16", "int32", "int64", "uint", "uint8", "uint16", "uint32",
                                     "uint64", "string"}

  function KindOf(v: Value): string {
    match v
    case Leaf(kind, _, _, _) => kind
    case NoValue(kind, _, _) => kind
    case Struct(_, _, _) => "struct"
    case Pointer(_, _, _) => "ptr"
    case List(kind, _, _, _) => kind
    case Mapping(_, _, _) => "map"
  }

  function FieldCount(fs: Fields): nat {
    match fs case NoFields => 0 case Field(_, _, rest) => 1 + FieldCount(rest)
  }

  function ItemCount(vs: Values): nat {
    match vs case NoItems => 0 case Item(_, rest) => 1 + ItemCount(rest)
  }

  /** Kinds match their shape; a mapping holds whole pairs. */
  predicate WellKinded(v: Value) {
    match v
    case Leaf(kind, _, _, _) => kind in LEAF_KINDS
    case NoValue(kind, _, _) => kind == "ptr" || kind == "slice" || kind == "map"
    case Struct(_, _, fields) => FieldsWellKinded(fields)
    case Pointer(_, _, target) => WellKinded(target)
    case List(kind, _, _, items) => (kind == "slice" || kind == "array") && ItemsWellKinded(items)
    case Mapping(_, _, pairs) => ItemCount(pairs) % 2 == 0 && ItemsWellKinded(pairs)
  }

  predicate FieldsWellKinded(fs: Fields) {
    match fs case NoFields => true case Field(_, value, rest) => WellKinded(value) && FieldsWellKinded(rest)
  }

  predicate ItemsWellKinded(vs: Values) {
    match vs case NoItems => true case Item(value, rest) => WellKinded(value) && ItemsWellKinded(rest)
  }

  /** The tokens of a value: its kind and type, then what the kind calls for. */
  function Tokens(v: Value): (t: seq<string>)
    ensures |t| >= 3 && t[..3] == [KindOf(v), v.pkg, v.name]
  {
    [KindOf(v), v.pkg, v.name] + Body(v)
  }

  function Body(v: Value): seq<string>
    decreases v, 0
  {
    match v
    case Leaf(_, _, _, text) => [text]
    case NoValue(_, _, _) => ["nil"]
    case Struct(_, _, fields) => [Decimal(FieldCount(fields))] + FieldTokens(fields)
    case Pointer(_, _, target) => ["value"] + Tokens(target)
    case List(_, _, _, items) => [Decimal(ItemCount(items))] + ItemTokens(items)
    case Mapping(_, _, pairs) => [Decimal(ItemCount(pairs) / 2)] + ItemTokens(pairs)
  }

  function FieldTokens(fs: Fields): seq<string> {
    match fs case NoFields => [] case Field(title, value, rest) => [title] + Tokens(value) + FieldTokens(rest)
  }

  function ItemTokens(vs: Values): seq<string> {
    match vs case NoItems => [] case Item(value, rest) => Tokens(value) + ItemTokens(rest)
  }

  // ---------- Unique decodability ----------

  lemma SameHead(a: seq<string>, b: seq<string>, x: seq<string>, y: seq<string>)
    requires |a| == |b| && a + x == b + y
    ensures a == b && x == y
  {
    assert a == (a + x)[..|a|] && b == (b + y)[..|b|] && x == (a + x)[|a|..] && y == (b + y)[|b|..];
  }

  lemma Regroup(a: seq<string>, b: seq<string>, x: seq<string>)
    ensures (a + b) + x == a + (b + x)
  {
  }

  lemma Nothing(x: seq<string>, y: seq<string>)
    ensures [] + x == x && [] + y == y
  {
  }

  /** A count is never mistaken for a missing value. */
  lemma CountIsNotNil(n: nat)
    ensures Decimal(n) != "nil" && Decimal(n) != "value"
  {
    assert IsDigit(Decimal(n)[0]);
    assert "nil"[0] == 'n' && "value"[0] == 'v';
  }

  /** A value and whatever follows it can be read back in one way only. */
  lemma {:induction false} TokensArePrefixFree(v: Value, w: Value, x: seq<string>, y: seq<string>)
    requires WellKinded(v) && WellKinded(w) && Tokens(v) + x == Tokens(w) + y
    ensures v == w && x == y
    decreases v, 1
  {
    Regroup([KindOf(v), v.pkg, v.name], Body(v), x);
    Regroup([KindOf(w), w.pkg, w.name], Body(w), y);
    SameHead([KindOf(v), v.pkg, v.name], [KindOf(w), w.pkg, w.name], Body(v) + x, Body(w) + y);
    assert KindOf(v) == [KindOf(v), v.pkg, v.name][0] && v.pkg == [KindOf(v), v.pkg, v.name][1]
           && v.name == [KindOf(v), v.pkg, v.name][2];
    assert KindOf(w) == [KindOf(w), w.pkg, w.name][0] && w.pkg == [KindOf(w), w.pkg, w.name][1]
           && w.name == [KindOf(w), w.pkg, w.name][2];
    BodiesArePrefixFree(v, w, x, y);
  }

  lemma {:induction false} BodiesArePrefixFree(v: Value, w: Value, x: seq<string>, y: seq<string>)
    requires WellKinded(v) && WellKinded(w) && KindOf(v) == KindOf(w) && v.pkg == w.pkg && v.name == w.name
    requires Body(v) + x == Body(w) + y
    ensures v == w && x == y
    decreases v, 0
  {
    var a, b := Body(v), Body(w);
    assert a[0] == (a + x)[0] == (b + y)[0] == b[0];
    assert a == [a[0]] + a[1..] && b == [b[0]] + b[1..];
    Regroup([a[0]], a[1..], x);
    Regroup([b[0]], b[1..], y);
    SameHead([a[0]], [b[0]], a[1..] + x, b[1..] + y);
    match v
    case Leaf(_, _, _, _) => Nothing(x, y);
    case NoValue(_, _, _) =>
      NilBodies(v, w);
      Nothing(x, y);
    case Struct(_, _, fs) =>
      DecimalIsInjective(FieldCount(fs), FieldCount(w.fields));
      FieldsArePrefixFree(fs, w.fields, x, y);
    case Pointer(_, _, target) =>
      NilBodies(w, v);
      TokensArePrefixFree(target, w.target, x, y);
    case List(_, _, _, items) =>
      NilBodies(w, v);
      DecimalIsInjective(ItemCount(items), ItemCount(w.items));
      ItemsArePrefixFree(items, w.items, x, y);
    case Mapping(_, _, pairs) =>
      NilBodies(w, v);
      DecimalIsInjective(ItemCount(pairs) / 2, ItemCount(w.pairs) / 2);
      ItemsArePrefixFree(pairs, w.pairs, x, y);
  }

  /** Of two values of one kind that start alike, both or neither are missing. */
  lemma NilBodies(v: Value, w: Value)
    requires WellKinded(v) && WellKinded(w) && KindOf(v) == KindOf(w) && Body(v) != [] && Body(w) != [] && Body(v)[0] == Body(w)[0]
    ensures v.NoValue? <==> w.NoValue?
  {
    match v
    case List(_, _, _, items) => CountIsNotNil(ItemCount(items));
    case Mapping(_, _, pairs) => CountIsNotNil(ItemCount(pairs) / 2);
    case NoValue(_, _, _) =>
      match w {
        case List(_, _, _, items) => CountIsNotNil(ItemCount(items));
        case Mapping(_, _, pairs) => CountIsNotNil(ItemCount(pairs) / 2);
        case _ =>
      }
    case _ =>
  }

  lemma {:induction false} FieldsArePrefixFree(fs: Fields, gs: Fields, x: seq<string>, y: seq<string>)
    requires FieldsWellKinded(fs) && FieldsWellKinded(gs) && FieldCount(fs) == FieldCount(gs)
    requires FieldTokens(fs) + x == FieldTokens(gs) + y
    ensures fs == gs && x == y
    decreases fs
  {
    match fs
    case NoFields => Nothing(x, y);
    case Field(title, value, rest) =>
      assert FieldTokens(fs) + x == [title] + (Tokens(value) + (FieldTokens(rest) + x));
      assert FieldTokens(gs) + y == [gs.title] + (Tokens(gs.value) + (FieldTokens(gs.rest) + y));
      SameHead([title], [gs.title], Tokens(value) + (FieldTokens(rest) + x), Tokens(gs.value) + (FieldTokens(gs.rest) + y));
      assert title == [title][0] && gs.title == [gs.title][0];
      TokensArePrefixFree(value, gs.value, FieldTokens(rest) + x, FieldTokens(gs.rest) + y);
      FieldsArePrefixFree(rest, gs.rest, x, y);
  }

  lemma {:induction false} ItemsArePrefixFree(vs: Values, ws: Values, x: seq<string>, y: seq<string>)
    requires ItemsWellKinded(vs) && ItemsWellKinded(ws) && ItemCount(vs) == ItemCount(ws)
    requires ItemTokens(vs) + x == ItemTokens(ws) + y
    ensures vs == ws && x == y
    decreases vs
  {
    match vs
    case NoItems => Nothing(x, y);
    case Item(value, rest) =>
      Regroup(Tokens(value), ItemTokens(rest), x);
      Regroup(Tokens(ws.value), ItemTokens(ws.rest), y);
      TokensArePrefixFree(value, ws.value, ItemTokens(rest) + x, ItemTokens(ws.rest) + y);
      ItemsArePrefixFree(rest, ws.rest, x, y);
  }

  // ---------- The fingerprint ----------

  const SCHEMA := "marum/search-fingerprint/v2"

  /** All that is hashed for one question: the schema, the engine version, the input and the goal. */
  function Message(engine: string, input: Value, goal: Value): string {
    Joined([SCHEMA, engine] + (Tokens(input) + Tokens(goal)))
  }

  /** Different questions are never encoded alike: only the hash can make two keys collide. */
  lemma MessageIsInjective(engine: string, input: Value, goal: Value, engine': string, input': Value, goal': Value)
    requires WellKinded(input) && WellKinded(goal) && WellKinded(input') && WellKinded(goal')
    requires Message(engine, input, goal) == Message(engine', input', goal')
    ensures engine == engine' && input == input' && goal == goal'
  {
    JoinedIsInjective([SCHEMA, engine] + (Tokens(input) + Tokens(goal)), [SCHEMA, engine'] + (Tokens(input') + Tokens(goal')));
    SameHead([SCHEMA, engine], [SCHEMA, engine'], Tokens(input) + Tokens(goal), Tokens(input') + Tokens(goal'));
    assert engine == [SCHEMA, engine][1] && engine' == [SCHEMA, engine'][1];
    TokensArePrefixFree(input, input', Tokens(goal), Tokens(goal'));
    assert Tokens(goal) + [] == Tokens(goal) && Tokens(goal') + [] == Tokens(goal');
    TokensArePrefixFree(goal, goal', [], []);
  }

  const BLOCK := 8192

  /** The encoding sink: one buffer, handed to the hash whenever it holds a block. */
  class Sink {
    var hashed: string
    var buffer: string

    constructor ()
      ensures Encoded() == "" && |buffer| < BLOCK
    {
      hashed, buffer := "", "";
    }

    /** Everything encoded so far. */
    function Encoded(): string
      reads this
    {
      hashed + buffer
    }

    /** Appends one framed token; a full buffer is handed over and emptied. */
    method Token(s: string)
      requires |buffer| < BLOCK
      modifies this
      ensures Encoded() == old(Encoded()) + Framed(s) && |buffer| < BLOCK
    {
      buffer := buffer + Decimal(|s|);
      buffer := buffer + ":";
      buffer := buffer + s;
      assert buffer == old(buffer) + Framed(s);
      if |buffer| >= BLOCK {
        hashed, buffer := hashed + buffer, "";
      }
    }

    /** Walks a value: its kind and type, then what the kind calls for. */
    method WriteValue(v: Value)
      requires |buffer| < BLOCK
      modifies this
      ensures Encoded() == old(Encoded()) + Joined(Tokens(v)) && |buffer| < BLOCK
      decreases v, 1
    {
      hide Joined, Framed, Encoded;
      Token(KindOf(v));
      Token(v.pkg);
      Token(v.name);
      WriteBody(v);
      ThreeThen(old(Encoded()), KindOf(v), v.pkg, v.name, Body(v));
    }

    method WriteBody(v: Value)
      requires |buffer| < BLOCK
      modifies this
      ensures Encoded() == old(Encoded()) + Joined(Body(v)) && |buffer| < BLOCK
      decreases v, 0
    {
      hide Joined, Framed, Encoded;
      match v {
        case Leaf(_, _, _, text) =>
          Token(text);
          OneThen(old(Encoded()), text, []);
        case NoValue(_, _, _) =>
          Token("nil");
          OneThen(old(Encoded()), "nil", []);
        case Struct(_, _, fields) =>
          Token(Decimal(FieldCount(fields)));
          WriteFields(fields);
          OneThen(old(Encoded()), Decimal(FieldCount(fields)), FieldTokens(fields));
        case Pointer(_, _, target) =>
          Token("value");
          WriteValue(target);
          OneThen(old(Encoded()), "value", Tokens(target));
        case List(_, _, _, items) =>
          Token(Decimal(ItemCount(items)));
          WriteItems(items);
          OneThen(old(Encoded()), Decimal(ItemCount(items)), ItemTokens(items));
        case Mapping(_, _, pairs) =>
          Token(Decimal(ItemCount(pairs) / 2));
          WriteItems(pairs);
          OneThen(old(Encoded()), Decimal(ItemCount(pairs) / 2), ItemTokens(pairs));
      }
    }

    /** Every field by its name and value, in order. */
    method WriteFields(fs: Fields)
      requires |buffer| < BLOCK
      modifies this
      ensures Encoded() == old(Encoded()) + Joined(FieldTokens(fs)) && |buffer| < BLOCK
      decreases fs
    {
      hide Joined, Framed, Encoded;
      match fs {
        case NoFields => NothingThen(old(Encoded()));
        case Field(title, value, rest) =>
          Token(title);
          WriteValue(value);
          WriteFields(rest);
          FieldThen(old(Encoded()), title, Tokens(value), FieldTokens(rest));
      }
    }

    method WriteItems(vs: Values)
      requires |buffer| < BLOCK
      modifies this
      ensures Encoded() == old(Encoded()) + Joined(ItemTokens(vs)) && |buffer| < BLOCK
      decreases vs
    {
      hide Joined, Framed, Encoded;
      match vs {
        case NoItems => NothingThen(old(Encoded()));
        case Item(value, rest) =>
          WriteValue(value);
          WriteItems(rest);
          SomeThen(old(Encoded()), Tokens(value), ItemTokens(rest));
      }
    }

    /** What is left goes to the hash; the digest is that of the whole encoding. */
    method Finish() returns (message: string)
      modifies this
      ensures message == old(Encoded()) && hashed == message && buffer == ""
    {
      hashed, buffer := hashed + buffer, "";
      return hashed;
    }
  }

  lemma NothingThen(e: string)
    ensures e == e + Joined([])
  {
  }

  lemma OneThen(e: string, t: string, rest: seq<string>)
    ensures e + Framed(t) == e + Joined([t])
    ensures (e + Framed(t)) + Joined(rest) == e + Joined([t] + rest)
  {
    assert Joined([t]) == Framed(t) + Joined([]) == Framed(t);
    assert ([t] + rest)[1..] == rest;
  }

  lemma SomeThen(e: string, a: seq<string>, b: seq<string>)
    ensures (e + Joined(a)) + Joined(b) == e + Joined(a + b)
  {
    JoinedAppends(a, b);
  }

  lemma FieldThen(e: string, t: string, a: seq<string>, b: seq<string>)
    ensures ((e + Framed(t)) + Joined(a)) + Joined(b) == e + Joined([t] + a + b)
  {
    OneThen(e, t, a);
    SomeThen(e, [t] + a, b);
  }

  lemma ThreeThen(e: string, a: string, b: string, c: string, rest: seq<string>)
    ensures (((e + Framed(a)) + Framed(b)) + Framed(c)) + Joined(rest) == e + Joined([a, b, c] + rest)
  {
    OneThen((e + Framed(a)) + Framed(b), c, rest);
    OneThen(e + Framed(a), b, [c] + rest);
    OneThen(e, a, [b] + ([c] + rest));
    assert [a] + ([b] + ([c] + rest)) == [a, b, c] + rest;
  }

  /** Streams a question block by block; the hash sees exactly the concatenated message. */
  method Fingerprint(engine: string, input: Value, goal: Value) returns (message: string)
    ensures message == Message(engine, input, goal)
  {
    hide Tokens, Joined, Framed;
    var sink := new Sink();
    sink.Token(SCHEMA);
    sink.Token(engine);
    sink.WriteValue(input);
    sink.WriteValue(goal);
    message := sink.Finish();
    SomeThen(("" + Framed(SCHEMA)) + Framed(engine), Tokens(input), Tokens(goal));
    OneThen("" + Framed(SCHEMA), engine, Tokens(input) + Tokens(goal));
    OneThen("", SCHEMA, [engine] + (Tokens(input) + Tokens(goal)));
    assert [SCHEMA] + ([engine] + (Tokens(input) + Tokens(goal))) == [SCHEMA, engine] + (Tokens(input) + Tokens(goal));
  }
}
