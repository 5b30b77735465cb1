/**
 The search cache: single flight, one computation at a time, bounded in entries and bytes. Under
 any interleaving of callers a successful answer is the one the computation gives, and every
 bound holds after every step.
 */
module PlanCache {
  import opened Portfolio

  const MAX_ENTRIES := 256
  const MAX_BYTES := 64 * 1024 * 1024
  const TTL_HOURS := 26

  /** An answer; a cancelled one is never taken for a result. */
  datatype Answer<R, E> = Found(report: R) | Failed(error: E) | Cancelled

  datatype Entry<R> = Entry(report: R, addedAt: int, bytes: nat)

  /** Deterministic computation, and the size its reports serialize to (0 when they do not). */
  datatype Engine<!K, !R, !E> = Engine(compute: K -> Answer<R, E>, size: R -> nat)

  // ---------- Bytes held ----------

  ghost function Held<K, R>(entries: map<K, Entry<R>>): (n: nat)
    ensures entries == map[] ==> n == 0
    decreases |entries|
  {
    if entries == map[] then 0
    else
      var k :| k in entries;
      entries[k].bytes + Held(entries - {k})
  }

  /** What is held does not depend on which entry is counted first. */
  lemma {:induction false} HeldWithout<K, R>(entries: map<K, Entry<R>>, k: K)
    requires k in entries
    ensures Held(entries) == entries[k].bytes + Held(entries - {k})
    decreases |entries|
  {
    var j :| j in entries && Held(entries) == entries[j].bytes + Held(entries - {j});
    if j != k {
      HeldWithout(entries - {j}, k);
      HeldWithout(entries - {k}, j);
      assert entries - {j} - {k} == entries - {k} - {j};
    }
  }

  lemma HeldWith<K, R>(entries: map<K, Entry<R>>, k: K, e: Entry<R>)
    requires k !in entries
    ensures Held(entries[k := e]) == Held(entries) + e.bytes
  {
    HeldWithout(entries[k := e], k);
    assert entries[k := e] - {k} == entries;
  }

  predicate Expired<R>(e: Entry<R>, now: int) {
    now - e.addedAt >= TTL_HOURS
  }

  // ---------- Eviction and storing ----------

  /** What one eviction leaves: without the expired entries or, when there are none, without an oldest one. */
  ghost predicate Evicted<K(!new), R>(before: map<K, Entry<R>>, after: map<K, Entry<R>>, now: int) {
    if exists k :: k in before && Expired(before[k], now) then
      && (forall k :: k in after <==> k in before && !Expired(before[k], now))
      && (forall k :: k in after ==> after[k] == before[k])
    else
      before == after == map[]
      || exists k :: k in before && after == before - {k} && forall j :: j in before ==> before[j].addedAt >= before[k].addedAt
  }

  /** What storing a report makes of the entries: evictions only where a bound calls for them. */
  ghost predicate Stored<K(!new), R>(before: map<K, Entry<R>>, key: K, e: Entry<R>, after: map<K, Entry<R>>) {
    && key in after && after[key] == e
    && (forall k :: k in after && k != key ==> k in before && after[k] == before[k])
    && |after| <= MAX_ENTRIES && Held(after) <= MAX_BYTES
    && (|before - {key}| < MAX_ENTRIES && Held(before - {key}) + e.bytes <= MAX_BYTES ==> after == before[key := e])
  }

  class Store<K(!new, ==), R(!new)> {
    var entries: map<K, Entry<R>>
    var bytes: int

    /** The byte counter is what the entries hold, and both bounds are kept. */
    ghost predicate Valid()
      reads this
    {
      bytes == Held(entries) && |entries| <= MAX_ENTRIES && bytes <= MAX_BYTES
    }

    constructor ()
      ensures Valid() && entries == map[]
    {
      entries, bytes := map[], 0;
    }

    /** Drops the expired entries in whatever order they are met, or else an oldest one. */
    method Evict(now: int)
      requires bytes == Held(entries)
      modifies this
      ensures bytes == Held(entries) && Evicted(old(entries), entries, now)
      ensures entries.Keys <= old(entries).Keys && (old(entries) != map[] ==> |entries| < |old(entries)|)
    {
      ghost var before := entries;
      var left := entries.Keys;
      var oldest: Option<K> := None;
      var dropped := false;
      while left != {}
        invariant left <= before.Keys
        invariant forall k :: k in entries <==> k in before && (k in left || !Expired(before[k], now))
        invariant forall k :: k in entries ==> entries[k] == before[k]
        invariant dropped <==> exists k :: k in before && k !in left && Expired(before[k], now)
        invariant bytes == Held(entries)
        invariant oldest.Some? ==> oldest.value in entries && oldest.value !in left
        invariant oldest.None? ==> forall k :: k in before && k !in left ==> Expired(before[k], now)
        invariant oldest.Some? ==>
                    forall k :: k in entries && k !in left ==> before[k].addedAt >= before[oldest.value].addedAt
        decreases |left|
      {
        var k :| k in left;
        left := left - {k};
        if Expired(entries[k], now) {
          HeldWithout(entries, k);
          bytes := bytes - entries[k].bytes;
          entries := entries - {k};
          dropped := true;
        } else if oldest.None? || entries[k].addedAt < entries[oldest.value].addedAt {
          oldest := Some(k);
        }
      }
      if dropped {
        DropsSome(before, entries, now);
      }
      if !dropped {
        assert entries == before;
        if oldest.Some? {
          HeldWithout(entries, oldest.value);
          bytes := bytes - entries[oldest.value].bytes;
          entries := entries - {oldest.value};
        }
      }
    }

    /** Makes room and stores one report. An oversized report is not stored at all; making room always ends. */
    method Put(key: K, report: R, now: int, size: nat)
      requires Valid() && 0 < size <= MAX_BYTES
      modifies this
      ensures Valid() && Stored(old(entries), key, Entry(report, now, size), entries)
    {
      if key in entries {
        HeldWithout(entries, key);
        bytes := bytes - entries[key].bytes;
        entries := entries - {key};
      }
      assert entries == old(entries) - {key};
      ghost var before := entries;
      while |entries| >= MAX_ENTRIES || bytes + size > MAX_BYTES
        invariant bytes == Held(entries) && key !in entries && entries.Keys <= before.Keys
        invariant forall k :: k in entries ==> entries[k] == before[k]
        invariant |before| < MAX_ENTRIES && Held(before) + size <= MAX_BYTES ==> entries == before
        decreases |entries|
      {
        ghost var last := entries;
        Evict(now);
        EvictedKeeps(last, entries, now);
      }
      HeldWith(entries, key, Entry(report, now, size));
      entries := entries[key := Entry(report, now, size)];
      bytes := bytes + size;
    }
  }

  lemma DropsSome<K(!new), R>(before: map<K, Entry<R>>, after: map<K, Entry<R>>, now: int)
    requires exists k :: k in before && Expired(before[k], now)
    requires forall k :: k in after <==> k in before && !Expired(before[k], now)
    ensures after.Keys <= before.Keys && |after| < |before|
  {
    var k :| k in before && Expired(before[k], now);
    assert after.Keys <= before.Keys - {k};
    Fewer(after.Keys, before.Keys - {k});
  }

  lemma {:induction false} Fewer<K>(a: set<K>, b: set<K>)
    requires a <= b
    ensures |a| <= |b|
    decreases |a|
  {
    if a != {} {
      var k :| k in a;
      Fewer(a - {k}, b - {k});
    }
  }

  lemma EvictedKeeps<K(!new), R>(before: map<K, Entry<R>>, after: map<K, Entry<R>>, now: int)
    requires Evicted(before, after, now)
    ensures forall k :: k in after ==> k in before && after[k] == before[k]
  {
  }

  // ---------- Callers ----------

  datatype Caller<K, R, E> =
    | Looking(key: K, now: int)
    | Waiting(key: K, now: int, flight: nat)
    | Queued(key: K, now: int, flight: nat)
    | Computing(key: K, now: int, flight: nat)
    | Computed(key: K, now: int, flight: nat, answer: Answer<R, E>)
    | Returned(key: K, answer: Answer<R, E>)
  {
    /** The caller that asked a flight and still has to close it. */
    predicate Owns() {
      Queued? || Computing? || Computed?
    }
  }

  /** The cache, its open flights, the answers of closed ones, the slot, and every caller. */
  datatype State<K, R, E> = State(entries: map<K, Entry<R>>, flights: map<K, nat>, closed: map<nat, Answer<R, E>>,
                                  slot: Option<nat>, callers: seq<Caller<K, R, E>>, asked: seq<K>)

  datatype Move = Hit | Join | Own | GiveUp | Learn | Acquire | Compute | Interrupt | Publish

  predicate Fresh<K, R, E>(s: State<K, R, E>, key: K, now: int) {
    key in s.entries && !Expired(s.entries[key], now)
  }

  ghost predicate Init<K(!new), R, E>(s: State<K, R, E>) {
    && s.entries == map[] && s.flights == map[] && s.closed == map[] && s.slot == None && s.asked == []
    && forall c :: 0 <= c < |s.callers| ==> s.callers[c].Looking?
  }

  /** One atomic step of one caller. */
  ghost predicate Next<K(!new), R, E>(g: Engine<K, R, E>, s: State<K, R, E>, c: nat, m: Move, s': State<K, R, E>) {
    c < |s.callers| &&
    var me := s.callers[c];
    match m
    case Hit =>
      && me.Looking? && Fresh(s, me.key, me.now)
      && s' == s.(callers := s.callers[c := Returned(me.key, Found(s.entries[me.key].report))])
    case Join =>
      && me.Looking? && !Fresh(s, me.key, me.now) && me.key in s.flights
      && s' == s.(callers := s.callers[c := Waiting(me.key, me.now, s.flights[me.key])])
    case Own =>
      && me.Looking? && !Fresh(s, me.key, me.now) && me.key !in s.flights
      && s' == s.(flights := s.flights[me.key := |s.asked|], asked := s.asked + [me.key],
                  callers := s.callers[c := Queued(me.key, me.now, |s.asked|)])
    case GiveUp =>
      && (me.Looking? || me.Waiting?)
      && s' == s.(callers := s.callers[c := Returned(me.key, Cancelled)])
    case Learn =>
      && me.Waiting? && me.flight in s.closed
      && s' == s.(callers := s.callers[c := if s.closed[me.flight].Cancelled? then Looking(me.key, me.now)
                                            else Returned(me.key, s.closed[me.flight])])
    case Acquire =>
      && me.Queued? && s.slot == None
      && s' == s.(slot := Some(c), callers := s.callers[c := Computing(me.key, me.now, me.flight)])
    case Compute =>
      && me.Computing?
      && s' == s.(slot := None, callers := s.callers[c := Computed(me.key, me.now, me.flight, g.compute(me.key))])
    case Interrupt =>
      && me.Owns()
      && s' == s.(slot := if me.Computing? then None else s.slot,
                  callers := s.callers[c := Computed(me.key, me.now, me.flight, Cancelled)])
    case Publish =>
      && me.Computed? && me.flight !in s.closed
      && (if me.answer.Found? && 0 < g.size(me.answer.report) <= MAX_BYTES
          then Stored(s.entries, me.key, Entry(me.answer.report, me.now, g.size(me.answer.report)), s'.entries)
          else s'.entries == s.entries)
      && s' == s.(entries := s'.entries, flights := s.flights - {me.key}, closed := s.closed[me.flight := me.answer],
                  callers := s.callers[c := Returned(me.key, me.answer)])
  }

  /** A caller is answered from the cache only with a report stored less than twenty-six hours before it asked. */
  lemma HitsAreFresh<K(!new), R, E>(g: Engine<K, R, E>, s: State<K, R, E>, c: nat, s': State<K, R, E>)
    requires Next(g, s, c, Hit, s')
    ensures c < |s.callers| && s.callers[c].Looking? && s.callers[c].key in s.entries
    ensures s.callers[c].now - s.entries[s.callers[c].key].addedAt < 26
    ensures s'.callers[c] == Returned(s.callers[c].key, Found(s.entries[s.callers[c].key].report))
  {
  }

  // ---------- What every step keeps ----------

  ghost predicate Right<K, R, E>(g: Engine<K, R, E>, key: K, a: Answer<R, E>) {
    a.Cancelled? || a == g.compute(key)
  }

  /** What one caller may rely on. */
  ghost predicate CallerOk<K(!new), R, E>(g: Engine<K, R, E>, s: State<K, R, E>, c: nat)
    requires c < |s.callers|
  {
    match s.callers[c]
    case Looking(_, _) => true
    case Waiting(key, _, f) => f < |s.asked| && s.asked[f] == key
    case Queued(key, _, f) => Holds(s, key, f)
    case Computing(key, _, f) => Holds(s, key, f) && s.slot == Some(c)
    case Computed(key, _, f, a) => Holds(s, key, f) && Right(g, key, a)
    case Returned(key, a) => Right(g, key, a)
  }

  /** A flight is the open one of its key. */
  ghost predicate Holds<K(!new), R, E>(s: State<K, R, E>, key: K, f: nat) {
    f < |s.asked| && s.asked[f] == key && key in s.flights && s.flights[key] == f && f !in s.closed
  }

  ghost predicate Inv<K(!new), R, E>(g: Engine<K, R, E>, s: State<K, R, E>) {
    && |s.entries| <= MAX_ENTRIES && Held(s.entries) <= MAX_BYTES
    && (forall k :: k in s.entries ==> g.compute(k) == Found(s.entries[k].report))
    && (forall k :: k in s.flights ==> s.flights[k] < |s.asked| && s.asked[s.flights[k]] == k)
    && (forall f :: f in s.closed ==> f < |s.asked| && Right(g, s.asked[f], s.closed[f]))
    && (forall c :: 0 <= c < |s.callers| ==> CallerOk(g, s, c))
    && (forall c, d :: 0 <= c < d < |s.callers| && s.callers[c].Owns() && s.callers[d].Owns() ==>
          s.callers[c].flight != s.callers[d].flight)
    && (s.slot.Some? ==> s.slot.value < |s.callers| && s.callers[s.slot.value].Computing?)
  }

  lemma NextKeepsEntries<K(!new), R, E>(g: Engine<K, R, E>, s: State<K, R, E>, c: nat, m: Move, s': State<K, R, E>)
    requires Inv(g, s) && Next(g, s, c, m, s')
    ensures |s'.entries| <= MAX_ENTRIES && Held(s'.entries) <= MAX_BYTES
    ensures forall k :: k in s'.entries ==> g.compute(k) == Found(s'.entries[k].report)
  {
    hide Held, CallerOk, Right, Expired;
    if m == Publish {
      OwnAnswer(g, s, c);
    }
  }

  /** What a caller has computed is the computation's own answer. */
  lemma OwnAnswer<K(!new), R, E>(g: Engine<K, R, E>, s: State<K, R, E>, c: nat)
    requires Inv(g, s) && c < |s.callers| && s.callers[c].Computed?
    ensures s.callers[c].answer.Cancelled? || s.callers[c].answer == g.compute(s.callers[c].key)
    ensures Holds(s, s.callers[c].key, s.callers[c].flight)
  {
    hide Held;
    assert CallerOk(g, s, c);
  }

  lemma NextKeepsFlights<K(!new), R, E>(g: Engine<K, R, E>, s: State<K, R, E>, c: nat, m: Move, s': State<K, R, E>)
    requires Inv(g, s) && Next(g, s, c, m, s')
    ensures forall k :: k in s'.flights ==> s'.flights[k] < |s'.asked| && s'.asked[s'.flights[k]] == k
    ensures forall f :: f in s'.closed ==> f < |s'.asked| && Right(g, s'.asked[f], s'.closed[f])
  {
    hide Stored, Held;
    assert CallerOk(g, s, c);
  }

  /** A caller without a flight of its own answers from the cache, from another's flight, or not at all. */
  lemma AskingKeepsSelf<K(!new), R, E>(g: Engine<K, R, E>, s: State<K, R, E>, c: nat, m: Move, s': State<K, R, E>)
    requires Inv(g, s) && Next(g, s, c, m, s') && !s.callers[c].Owns()
    ensures CallerOk(g, s', c)
  {
    hide Stored, Held, Expired;
    assert CallerOk(g, s, c);
    match m
    case Hit =>
    case Join =>
    case Own =>
    case GiveUp =>
    case Learn =>
    case _ =>
  }

  lemma OwningKeepsSelf<K(!new), R, E>(g: Engine<K, R, E>, s: State<K, R, E>, c: nat, m: Move, s': State<K, R, E>)
    requires Inv(g, s) && Next(g, s, c, m, s') && s.callers[c].Owns()
    ensures CallerOk(g, s', c)
  {
    hide Stored, Held, Expired, Fresh;
    assert CallerOk(g, s, c);
    match m
    case Acquire =>
    case Compute =>
    case Interrupt =>
    case Publish =>
    case _ =>
  }

  /** A step leaves its own caller entitled to what it holds. */
  lemma NextKeepsSelf<K(!new), R, E>(g: Engine<K, R, E>, s: State<K, R, E>, c: nat, m: Move, s': State<K, R, E>)
    requires Inv(g, s) && Next(g, s, c, m, s')
    ensures |s'.callers| == |s.callers| && CallerOk(g, s', c)
  {
    hide Inv, Held, Stored, Expired, Right, Holds;
    QuestionsStay(g, s, c, m, s');
    if s.callers[c].Owns() {
      OwningKeepsSelf(g, s, c, m, s');
    } else {
      AskingKeepsSelf(g, s, c, m, s');
    }
  }

  lemma QuestionsStay<K(!new), R, E>(g: Engine<K, R, E>, s: State<K, R, E>, c: nat, m: Move, s': State<K, R, E>)
    requires Next(g, s, c, m, s')
    ensures s.asked <= s'.asked && |s'.callers| == |s.callers|
    ensures forall d :: 0 <= d < |s.callers| && d != c ==> s'.callers[d] == s.callers[d]
  {
    hide Stored, Held, Expired;
  }

  /** A step of one caller leaves another caller's flight open. */
  lemma FlightStays<K(!new), R, E>(g: Engine<K, R, E>, s: State<K, R, E>, c: nat, m: Move, s': State<K, R, E>, d: nat)
    requires Inv(g, s) && Next(g, s, c, m, s') && d < |s.callers| && d != c && s.callers[d].Owns()
    ensures Holds(s, s.callers[d].key, s.callers[d].flight)
    ensures Holds(s', s.callers[d].key, s.callers[d].flight)
  {
    hide Stored, Held, Expired, Right, Fresh, Holds, Next;
    OpenFlight(g, s, d);
    if m == Publish {
      PublisherOwns(g, s, c, s');
      OpenFlight(g, s, c);
      DifferentFlights(s, s.callers[c].key, s.callers[c].flight, s.callers[d].key, s.callers[d].flight);
    }
    FlightSurvives(g, s, c, m, s', s.callers[d].key, s.callers[d].flight);
  }

  lemma OpenFlight<K(!new), R, E>(g: Engine<K, R, E>, s: State<K, R, E>, d: nat)
    requires Inv(g, s) && d < |s.callers| && s.callers[d].Owns()
    ensures Holds(s, s.callers[d].key, s.callers[d].flight)
  {
    hide Held, Right, Holds;
    assert CallerOk(g, s, d);
  }

  lemma PublisherOwns<K(!new), R, E>(g: Engine<K, R, E>, s: State<K, R, E>, c: nat, s': State<K, R, E>)
    requires Next(g, s, c, Publish, s')
    ensures c < |s.callers| && s.callers[c].Owns()
  {
  }

  lemma DifferentFlights<K(!new), R, E>(s: State<K, R, E>, key: K, f: nat, key': K, f': nat)
    requires Holds(s, key, f) && Holds(s, key', f') && f != f'
    ensures key != key'
  {
  }

  /** A flight stays open unless it is the one published. */
  lemma FlightSurvives<K(!new), R, E>(g: Engine<K, R, E>, s: State<K, R, E>, c: nat, m: Move, s': State<K, R, E>, key: K, f: nat)
    requires Next(g, s, c, m, s') && Holds(s, key, f)
    requires m == Publish ==> s.callers[c].key != key && s.callers[c].flight != f
    ensures Holds(s', key, f)
  {
    hide Stored, Held, Expired, Fresh;
  }

  lemma SlotStays<K(!new), R, E>(g: Engine<K, R, E>, s: State<K, R, E>, c: nat, m: Move, s': State<K, R, E>, d: nat)
    requires Inv(g, s) && Next(g, s, c, m, s') && d < |s.callers| && d != c && s.callers[d].Computing?
    ensures s'.slot == Some(d)
  {
    hide Stored, Held, Expired, Right, Holds;
    assert CallerOk(g, s, c) && CallerOk(g, s, d);
  }

  /** No step of one caller takes another one's flight, slot or answer away. */
  lemma NextKeepsOthers<K(!new), R, E>(g: Engine<K, R, E>, s: State<K, R, E>, c: nat, m: Move, s': State<K, R, E>, d: nat)
    requires Inv(g, s) && Next(g, s, c, m, s') && d < |s.callers| && d != c
    ensures |s'.callers| == |s.callers| && CallerOk(g, s', d)
  {
    hide Next, Held, Right, Holds;
    QuestionsStay(g, s, c, m, s');
    assert CallerOk(g, s, d);
    if s.callers[d].Owns() {
      FlightStays(g, s, c, m, s', d);
    }
    if s.callers[d].Computing? {
      SlotStays(g, s, c, m, s', d);
    }
  }

  /** Flights of different callers stay different: a new one has a number no flight has had. */
  lemma NextKeepsOwners<K(!new), R, E>(g: Engine<K, R, E>, s: State<K, R, E>, c: nat, m: Move, s': State<K, R, E>)
    requires Inv(g, s) && Next(g, s, c, m, s')
    ensures forall a, b :: 0 <= a < b < |s'.callers| && s'.callers[a].Owns() && s'.callers[b].Owns() ==>
              s'.callers[a].flight != s'.callers[b].flight
  {
    hide Next, Held, CallerOk;
    QuestionsStay(g, s, c, m, s');
    OwnFlight(g, s, c, m, s');
    forall d | 0 <= d < |s.callers| && d != c && s.callers[d].Owns()
      ensures s.callers[d].flight < |s.asked| && s'.callers[d] == s.callers[d]
    {
      FlightStays(g, s, c, m, s', d);
    }
  }

  /** A caller's flight is the one it had, or a new one. */
  lemma OwnFlight<K(!new), R, E>(g: Engine<K, R, E>, s: State<K, R, E>, c: nat, m: Move, s': State<K, R, E>)
    requires Next(g, s, c, m, s')
    ensures c < |s.callers| == |s'.callers|
    ensures s'.callers[c].Owns() ==>
              if s.callers[c].Owns() then s'.callers[c].flight == s.callers[c].flight else s'.callers[c].flight == |s.asked|
  {
    hide Stored, Held, Expired;
  }

  lemma NextKeepsSlot<K(!new), R, E>(g: Engine<K, R, E>, s: State<K, R, E>, c: nat, m: Move, s': State<K, R, E>)
    requires Inv(g, s) && Next(g, s, c, m, s')
    ensures s'.slot.Some? ==> s'.slot.value < |s'.callers| && s'.callers[s'.slot.value].Computing?
  {
    hide Stored, Held, Expired, Right, Holds;
    assert CallerOk(g, s, c);
  }

  lemma NextInv<K(!new), R, E>(g: Engine<K, R, E>, s: State<K, R, E>, c: nat, m: Move, s': State<K, R, E>)
    requires Inv(g, s) && Next(g, s, c, m, s')
    ensures Inv(g, s')
  {
    hide Next, CallerOk;
    NextKeepsEntries(g, s, c, m, s');
    NextKeepsFlights(g, s, c, m, s');
    NextKeepsOwners(g, s, c, m, s');
    NextKeepsSlot(g, s, c, m, s');
    forall d | 0 <= d < |s'.callers|
      ensures CallerOk(g, s', d)
    {
      NextKeepsSelf(g, s, c, m, s');
      if d != c {
        NextKeepsOthers(g, s, c, m, s', d);
      }
    }
  }

  // ---------- Runs ----------

  ghost predicate Execution<K(!new), R, E>(g: Engine<K, R, E>, states: seq<State<K, R, E>>, steps: seq<(nat, Move)>) {
    && |states| == |steps| + 1 && Init(states[0])
    && forall k :: 0 <= k < |steps| ==> Next(g, states[k], steps[k].0, steps[k].1, states[k + 1])
  }

  lemma {:induction false} ExecutionInv<K(!new), R, E>(g: Engine<K, R, E>, states: seq<State<K, R, E>>, steps: seq<(nat, Move)>, k: nat)
    requires Execution(g, states, steps) && k <= |steps|
    ensures Inv(g, states[k])
  {
    hide Next, Inv;
    if k == 0 {
      InitInv(g, states[0]);
    } else {
      ExecutionInv(g, states, steps, k - 1);
      NextInv(g, states[k - 1], steps[k - 1].0, steps[k - 1].1, states[k]);
    }
  }

  lemma InitInv<K(!new), R, E>(g: Engine<K, R, E>, s: State<K, R, E>)
    requires Init(s)
    ensures Inv(g, s)
  {
  }

  /**
   Transparency and the bounds, after any number of steps of any callers in any order: a report
   or an error that is returned is the computation's own; at most one caller computes; each key
   has at most one open flight, with one owner; the cache stays within its bounds.
   */
  lemma CacheIsTransparent<K(!new), R, E>(g: Engine<K, R, E>, states: seq<State<K, R, E>>, steps: seq<(nat, Move)>, k: nat)
    requires Execution(g, states, steps) && k <= |steps|
    ensures var s := states[k];
            && (forall c :: 0 <= c < |s.callers| && s.callers[c].Returned? && !s.callers[c].answer.Cancelled? ==>
                  s.callers[c].answer == g.compute(s.callers[c].key))
            && (forall c, d :: 0 <= c < d < |s.callers| ==> !(s.callers[c].Computing? && s.callers[d].Computing?))
            && (forall c, d :: 0 <= c < d < |s.callers| && s.callers[c].Owns() && s.callers[d].Owns() ==>
                  s.callers[c].key != s.callers[d].key)
            && |s.entries| <= MAX_ENTRIES && Held(s.entries) <= MAX_BYTES
  {
    hide Held;
    ExecutionInv(g, states, steps, k);
    var s := states[k];
    forall c | 0 <= c < |s.callers| && s.callers[c].Returned? && !s.callers[c].answer.Cancelled?
      ensures s.callers[c].answer == g.compute(s.callers[c].key)
    {
      assert CallerOk(g, s, c);
    }
    forall c, d | 0 <= c < d < |s.callers| && s.callers[c].Computing?
      ensures !s.callers[d].Computing?
    {
      assert CallerOk(g, s, c) && CallerOk(g, s, d);
    }
    forall c, d | 0 <= c < d < |s.callers| && s.callers[c].Owns() && s.callers[d].Owns()
      ensures s.callers[c].key != s.callers[d].key
    {
      assert CallerOk(g, s, c) && CallerOk(g, s, d);
    }
  }
}
