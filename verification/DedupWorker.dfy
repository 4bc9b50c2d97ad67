/** What the dedup worker broadcasts while nothing is evicted, whatever way the regions interleave. */
module DedupWorker {
  import opened Prelude
  import opened Geyser
  import opened DedupCache
  import opened DedupPipeline

  ghost function KeysOf(raw: seq<Raw>): set<DedupKey> {
    set m | m in raw && ComputeDedupKey(m.update).Some? :: ComputeDedupKey(m.update).value
  }

  /** Does `m`, arriving after `before`, deserve to be broadcast? */
  ghost predicate Passes(before: seq<Raw>, m: Raw) {
    && !IsPong(m.update)
    && (ComputeDedupKey(m.update).Some? ==> ComputeDedupKey(m.update).value !in KeysOf(before))
  }

  /** The messages that carry no pong and repeat no earlier key, in arrival order. */
  ghost function Firsts(raw: seq<Raw>): seq<Raw> {
    if raw == [] then []
    else
      var before, m := raw[..|raw| - 1], raw[|raw| - 1];
      if Passes(before, m) then Firsts(before) + [m] else Firsts(before)
  }

  datatype Class = FromNode(node: string) | PongFrom(node: string) | Keyless

  predicate Is(c: Class, m: Raw) {
    match c
    case FromNode(node) => m.node == node
    case PongFrom(node) => m.node == node && IsPong(m.update)
    case Keyless => ComputeDedupKey(m.update).None? && !IsPong(m.update)
  }

  function Filter(c: Class, raw: seq<Raw>): seq<Raw> {
    if raw == [] then []
    else Filter(c, raw[..|raw| - 1]) + (if Is(c, raw[|raw| - 1]) then [raw[|raw| - 1]] else [])
  }

  lemma FilterSnoc(c: Class, raw: seq<Raw>, m: Raw)
    ensures Filter(c, raw + [m]) == Filter(c, raw) + (if Is(c, m) then [m] else [])
  {
    assert (raw + [m])[..|raw|] == raw;
  }

  lemma FirstsSnoc(raw: seq<Raw>, m: Raw)
    ensures Firsts(raw + [m]) == Firsts(raw) + (if Passes(raw, m) then [m] else [])
  {
    assert (raw + [m])[..|raw|] == raw;
  }

  lemma KeysOfSnoc(raw: seq<Raw>, m: Raw)
    ensures KeysOf(raw + [m]) ==
            KeysOf(raw) + (if ComputeDedupKey(m.update).Some? then {ComputeDedupKey(m.update).value} else {})
  {
    assert m in raw + [m];
  }

  lemma Snoc(raw: seq<Raw>)
    requires raw != []
    ensures raw == raw[..|raw| - 1] + [raw[|raw| - 1]]
  {
  }

  ghost predicate EachKeyOnce(out: seq<Raw>) {
    forall i, j :: 0 <= i < j < |out| && ComputeDedupKey(out[i].update).Some? ==>
      ComputeDedupKey(out[i].update) != ComputeDedupKey(out[j].update)
  }

  lemma {:induction false} FirstsKeys(raw: seq<Raw>)
    ensures KeysOf(Firsts(raw)) == KeysOf(raw)
    ensures forall m :: m in Firsts(raw) ==> m in raw && !IsPong(m.update)
  {
    if raw != [] {
      var before, m := raw[..|raw| - 1], raw[|raw| - 1];
      FirstsKeys(before);
      assert raw == before + [m];
      FirstsSnoc(before, m);
      KeysOfSnoc(before, m);
      KeysOfSnoc(Firsts(before), m);
      assert Firsts(before) + [] == Firsts(before);
    }
  }

  lemma {:induction false} FirstsOnce(raw: seq<Raw>)
    ensures EachKeyOnce(Firsts(raw))
  {
    if raw != [] {
      var before, m := raw[..|raw| - 1], raw[|raw| - 1];
      FirstsOnce(before);
      FirstsKeys(before);
      forall i | 0 <= i < |Firsts(before)| && ComputeDedupKey(Firsts(before)[i].update).Some? && Passes(before, m)
        ensures ComputeDedupKey(Firsts(before)[i].update) != ComputeDedupKey(m.update)
      {
        assert Firsts(before)[i] in Firsts(before);
        assert ComputeDedupKey(Firsts(before)[i].update).value in KeysOf(Firsts(before));
      }
    }
  }

  lemma {:induction false} FirstsKeyless(raw: seq<Raw>)
    ensures Filter(Keyless, Firsts(raw)) == Filter(Keyless, raw)
    ensures |Firsts(raw)| == |KeysOf(raw)| + |Filter(Keyless, raw)|
  {
    if raw != [] {
      var before, m := raw[..|raw| - 1], raw[|raw| - 1];
      FirstsKeyless(before);
      assert raw == before + [m];
      FirstsSnoc(before, m);
      FilterSnoc(Keyless, before, m);
      FilterSnoc(Keyless, Firsts(before), m);
      KeysOfSnoc(before, m);
      var key := ComputeDedupKey(m.update);
      if key.Some? && key.value !in KeysOf(before) {
        assert |KeysOf(raw)| == |KeysOf(before)| + 1;
      } else {
        assert KeysOf(raw) == KeysOf(before);
      }
    }
  }

  /** Every key is broadcast exactly once; every keyless update that is no pong always is, in order. */
  lemma FirstsExact(raw: seq<Raw>)
    ensures KeysOf(Firsts(raw)) == KeysOf(raw)
    ensures EachKeyOnce(Firsts(raw))
    ensures Filter(Keyless, Firsts(raw)) == Filter(Keyless, raw)
    ensures |Firsts(raw)| == |KeysOf(raw)| + |Filter(Keyless, raw)|
  {
    FirstsKeys(raw);
    FirstsOnce(raw);
    FirstsKeyless(raw);
  }

  lemma {:induction false} FilterCount(c: Class, raw: seq<Raw>, m: Raw)
    ensures multiset(Filter(c, raw))[m] == if Is(c, m) then multiset(raw)[m] else 0
  {
    if raw != [] {
      Snoc(raw);
      FilterCount(c, raw[..|raw| - 1], m);
    }
  }

  /** Two merges of the same per-region streams. */
  ghost predicate SameStreams(a: seq<Raw>, b: seq<Raw>) {
    forall node :: Filter(FromNode(node), a) == Filter(FromNode(node), b)
  }

  lemma MergeIsPermutation(a: seq<Raw>, b: seq<Raw>)
    requires SameStreams(a, b)
    ensures multiset(a) == multiset(b)
  {
    forall m: Raw ensures multiset(a)[m] == multiset(b)[m] {
      FilterCount(FromNode(m.node), a, m);
      FilterCount(FromNode(m.node), b, m);
      assert Filter(FromNode(m.node), a) == Filter(FromNode(m.node), b);
    }
  }

  lemma PermutationKeys(a: seq<Raw>, b: seq<Raw>)
    requires multiset(a) == multiset(b)
    ensures KeysOf(a) == KeysOf(b)
  {
    assert forall m :: m in a <==> m in multiset(a);
    assert forall m :: m in b <==> m in multiset(b);
  }

  lemma SameCounts(a: multiset<Raw>, b: multiset<Raw>)
    requires forall m :: a[m] == b[m]
    ensures a == b && |a| == |b|
  {
  }

  lemma PermutationKeyless(a: seq<Raw>, b: seq<Raw>)
    requires multiset(a) == multiset(b)
    ensures multiset(Filter(Keyless, a)) == multiset(Filter(Keyless, b))
    ensures |Filter(Keyless, a)| == |Filter(Keyless, b)|
  {
    var fa, fb := multiset(Filter(Keyless, a)), multiset(Filter(Keyless, b));
    assert forall m :: fa[m] == fb[m] by {
      forall m: Raw ensures fa[m] == fb[m] {
        FilterCount(Keyless, a, m);
        FilterCount(Keyless, b, m);
      }
    }
    SameCounts(fa, fb);
  }

  // ---------------------------------------------------------------------------------------------
  // The split-step pipeline, over runs in which no pass evicts anything
  // ---------------------------------------------------------------------------------------------

  function Messages(sent: seq<Broadcast>): seq<Raw> {
    if sent == [] then [] else Messages(sent[..|sent| - 1]) + [sent[|sent| - 1].msg]
  }

  function InFlight(s: State): seq<Raw> {
    if s.worker.Idle? then [] else [s.worker.msg]
  }

  ghost predicate Unevicted(s: State) {
    && !s.evictor.Popped?
    && s.seen == KeysOf(s.raw)
    && Messages(s.sent) + InFlight(s) == Firsts(s.raw)
  }

  lemma UnevictedReceive(s: State, m: Raw)
    requires Unevicted(s) && s.worker.Idle?
    ensures Unevicted(OnReceive(s, m))
  {
    KeysOfSnoc(s.raw, m);
    FirstsSnoc(s.raw, m);
    assert Messages(s.sent) + [] == Messages(s.sent);
  }

  lemma UnevictedStep(s: State, e: Event)
    requires Unevicted(s) && !e.Pop?
    ensures Unevicted(Next(s, e))
  {
    var t := Next(s, e);
    if e.Receive? && s.worker.Idle? {
      UnevictedReceive(s, e.msg);
    } else if e.Send? && s.worker.Sending? {
      assert t.sent[..|t.sent| - 1] == s.sent;
      assert Messages(t.sent) + [] == Messages(t.sent);
    }
  }

  /** While no pass evicts anything, the broadcasts are the first occurrences in raw order. */
  lemma {:induction false} BroadcastsAreFirsts(ttl: nat, known: set<string>, es: seq<Event>)
    requires Pop !in es
    ensures var s := Exec(Init(ttl, known), es);
            Unevicted(s) && (s.worker.Idle? ==> Messages(s.sent) == Firsts(s.raw))
  {
    if es != [] {
      BroadcastsAreFirsts(ttl, known, es[..|es| - 1]);
      UnevictedStep(Exec(Init(ttl, known), es[..|es| - 1]), es[|es| - 1]);
    }
    var s := Exec(Init(ttl, known), es);
    assert s.worker.Idle? ==> Messages(s.sent) + InFlight(s) == Messages(s.sent);
  }

  /** Whatever way the regions' streams interleave, the same keys and keyless updates are broadcast. */
  lemma InterleavingIndependence(ttl: nat, known: set<string>, es: seq<Event>, fs: seq<Event>)
    requires Pop !in es && Pop !in fs
    requires var s, t := Exec(Init(ttl, known), es), Exec(Init(ttl, known), fs);
             s.worker.Idle? && t.worker.Idle? && SameStreams(s.raw, t.raw)
    ensures var a, b := Messages(Exec(Init(ttl, known), es).sent), Messages(Exec(Init(ttl, known), fs).sent);
            && KeysOf(a) == KeysOf(b) == KeysOf(Exec(Init(ttl, known), es).raw)
            && EachKeyOnce(a) && EachKeyOnce(b)
            && multiset(Filter(Keyless, a)) == multiset(Filter(Keyless, b))
            && |a| == |b|
  {
    BroadcastsAreFirsts(ttl, known, es);
    BroadcastsAreFirsts(ttl, known, fs);
    var s, t := Exec(Init(ttl, known), es), Exec(Init(ttl, known), fs);
    FirstsExact(s.raw);
    FirstsExact(t.raw);
    MergeIsPermutation(s.raw, t.raw);
    PermutationKeys(s.raw, t.raw);
    PermutationKeyless(s.raw, t.raw);
  }

  // ---------------------------------------------------------------------------------------------
  // The worker loop
  // ---------------------------------------------------------------------------------------------

  /** One turn: the evictor may complete a pass at `pass`, then the worker handles `msg` at `now`. */
  datatype Handling = Handling(pass: Option<Instant>, msg: Raw, now: Instant)

  ghost predicate Increasing(hs: seq<Handling>) {
    forall i, j :: 0 <= i < j < |hs| ==> hs[i].now <= hs[j].now
  }

  function RawOf(hs: seq<Handling>): seq<Raw> {
    if hs == [] then [] else RawOf(hs[..|hs| - 1]) + [hs[|hs| - 1].msg]
  }

  /** What a pass leaves of the timestamped map. */
  ghost function Survivors(t: map<DedupKey, Instant>, pass: Option<Instant>, ttl: nat): map<DedupKey, Instant> {
    if pass.None? then t else map k | k in t && Age(pass.value, t[k]) < ttl :: t[k]
  }

  ghost predicate Fresh(t: map<DedupKey, Instant>, m: Raw) {
    !IsPong(m.update) && (ComputeDedupKey(m.update).Some? ==> ComputeDedupKey(m.update).value !in t)
  }

  ghost function Handled(t: map<DedupKey, Instant>, ttl: nat, h: Handling): map<DedupKey, Instant> {
    var u, key := Survivors(t, h.pass, ttl), ComputeDedupKey(h.msg.update);
    if Fresh(u, h.msg) && key.Some? then u[key.value := h.now] else u
  }

  /** The timestamped map after the turns, from the map `t`. */
  ghost function TableAfter(t: map<DedupKey, Instant>, ttl: nat, hs: seq<Handling>): map<DedupKey, Instant> {
    if hs == [] then t else Handled(TableAfter(t, ttl, hs[..|hs| - 1]), ttl, hs[|hs| - 1])
  }

  /** The messages that find no live entry of their key. */
  ghost function Accepted(t: map<DedupKey, Instant>, ttl: nat, hs: seq<Handling>): seq<Raw> {
    if hs == [] then []
    else
      var before, h := hs[..|hs| - 1], hs[|hs| - 1];
      Accepted(t, ttl, before) + (if Fresh(Survivors(TableAfter(t, ttl, before), h.pass, ttl), h.msg) then [h.msg] else [])
  }

  /** Without passes and from an empty cache the accepted messages are the first occurrences. */
  lemma {:induction false} AcceptedAreFirsts(ttl: nat, hs: seq<Handling>)
    requires forall h :: h in hs ==> h.pass.None?
    ensures Accepted(map[], ttl, hs) == Firsts(RawOf(hs))
    ensures TableAfter(map[], ttl, hs).Keys == KeysOf(RawOf(hs))
  {
    if hs != [] {
      var before, h := hs[..|hs| - 1], hs[|hs| - 1];
      AcceptedAreFirsts(ttl, before);
      FirstsSnoc(RawOf(before), h.msg);
      KeysOfSnoc(RawOf(before), h.msg);
    }
  }

  function Get(counts: map<string, nat>, node: string): nat {
    if node in counts then counts[node] else 0
  }

  /** A known region's wins are its share of the broadcasts; wins, dupes and pongs make up all it delivered. */
  ghost predicate Tallied(raw: seq<Raw>, out: seq<Raw>, node: string, wins: nat, dupes: nat) {
    && wins == |Filter(FromNode(node), out)|
    && wins + dupes + |Filter(PongFrom(node), raw)| == |Filter(FromNode(node), raw)|
  }

  lemma TalliedSnoc(raw: seq<Raw>, out: seq<Raw>, node: string, wins: nat, dupes: nat, m: Raw)
    requires Tallied(raw, out, node, wins, dupes)
    ensures IsPong(m.update) || m.node != node ==> Tallied(raw + [m], out, node, wins, dupes)
    ensures m.node != node ==> Tallied(raw + [m], out + [m], node, wins, dupes)
    ensures !IsPong(m.update) && m.node == node ==> Tallied(raw + [m], out, node, wins, dupes + 1)
    ensures !IsPong(m.update) && m.node == node ==> Tallied(raw + [m], out + [m], node, wins + 1, dupes)
  {
    FilterSnoc(FromNode(node), raw, m);
    FilterSnoc(PongFrom(node), raw, m);
    FilterSnoc(FromNode(node), out, m);
  }

  lemma {:induction false} LiveSubset(q: seq<Stamped>, now: Instant, ttl: nat)
    ensures forall s :: s in Live(q, now, ttl) ==> s in q
  {
    if q != [] {
      LiveSubset(q[1..], now, ttl);
    }
  }

  method Evict(pass: Option<Instant>, cache: DedupCache, now: Instant)
    requires cache.Valid() && forall s :: s in cache.fifo ==> s.when <= now
    modifies cache
    ensures cache.Valid() && forall s :: s in cache.fifo ==> s.when <= now
    ensures Table(cache.fifo) == Survivors(old(Table(cache.fifo)), pass, cache.ttl)
  {
    if pass.Some? {
      LiveSubset(cache.fifo, pass.value, cache.ttl);
      cache.EvictExpired(pass.value);
    }
  }

  /** One turn over the cache: is the message to be broadcast? */
  method Handle(h: Handling, cache: DedupCache) returns (isNew: bool)
    requires cache.Valid() && forall s :: s in cache.fifo ==> s.when <= h.now
    modifies cache
    ensures cache.Valid() && forall s :: s in cache.fifo ==> s.when <= h.now
    ensures isNew <==> Fresh(Survivors(old(Table(cache.fifo)), h.pass, cache.ttl), h.msg)
    ensures Table(cache.fifo) == Handled(old(Table(cache.fifo)), cache.ttl, h)
  {
    Evict(h.pass, cache, h.now);
    if IsPong(h.msg.update) {
      return false;
    }
    isNew := true;
    var key := ComputeDedupKey(h.msg.update);
    if key.Some? {
      isNew := cache.CheckAndInsert(key.value, h.now);
    }
  }

  ghost predicate AllTallied(raw: seq<Raw>, out: seq<Raw>, known: set<string>, wins: map<string, nat>, dupes: map<string, nat>) {
    forall node :: node in known ==> Tallied(raw, out, node, Get(wins, node), Get(dupes, node))
  }

  /** Credits the region of a message that was broadcast, or charges it with a duplicate. */
  method Credit(m: Raw, isNew: bool, known: set<string>, wins: map<string, nat>, dupes: map<string, nat>,
                ghost raw: seq<Raw>, ghost out: seq<Raw>)
    returns (wins': map<string, nat>, dupes': map<string, nat>)
    requires AllTallied(raw, out, known, wins, dupes) && (isNew ==> !IsPong(m.update))
    ensures AllTallied(raw + [m], if isNew then out + [m] else out, known, wins', dupes')
  {
    forall node | node in known { TalliedSnoc(raw, out, node, Get(wins, node), Get(dupes, node), m); }
    wins', dupes' := wins, dupes;
    if m.node in known && isNew {
      wins' := wins[m.node := Get(wins, m.node) + 1];
    } else if m.node in known && !IsPong(m.update) {
      dupes' := dupes[m.node := Get(dupes, m.node) + 1];
    }
  }

  /**
   The worker drains the raw channel while the evictor completes passes in between, over a cache that may
   already hold entries. It sends exactly the messages that find no live entry of their key.
   */
  method RunDedupWorker(hs: seq<Handling>, cache: DedupCache, known: set<string>)
    returns (out: seq<Raw>, wins: map<string, nat>, dupes: map<string, nat>)
    requires cache.Valid() && Increasing(hs)
    requires forall s :: s in cache.fifo && hs != [] ==> s.when <= hs[0].now
    modifies cache
    ensures cache.Valid() && Table(cache.fifo) == TableAfter(old(Table(cache.fifo)), cache.ttl, hs)
    ensures out == Accepted(old(Table(cache.fifo)), cache.ttl, hs)
    ensures AllTallied(RawOf(hs), out, known, wins, dupes)
  {
    out, wins, dupes := [], map[], map[];
    for i := 0 to |hs|
      invariant cache.Valid() && Table(cache.fifo) == TableAfter(old(Table(cache.fifo)), cache.ttl, hs[..i])
      invariant out == Accepted(old(Table(cache.fifo)), cache.ttl, hs[..i])
      invariant forall s :: s in cache.fifo && i < |hs| ==> s.when <= hs[i].now
      invariant AllTallied(RawOf(hs[..i]), out, known, wins, dupes)
    {
      assert hs[..i + 1][..i] == hs[..i];
      var isNew := Handle(hs[i], cache);
      wins, dupes := Credit(hs[i].msg, isNew, known, wins, dupes, RawOf(hs[..i]), out);
      if isNew {
        out := out + [hs[i].msg];
      }
    }
    assert hs[..|hs|] == hs;
  }
}
