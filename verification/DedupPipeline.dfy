/**
 The multi-region dedup pipeline at the grain of its atomic steps: one worker that inserts into the
 key set, then stamps the queue, then broadcasts; and one evictor that holds the queue lock while it
 pops an entry and then removes its key. The scheduler is an arbitrary event sequence: an event that
 is not enabled leaves the state unchanged.
 */
module DedupPipeline {
  import opened Prelude
  import opened Geyser
  import opened DedupCache

  datatype Raw = Raw(node: string, update: SubscribeUpdate)

  datatype Worker =
    | Idle
    | Inserted(msg: Raw, key: DedupKey)                               // key set updated, queue not yet
    | Sending(msg: Raw, tag: Option<DedupKey>, accepted: Instant)     // accepted, not yet broadcast

  datatype Evictor =
    | Resting
    | Locked                                                          // queue locked, clock not read yet
    | Scanning(now: Instant)
    | Popped(now: Instant, victim: Stamped)                           // popped, key not yet removed

  datatype Broadcast = Broadcast(msg: Raw, key: Option<DedupKey>, accepted: Instant, at: Instant)
  datatype Suppression = Suppression(key: DedupKey, sentBefore: nat, lastPass: Option<Instant>)
  datatype Pass = Pass(now: Instant, before: seq<Stamped>, after: seq<Stamped>)

  datatype State = State(
    ttl: nat,
    clock: Instant,
    seen: set<DedupKey>,
    fifo: seq<Stamped>,
    worker: Worker,
    evictor: Evictor,
    known: set<string>,        // node ids the worker can attribute a message to
    received: nat, pongs: nat, wins: nat, dupes: nat,
    // history
    raw: seq<Raw>,
    sent: seq<Broadcast>,
    suppressed: seq<Suppression>,
    passes: seq<Pass>,
    before: seq<Stamped>)      // the queue when the current pass took the lock

  datatype Event =
    | Tick(delta: nat)
    | Receive(msg: Raw) | Push | Send
    | Lock | ReadClock | Pop | Remove | Unlock

  function Init(ttl: nat, known: set<string>): State {
    State(ttl, 0, {}, [], Idle, Resting, known, 0, 0, 0, 0, [], [], [], [], [])
  }

  function LastPass(s: State): Option<Instant> {
    if s.passes == [] then None else Some(s.passes[|s.passes| - 1].now)
  }

  function Credit(s: State, node: string): nat {
    if node in s.known then 1 else 0
  }

  function OnReceive(s: State, m: Raw): State {
    var s := s.(received := s.received + 1, raw := s.raw + [m]);
    if IsPong(m.update) then s.(pongs := s.pongs + 1)
    else match ComputeDedupKey(m.update)
      case None => s.(wins := s.wins + Credit(s, m.node), worker := Sending(m, None, s.clock))
      case Some(k) =>
        if k in s.seen then
          s.(dupes := s.dupes + Credit(s, m.node),
             suppressed := s.suppressed + [Suppression(k, |s.sent|, LastPass(s))])
        else
          s.(seen := s.seen + {k}, worker := Inserted(m, k))
  }

  function WorkerNext(s: State, e: Event): State {
    match e
    case Receive(m) => if s.worker.Idle? then OnReceive(s, m) else s
    case Push =>
      if s.worker.Inserted? && s.evictor.Resting? then
        s.(fifo := s.fifo + [Stamped(s.worker.key, s.clock)],
           wins := s.wins + Credit(s, s.worker.msg.node),
           worker := Sending(s.worker.msg, Some(s.worker.key), s.clock))
      else s
    case Send =>
      if s.worker.Sending? then
        s.(sent := s.sent + [Broadcast(s.worker.msg, s.worker.tag, s.worker.accepted, s.clock)],
           worker := Idle)
      else s
    case _ => s
  }

  function EvictorNext(s: State, e: Event): State {
    match e
    case Lock => if s.evictor.Resting? then s.(evictor := Locked, before := s.fifo) else s
    case ReadClock => if s.evictor.Locked? then s.(evictor := Scanning(s.clock)) else s
    case Pop =>
      if s.evictor.Scanning? && s.fifo != [] && Expired(s.fifo[0], s.evictor.now, s.ttl) then
        s.(evictor := Popped(s.evictor.now, s.fifo[0]), fifo := s.fifo[1..])
      else s
    case Remove =>
      if s.evictor.Popped? then
        s.(seen := s.seen - {s.evictor.victim.key}, evictor := Scanning(s.evictor.now))
      else s
    case Unlock =>
      if s.evictor.Scanning? && (s.fifo == [] || !Expired(s.fifo[0], s.evictor.now, s.ttl)) then
        s.(evictor := Resting, passes := s.passes + [Pass(s.evictor.now, s.before, s.fifo)])
      else s
    case _ => s
  }

  function Next(s: State, e: Event): State {
    match e
    case Tick(d) => s.(clock := s.clock + d)
    case Receive(_) => WorkerNext(s, e)
    case Push => WorkerNext(s, e)
    case Send => WorkerNext(s, e)
    case _ => EvictorNext(s, e)
  }

  function Exec(s: State, es: seq<Event>): State {
    if es == [] then s else Next(Exec(s, es[..|es| - 1]), es[|es| - 1])
  }

  // ---------------------------------------------------------------------------------------------
  // Invariants
  // ---------------------------------------------------------------------------------------------

  /** The key the worker has put in `seen` but not yet in the queue. */
  function Pending(s: State): set<DedupKey> {
    if s.worker.Inserted? then {s.worker.key} else {}
  }

  /** The key the evictor has popped from the queue but not yet removed from `seen`. */
  function Victim(s: State): set<DedupKey> {
    if s.evictor.Popped? then {s.evictor.victim.key} else {}
  }

  predicate Cached(s: State, x: Stamped) {
    x in s.fifo || (s.evictor.Popped? && x == s.evictor.victim)
  }

  /** `seen` is the queue's keys plus at most one key on each side, and the queue is sorted and distinct. */
  ghost predicate CacheInv(s: State) {
    && s.seen == Keys(s.fifo) + Pending(s) + Victim(s)
    && Keys(s.fifo) !! Pending(s) && Keys(s.fifo) !! Victim(s) && Pending(s) !! Victim(s)
    && DistinctKeys(s.fifo)
    && Sorted(s.fifo)
    && (forall x :: x in s.fifo ==> x.when <= s.clock)
    && (s.worker.Sending? ==> s.worker.accepted <= s.clock)
    && (s.evictor.Scanning? || s.evictor.Popped? ==> s.evictor.now <= s.clock)
    && (s.evictor.Popped? ==> s.evictor.victim.when <= s.clock)
  }

  /** How far the current pass has come: an expired prefix of `before` is gone, nothing else. */
  ghost predicate PassInv(s: State) {
    && Sorted(s.before)
    && (s.evictor.Locked? ==> s.fifo == s.before)
    && (s.evictor.Scanning? || s.evictor.Popped? ==> Scanned(s))
  }

  /** Every completed pass removed exactly what a full scan at its instant removes. */
  ghost predicate PassesInv(s: State) {
    forall p :: p in s.passes ==> p.after == Live(p.before, p.now, s.ttl) && p.now <= s.clock
  }

  ghost predicate Scanned(s: State)
    requires s.evictor.Scanning? || s.evictor.Popped?
  {
    var n := |s.before| - |s.fifo|;
    && 0 <= n
    && s.fifo == s.before[n..]
    && (forall i :: 0 <= i < n ==> Expired(s.before[i], s.evictor.now, s.ttl))
    && (s.evictor.Popped? ==> n > 0 && s.evictor.victim == s.before[n - 1])
  }

  /** Accepted less than ttl before the pass, or not before it at all. */
  predicate SurvivesPass(accepted: Instant, pass: Option<Instant>, ttl: nat) {
    pass.Some? ==> pass.value - accepted < ttl || accepted >= pass.value
  }

  ghost predicate Backed(s: State, x: Stamped) {
    || (s.worker.Sending? && s.worker.tag == Some(x.key) && s.worker.accepted == x.when)
    || exists i :: 0 <= i < |s.sent| && s.sent[i].key == Some(x.key) && s.sent[i].accepted == x.when
  }

  /** An acceptance that is no longer in the cache lies at least ttl in the past. */
  ghost predicate Remembered(s: State, k: DedupKey, accepted: Instant) {
    accepted + s.ttl <= s.clock || Cached(s, Stamped(k, accepted))
  }

  ghost predicate Justified(s: State, d: Suppression) {
    exists i :: 0 <= i < d.sentBefore <= |s.sent| && s.sent[i].key == Some(d.key)
                && SurvivesPass(s.sent[i].accepted, d.lastPass, s.ttl)
  }

  ghost predicate Spaced(sent: seq<Broadcast>, ttl: nat) {
    forall i, j :: 0 <= i < j < |sent| && sent[i].key.Some? && sent[i].key == sent[j].key ==>
      sent[i].accepted + ttl <= sent[j].accepted
  }

  ghost predicate Timed(s: State) {
    forall i :: 0 <= i < |s.sent| ==> s.sent[i].accepted <= s.sent[i].at <= s.clock
  }

  /** Every cached entry stands for an acceptance, and survived the last completed pass. */
  ghost predicate BackedInv(s: State) {
    forall x :: Cached(s, x) ==> Backed(s, x) && SurvivesPass(x.when, LastPass(s), s.ttl)
  }

  ghost predicate MemoryInv(s: State) {
    && (forall i :: 0 <= i < |s.sent| && s.sent[i].key.Some? ==>
          Remembered(s, s.sent[i].key.value, s.sent[i].accepted))
    && (s.worker.Sending? && s.worker.tag.Some? ==>
          Remembered(s, s.worker.tag.value, s.worker.accepted))
  }

  ghost predicate SpacingInv(s: State) {
    && (forall i :: 0 <= i < |s.sent| && s.sent[i].key.Some? ==>
          && (s.worker.Inserted? && s.worker.key == s.sent[i].key.value ==>
                s.sent[i].accepted + s.ttl <= s.clock)
          && (s.worker.Sending? && s.worker.tag == s.sent[i].key ==>
                s.sent[i].accepted + s.ttl <= s.worker.accepted))
    && Spaced(s.sent, s.ttl)
    && Timed(s)
  }

  ghost predicate SuppressedInv(s: State) {
    forall d :: d in s.suppressed ==> Justified(s, d)
  }

  function PongsIn(raw: seq<Raw>): nat {
    if raw == [] then 0 else PongsIn(raw[..|raw| - 1]) + (if IsPong(raw[|raw| - 1].update) then 1 else 0)
  }

  /** The messages other than pongs that came from a node the worker knows. */
  function Creditable(raw: seq<Raw>, known: set<string>): nat {
    if raw == [] then 0
    else
      var m := raw[|raw| - 1];
      Creditable(raw[..|raw| - 1], known) + (if !IsPong(m.update) && m.node in known then 1 else 0)
  }

  ghost predicate CountInv(s: State) {
    && s.received == |s.raw| && s.pongs == PongsIn(s.raw)
    && s.wins + s.dupes + (if s.worker.Inserted? then Credit(s, s.worker.msg.node) else 0) == Creditable(s.raw, s.known)
    && ((forall m :: m in s.raw ==> m.node in s.known) ==>
          && (s.worker.Inserted? ==> s.worker.msg.node in s.known)
          && s.received == s.pongs + s.wins + s.dupes + (if s.worker.Inserted? then 1 else 0)
          && s.wins == |s.sent| + (if s.worker.Sending? then 1 else 0) && s.dupes == |s.suppressed|)
  }

  lemma CachePush(s: State)
    requires CacheInv(s) && s.worker.Inserted? && s.evictor.Resting?
    ensures CacheInv(WorkerNext(s, Push))
  {
    KeysAppend(s.fifo, Stamped(s.worker.key, s.clock));
  }

  lemma CachePop(s: State)
    requires CacheInv(s) && s.evictor.Scanning? && s.fifo != []
    requires Expired(s.fifo[0], s.evictor.now, s.ttl)
    ensures CacheInv(EvictorNext(s, Pop))
  {
    KeysFront(s.fifo);
  }

  lemma CacheStep(s: State, e: Event)
    requires CacheInv(s)
    ensures CacheInv(Next(s, e))
  {
    match e
    case Push => if s.worker.Inserted? && s.evictor.Resting? { CachePush(s); }
    case Pop =>
      if s.evictor.Scanning? && s.fifo != [] && Expired(s.fifo[0], s.evictor.now, s.ttl) { CachePop(s); }
    case _ =>
  }

  lemma PassPop(s: State)
    requires PassInv(s) && s.evictor.Scanning? && s.fifo != []
    requires Expired(s.fifo[0], s.evictor.now, s.ttl)
    ensures PassInv(EvictorNext(s, Pop))
  {
    var n := |s.before| - |s.fifo|;
    assert s.fifo[0] == s.before[n] && s.fifo[1..] == s.before[n + 1..];
  }

  lemma PassStep(s: State, e: Event)
    requires Sorted(s.fifo) && PassInv(s)
    ensures PassInv(Next(s, e))
  {
    match e
    case Tick(_) => PassFrame(s, Next(s, e));
    case Receive(m) => PassReceive(s, m);
    case Push => PassPush(s);
    case Send => PassFrame(s, Next(s, e));
    case _ => PassEvictor(s, e);
  }

  lemma PassReceive(s: State, m: Raw)
    requires PassInv(s)
    ensures PassInv(WorkerNext(s, Receive(m)))
  {
    PassFrame(s, WorkerNext(s, Receive(m)));
  }

  lemma PassEvictor(s: State, e: Event)
    requires Sorted(s.fifo) && PassInv(s)
    ensures PassInv(EvictorNext(s, e))
  {
    match e
    case Pop =>
      if s.evictor.Scanning? && s.fifo != [] && Expired(s.fifo[0], s.evictor.now, s.ttl) { PassPop(s); }
    case Remove => PassRemove(s);
    case Lock => PassLock(s);
    case ReadClock => PassReadClock(s);
    case Unlock => PassUnlock(s);
    case _ =>
  }

  lemma PassFrame(s: State, t: State)
    requires PassInv(s) && t.fifo == s.fifo && t.before == s.before && t.evictor == s.evictor && t.ttl == s.ttl
    ensures PassInv(t)
  {
  }

  lemma PassPush(s: State)
    requires PassInv(s)
    ensures PassInv(WorkerNext(s, Push))
  {
  }

  lemma PassLock(s: State)
    requires Sorted(s.fifo) && PassInv(s)
    ensures PassInv(EvictorNext(s, Lock))
  {
  }

  lemma PassReadClock(s: State)
    requires PassInv(s)
    ensures PassInv(EvictorNext(s, ReadClock))
  {
  }

  lemma PassUnlock(s: State)
    requires PassInv(s)
    ensures PassInv(EvictorNext(s, Unlock))
  {
  }

  lemma PassRemove(s: State)
    requires PassInv(s)
    ensures PassInv(EvictorNext(s, Remove))
  {
  }

  lemma PassesStep(s: State, e: Event)
    requires PassInv(s) && PassesInv(s)
    requires s.evictor.Scanning? ==> s.evictor.now <= s.clock
    ensures PassesInv(Next(s, e))
  {
    var t := Next(s, e);
    forall p | p in t.passes ensures p.after == Live(p.before, p.now, t.ttl) && p.now <= t.clock {
      if p !in s.passes {
        assert p == Pass(s.evictor.now, s.before, s.fifo);
        FrontScanIsFullScan(s.before, |s.before| - |s.fifo|, s.evictor.now, s.ttl);
      }
    }
  }

  /** Cached entries keep their backing while the broadcast history only grows. */
  lemma BackedStep(s: State, e: Event)
    requires CacheInv(s) && PassesInv(s) && BackedInv(s)
    ensures BackedInv(Next(s, e))
  {
    var t := Next(s, e);
    forall x | Cached(t, x) ensures Backed(t, x) && SurvivesPass(x.when, LastPass(t), t.ttl) {
      if Cached(s, x) {
        BackedStays(s, e, x);
        SurvivesStays(s, e, x);
      } else {
        assert e.Push? && x == Stamped(s.worker.key, s.clock);
      }
    }
  }

  lemma SurvivesStays(s: State, e: Event, x: Stamped)
    requires CacheInv(s) && Cached(s, x) && SurvivesPass(x.when, LastPass(s), s.ttl)
    ensures SurvivesPass(x.when, LastPass(Next(s, e)), s.ttl)
  {
    if e.Unlock? && s.evictor.Scanning? && x in s.fifo {
      var i :| 0 <= i < |s.fifo| && s.fifo[i] == x;
      assert s.fifo[0].when <= s.fifo[i].when;
    }
  }

  lemma BackedStays(s: State, e: Event, x: Stamped)
    requires Backed(s, x)
    ensures Backed(Next(s, e), x)
  {
    var t := Next(s, e);
    if i :| 0 <= i < |s.sent| && s.sent[i].key == Some(x.key) && s.sent[i].accepted == x.when {
      assert t.sent[i] == s.sent[i];
    } else if e.Send? {
      assert t.sent[|s.sent|].key == Some(x.key);
    }
  }

  lemma RememberedStays(s: State, e: Event, k: DedupKey, accepted: Instant)
    requires CacheInv(s) && PassInv(s) && Remembered(s, k, accepted)
    ensures Remembered(Next(s, e), k, accepted)
  {
    match e
    case Pop => RememberedPop(s, k, accepted);
    case Remove => RememberedRemove(s, k, accepted);
    case Push => RememberedPush(s, k, accepted);
    case _ => RememberedQuiet(s, e, k, accepted);
  }

  lemma RememberedFrame(s: State, t: State, k: DedupKey, accepted: Instant)
    requires Remembered(s, k, accepted) && t.fifo == s.fifo && t.clock >= s.clock && t.ttl == s.ttl
    requires s.evictor.Popped? ==> t.evictor == s.evictor
    ensures Remembered(t, k, accepted)
  {
  }

  lemma RememberedQuiet(s: State, e: Event, k: DedupKey, accepted: Instant)
    requires Remembered(s, k, accepted) && !e.Pop? && !e.Remove? && !e.Push?
    ensures Remembered(Next(s, e), k, accepted)
  {
    RememberedFrame(s, Next(s, e), k, accepted);
  }

  lemma RememberedPop(s: State, k: DedupKey, accepted: Instant)
    requires Remembered(s, k, accepted)
    ensures Remembered(EvictorNext(s, Pop), k, accepted)
  {
    if s.fifo != [] {
      assert s.fifo == [s.fifo[0]] + s.fifo[1..];
    }
  }

  lemma RememberedRemove(s: State, k: DedupKey, accepted: Instant)
    requires CacheInv(s) && PassInv(s) && Remembered(s, k, accepted)
    ensures Remembered(EvictorNext(s, Remove), k, accepted)
  {
    if s.evictor.Popped? {
      var n := |s.before| - |s.fifo|;
      assert Expired(s.before[n - 1], s.evictor.now, s.ttl);
    }
  }

  lemma RememberedPush(s: State, k: DedupKey, accepted: Instant)
    requires Remembered(s, k, accepted)
    ensures Remembered(WorkerNext(s, Push), k, accepted)
  {
  }

  lemma MemoryStep(s: State, e: Event)
    requires CacheInv(s) && PassInv(s) && MemoryInv(s)
    ensures MemoryInv(Next(s, e))
  {
    var t := Next(s, e);
    forall i | 0 <= i < |t.sent| && t.sent[i].key.Some?
      ensures Remembered(t, t.sent[i].key.value, t.sent[i].accepted)
    {
      if i < |s.sent| {
        assert t.sent[i] == s.sent[i];
        RememberedStays(s, e, t.sent[i].key.value, t.sent[i].accepted);
      }
    }
    if s.worker.Sending? && s.worker.tag.Some? {
      RememberedStays(s, e, s.worker.tag.value, s.worker.accepted);
    }
  }

  lemma SpacingStep(s: State, e: Event)
    requires CacheInv(s) && MemoryInv(s) && SpacingInv(s)
    ensures SpacingInv(Next(s, e))
  {
  }

  lemma SuppressedStep(s: State, e: Event)
    requires CacheInv(s) && BackedInv(s) && SuppressedInv(s)
    ensures SuppressedInv(Next(s, e))
  {
    var t := Next(s, e);
    forall d | d in t.suppressed ensures Justified(t, d) {
      if d in s.suppressed {
        var i :| 0 <= i < d.sentBefore <= |s.sent| && s.sent[i].key == Some(d.key)
                 && SurvivesPass(s.sent[i].accepted, d.lastPass, s.ttl);
        assert t.sent[i] == s.sent[i];
      } else {
        var x :| Cached(s, x) && x.key == d.key;
        assert Backed(s, x);
      }
    }
  }

  ghost predicate Inv(s: State) {
    CacheInv(s) && PassInv(s) && PassesInv(s) && BackedInv(s) && MemoryInv(s) && SpacingInv(s) && SuppressedInv(s) && CountInv(s)
  }

  lemma CountStep(s: State, e: Event)
    requires CountInv(s)
    ensures CountInv(Next(s, e))
  {
    if e.Receive? && s.worker.Idle? {
      CountReceive(s, e.msg);
    }
  }

  lemma CountReceive(s: State, m: Raw)
    requires CountInv(s) && s.worker.Idle?
    ensures CountInv(OnReceive(s, m))
  {
    var t := OnReceive(s, m);
    TallySnoc(s.raw, m, s.known);
    assert t.raw == s.raw + [m] && t.known == s.known;
  }

  lemma TallySnoc(raw: seq<Raw>, m: Raw, known: set<string>)
    ensures PongsIn(raw + [m]) == PongsIn(raw) + (if IsPong(m.update) then 1 else 0)
    ensures Creditable(raw + [m], known) == Creditable(raw, known) + (if !IsPong(m.update) && m.node in known then 1 else 0)
    ensures (forall x :: x in raw + [m] ==> x.node in known) <==> m.node in known && forall x :: x in raw ==> x.node in known
  {
    assert (raw + [m])[..|raw|] == raw;
    assert m in raw + [m] && forall x :: x in raw ==> x in raw + [m];
  }

  lemma InvStep(s: State, e: Event)
    requires Inv(s)
    ensures Inv(Next(s, e))
  {
    assert CacheInv(Next(s, e)) by { CacheStep(s, e); }
    assert PassInv(Next(s, e)) by { PassStep(s, e); }
    assert PassesInv(Next(s, e)) by { PassesStep(s, e); }
    assert BackedInv(Next(s, e)) by { BackedStep(s, e); }
    assert MemoryInv(Next(s, e)) by { MemoryStep(s, e); }
    assert SpacingInv(Next(s, e)) by { SpacingStep(s, e); }
    assert SuppressedInv(Next(s, e)) by { SuppressedStep(s, e); }
    assert CountInv(Next(s, e)) by { CountStep(s, e); }
  }

  lemma SettingsStep(s: State, e: Event)
    ensures Next(s, e).ttl == s.ttl && Next(s, e).known == s.known
  {
  }

  lemma InitInv(ttl: nat, known: set<string>)
    ensures Inv(Init(ttl, known))
  {
  }

  /** Every reachable state satisfies every invariant. */
  lemma {:induction false} RunInv(ttl: nat, known: set<string>, es: seq<Event>)
    ensures Inv(Exec(Init(ttl, known), es))
    ensures Exec(Init(ttl, known), es).ttl == ttl && Exec(Init(ttl, known), es).known == known
  {
    if es == [] {
      InitInv(ttl, known);
    } else {
      RunInv(ttl, known, es[..|es| - 1]);
      var s, e := Exec(Init(ttl, known), es[..|es| - 1]), es[|es| - 1];
      assert Inv(Next(s, e)) by { InvStep(s, e); }
      SettingsStep(s, e);
    }
  }

  // ---------------------------------------------------------------------------------------------
  // What every run keeps
  // ---------------------------------------------------------------------------------------------

  /**
   Two acceptances of one key are at least ttl apart, so the second broadcast comes at least ttl after
   the first acceptance; the broadcasts themselves are at least ttl apart less the time the worker
   took between accepting and broadcasting the first.
   */
  lemma DedupSafety(ttl: nat, known: set<string>, es: seq<Event>, i: nat, j: nat)
    requires var sent := Exec(Init(ttl, known), es).sent;
             i < j < |sent| && sent[i].key.Some? && sent[i].key == sent[j].key
    ensures var sent := Exec(Init(ttl, known), es).sent;
            && sent[j].accepted - sent[i].accepted >= ttl
            && sent[j].at - sent[i].accepted >= ttl
            && sent[j].at - sent[i].at >= ttl - (sent[i].at - sent[i].accepted)
  {
    RunInv(ttl, known, es);
  }

  /** Every suppressed message repeats a key that was broadcast and has not outlived the last pass. */
  lemma SuppressionJustified(ttl: nat, known: set<string>, es: seq<Event>, d: Suppression)
    requires d in Exec(Init(ttl, known), es).suppressed
    ensures var sent := Exec(Init(ttl, known), es).sent;
            exists i :: 0 <= i < d.sentBefore <= |sent| && sent[i].key == Some(d.key)
                        && SurvivesPass(sent[i].accepted, d.lastPass, ttl)
  {
    RunInv(ttl, known, es);
  }

  /** The two-structure cache at every atomic step. */
  lemma CacheRefinement(ttl: nat, known: set<string>, es: seq<Event>)
    ensures var s := Exec(Init(ttl, known), es);
            && s.seen == Keys(s.fifo) + Pending(s) + Victim(s)
            && Keys(s.fifo) !! Pending(s) && Keys(s.fifo) !! Victim(s) && Pending(s) !! Victim(s)
            && DistinctKeys(s.fifo) && Sorted(s.fifo)
            && (s.worker.Idle? && s.evictor.Resting? ==> s.seen == Table(s.fifo).Keys)
            && forall p :: p in s.passes ==> p.after == Live(p.before, p.now, ttl)
  {
    RunInv(ttl, known, es);
    TableKeys(Exec(Init(ttl, known), es).fifo);
  }

  /** Whatever the nodes: wins and dupes together are exactly the messages, pongs aside, of the nodes the worker knows. */
  lemma KnownNodesCounted(ttl: nat, known: set<string>, es: seq<Event>)
    requires !Exec(Init(ttl, known), es).worker.Inserted?
    ensures var s := Exec(Init(ttl, known), es);
            s.received == |s.raw| && s.pongs == PongsIn(s.raw) && s.wins + s.dupes == Creditable(s.raw, known)
  {
    RunInv(ttl, known, es);
  }

  /** Between messages, every message received was a pong, a win that was or is being broadcast, or a suppressed dupe. */
  lemma EveryMessageCounted(ttl: nat, known: set<string>, es: seq<Event>)
    requires var s := Exec(Init(ttl, known), es);
             !s.worker.Inserted? && forall m :: m in s.raw ==> m.node in known
    ensures var s := Exec(Init(ttl, known), es);
            && s.received == |s.raw| == s.pongs + s.wins + s.dupes
            && s.pongs == PongsIn(s.raw) && s.dupes == |s.suppressed|
            && s.wins == |s.sent| + (if s.worker.Sending? then 1 else 0)
  {
    RunInv(ttl, known, es);
  }

  /** A broadcast is recorded under its own key. */
  ghost predicate Labelled(s: State) {
    && (forall i :: 0 <= i < |s.sent| ==> s.sent[i].key == ComputeDedupKey(s.sent[i].msg.update))
    && (s.worker.Inserted? ==> ComputeDedupKey(s.worker.msg.update) == Some(s.worker.key))
    && (s.worker.Sending? ==> s.worker.tag == ComputeDedupKey(s.worker.msg.update))
  }

  lemma LabelledStep(s: State, e: Event)
    requires Labelled(s)
    ensures Labelled(Next(s, e))
  {
  }

  lemma {:induction false} LabelledRun(ttl: nat, known: set<string>, es: seq<Event>)
    ensures Labelled(Exec(Init(ttl, known), es))
  {
    if es != [] {
      LabelledRun(ttl, known, es[..|es| - 1]);
      LabelledStep(Exec(Init(ttl, known), es[..|es| - 1]), es[|es| - 1]);
    }
  }

  /** The message was broadcast or is in flight, or another message of its key was or is. */
  ghost predicate Accounted(s: State, m: Raw) {
    || IsPong(m.update)
    || (!s.worker.Idle? && Covers(s.worker.msg, m))
    || exists i :: 0 <= i < |s.sent| && Covers(s.sent[i].msg, m)
  }

  ghost predicate Covers(other: Raw, m: Raw) {
    other == m || (ComputeDedupKey(m.update).Some? && ComputeDedupKey(other.update) == ComputeDedupKey(m.update))
  }

  lemma AccountedStays(s: State, e: Event, m: Raw)
    requires Accounted(s, m)
    ensures Accounted(Next(s, e), m)
  {
    var t := Next(s, e);
    if i :| 0 <= i < |s.sent| && Covers(s.sent[i].msg, m) {
      assert t.sent[i] == s.sent[i];
    } else if e.Send? && s.worker.Sending? {
      assert t.sent[|s.sent|].msg == s.worker.msg;
    }
  }

  /** A message that finds its key in the set finds it because some message of that key was broadcast. */
  lemma AccountedOnReceive(s: State, m: Raw)
    requires CacheInv(s) && BackedInv(s) && Labelled(s) && s.worker.Idle?
    ensures Accounted(OnReceive(s, m), m)
  {
    var key := ComputeDedupKey(m.update);
    if !IsPong(m.update) && key.Some? && key.value in s.seen {
      var x :| Cached(s, x) && x.key == key.value;
      assert Backed(s, x);
      var i :| 0 <= i < |s.sent| && s.sent[i].key == Some(x.key) && s.sent[i].accepted == x.when;
      assert Covers(OnReceive(s, m).sent[i].msg, m);
    }
  }

  /** In every run, evictions included, no message is dropped unless its key was broadcast or is about to be. */
  lemma {:induction false} NothingUnaccounted(ttl: nat, known: set<string>, es: seq<Event>, m: Raw)
    requires m in Exec(Init(ttl, known), es).raw
    ensures Accounted(Exec(Init(ttl, known), es), m)
  {
    var n := |es| - 1;
    var s, e := Exec(Init(ttl, known), es[..n]), es[n];
    if m in s.raw {
      NothingUnaccounted(ttl, known, es[..n], m);
      AccountedStays(s, e, m);
    } else {
      RunInv(ttl, known, es[..n]);
      LabelledRun(ttl, known, es[..n]);
      AccountedAtOnce(s, e, m);
    }
  }

  lemma NewIsReceived(s: State, e: Event, m: Raw)
    requires m in Next(s, e).raw && m !in s.raw
    ensures e == Receive(m) && s.worker.Idle?
  {
  }

  lemma AccountedAtOnce(s: State, e: Event, m: Raw)
    requires CacheInv(s) && BackedInv(s) && Labelled(s) && m in Next(s, e).raw && m !in s.raw
    ensures Accounted(Next(s, e), m)
  {
    NewIsReceived(s, e, m);
    AccountedOnReceive(s, m);
  }

  ghost predicate Reaches(s: State, t: State) {
    exists es :: Exec(s, es) == t
  }

  lemma Advance(s: State, t: State, e: Event)
    requires Reaches(s, t)
    ensures Reaches(s, Next(t, e))
  {
    var es :| Exec(s, es) == t;
    assert (es + [e])[..|es + [e]| - 1] == es;
    assert Exec(s, es + [e]) == Next(t, e);
  }

  /** Both tasks at rest, with this clock, queue, key set and broadcast history. */
  ghost predicate Quiet(s: State, ttl: nat, clock: Instant, fifo: seq<Stamped>, sent: seq<Broadcast>) {
    && s.worker.Idle? && s.evictor.Resting? && s.ttl == ttl && s.clock == clock
    && s.fifo == fifo && s.seen == Keys(fifo) && s.sent == sent
  }

  ghost predicate CanReach(s0: State, clock: Instant, fifo: seq<Stamped>, sent: seq<Broadcast>) {
    exists s :: Reaches(s0, s) && Quiet(s, s0.ttl, clock, fifo, sent)
  }

  /** Accept `m` into an empty cache and broadcast it `stall` later. */
  lemma AcceptThenStall(s0: State, clock: Instant, sent: seq<Broadcast>, m: Raw, stall: nat)
    requires CanReach(s0, clock, [], sent) && ComputeDedupKey(m.update).Some?
    ensures var k := ComputeDedupKey(m.update).value;
            CanReach(s0, clock + stall, [Stamped(k, clock)], sent + [Broadcast(m, Some(k), clock, clock + stall)])
  {
    var s :| Reaches(s0, s) && Quiet(s, s0.ttl, clock, [], sent);
    var a := Next(s, Receive(m));
    Advance(s0, s, Receive(m));
    var b := Next(a, Push);
    Advance(s0, a, Push);
    var c := Next(b, Tick(stall));
    Advance(s0, b, Tick(stall));
    Advance(s0, c, Send);
    var k := ComputeDedupKey(m.update).value;
    assert Quiet(Next(c, Send), s0.ttl, clock + stall, [Stamped(k, clock)],
                 sent + [Broadcast(m, Some(k), clock, clock + stall)]);
  }

  lemma PopOnly(s0: State, s: State, x: Stamped) returns (t: State)
    requires Reaches(s0, s) && s.worker.Idle? && s.evictor.Resting? && s.fifo == [x] && Expired(x, s.clock, s.ttl)
    ensures Reaches(s0, t)
    ensures t == s.(evictor := Popped(s.clock, x), fifo := [], before := s.fifo)
  {
    Advance(s0, s, Lock);
    t := Next(s, Lock);
    Advance(s0, t, ReadClock);
    t := Next(t, ReadClock);
    Advance(s0, t, Pop);
    t := Next(t, Pop);
  }

  /** An eviction pass over a queue whose only entry has just expired. */
  lemma EvictOnly(s0: State, clock: Instant, x: Stamped, sent: seq<Broadcast>, wait: nat)
    requires CanReach(s0, clock, [x], sent) && Expired(x, clock + wait, s0.ttl)
    ensures CanReach(s0, clock + wait, [], sent)
  {
    var s :| Reaches(s0, s) && Quiet(s, s0.ttl, clock, [x], sent);
    Advance(s0, s, Tick(wait));
    var t := PopOnly(s0, Next(s, Tick(wait)), x);
    Advance(s0, t, Remove);
    t := Next(t, Remove);
    Advance(s0, t, Unlock);
    assert Quiet(Next(t, Unlock), s0.ttl, clock + wait, [], sent);
  }

  /**
   The bound of DedupSafety is attained for every stall: a worker that takes `stall` between accepting
   and broadcasting lets two broadcasts of one key come only ttl - stall apart.
   */
  lemma StalledWorkerGap(ttl: nat, stall: nat, m: Raw)
    requires stall <= ttl && ComputeDedupKey(m.update).Some?
    ensures exists es :: var sent := Exec(Init(ttl, {}), es).sent;
              && |sent| == 2 && sent[0].key == sent[1].key == ComputeDedupKey(m.update)
              && sent[0].at - sent[0].accepted == stall
              && sent[1].at - sent[0].at == ttl - stall
  {
    var s0 := Init(ttl, {});
    var k := ComputeDedupKey(m.update).value;
    assert Exec(s0, []) == s0 && Reaches(s0, s0) && Quiet(s0, ttl, 0, [], []);
    AcceptThenStall(s0, 0, [], m, stall);
    var sent := [Broadcast(m, Some(k), 0, stall)];
    assert [] + sent == sent;
    EvictOnly(s0, stall, Stamped(k, 0), sent, ttl - stall);
    AcceptThenStall(s0, ttl, sent, m, 0);
    var s :| Reaches(s0, s) && s.sent == sent + [Broadcast(m, Some(k), ttl, ttl)];
    var es :| Exec(s0, es) == s;
  }
}
