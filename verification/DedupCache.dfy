/** The dedup cache: a key set beside a time-ordered queue, agreeing with a simple timestamped map. */
module DedupCache {
  import opened Geyser

  type Instant = nat

  datatype Stamped = Stamped(key: DedupKey, when: Instant)

  /** Saturating, as Instant::duration_since is. */
  function Age(now: Instant, when: Instant): nat {
    if now >= when then now - when else 0
  }

  predicate Expired(s: Stamped, now: Instant, ttl: nat) {
    Age(now, s.when) >= ttl
  }

  function Keys(q: seq<Stamped>): set<DedupKey> {
    set s | s in q :: s.key
  }

  ghost predicate Sorted(q: seq<Stamped>) {
    forall i, j :: 0 <= i < j < |q| ==> q[i].when <= q[j].when
  }

  ghost predicate DistinctKeys(q: seq<Stamped>) {
    forall i, j :: 0 <= i < j < |q| ==> q[i].key != q[j].key
  }

  /** The reference meaning of a queue: which key was accepted when. */
  ghost function Table(q: seq<Stamped>): map<DedupKey, Instant> {
    if q == [] then map[] else Table(q[1..])[q[0].key := q[0].when]
  }

  /** A full scan: every expired entry goes, wherever it sits. */
  function Live(q: seq<Stamped>, now: Instant, ttl: nat): seq<Stamped> {
    if q == [] then []
    else if Expired(q[0], now, ttl) then Live(q[1..], now, ttl)
    else [q[0]] + Live(q[1..], now, ttl)
  }

  lemma KeysAppend(q: seq<Stamped>, s: Stamped)
    ensures Keys(q + [s]) == Keys(q) + {s.key}
  {
    assert s in q + [s];
  }

  lemma KeysFront(q: seq<Stamped>)
    requires q != [] && DistinctKeys(q)
    ensures Keys(q[1..]) == Keys(q) - {q[0].key}
  {
    assert q == [q[0]] + q[1..];
  }

  lemma {:induction false} TableKeys(q: seq<Stamped>)
    ensures Table(q).Keys == Keys(q)
  {
    if q != [] {
      TableKeys(q[1..]);
      assert q == [q[0]] + q[1..];
    }
  }

  lemma {:induction false} TableAppend(q: seq<Stamped>, s: Stamped)
    requires s.key !in Keys(q)
    ensures Table(q + [s]) == Table(q)[s.key := s.when]
  {
    if q != [] {
      assert q == [q[0]] + q[1..];
      assert (q + [s])[1..] == q[1..] + [s];
      TableAppend(q[1..], s);
    }
  }

  lemma {:induction false} LiveOfUnexpired(q: seq<Stamped>, now: Instant, ttl: nat)
    requires forall s :: s in q ==> !Expired(s, now, ttl)
    ensures Live(q, now, ttl) == q
  {
    if q != [] {
      LiveOfUnexpired(q[1..], now, ttl);
    }
  }

  /** In a time-sorted queue the scan may stop at the first entry that is not expired. */
  lemma {:induction false} FrontScanIsFullScan(q: seq<Stamped>, n: nat, now: Instant, ttl: nat)
    requires Sorted(q) && n <= |q|
    requires forall i :: 0 <= i < n ==> Expired(q[i], now, ttl)
    requires n < |q| ==> !Expired(q[n], now, ttl)
    ensures Live(q, now, ttl) == q[n..]
  {
    if n == 0 {
      forall s | s in q ensures !Expired(s, now, ttl) {
        var i :| 0 <= i < |q| && q[i] == s;
        assert q[0].when <= q[i].when;
      }
      LiveOfUnexpired(q, now, ttl);
    } else {
      FrontScanIsFullScan(q[1..], n - 1, now, ttl);
      assert q[1..][n - 1..] == q[n..];
    }
  }

  /** A full scan keeps exactly the table entries younger than the ttl. */
  lemma {:induction false} LiveTable(q: seq<Stamped>, now: Instant, ttl: nat)
    requires DistinctKeys(q)
    ensures Table(Live(q, now, ttl)) ==
            map k | k in Table(q) && Age(now, Table(q)[k]) < ttl :: Table(q)[k]
  {
    if q != [] {
      var rest := q[1..];
      LiveTable(rest, now, ttl);
      TableKeys(rest);
      assert q[0].key !in Keys(rest);
      if !Expired(q[0], now, ttl) {
        assert ([q[0]] + Live(rest, now, ttl))[1..] == Live(rest, now, ttl);
      }
    }
  }

  class DedupCache {
    var seen: set<DedupKey>
    var fifo: seq<Stamped>
    const ttl: nat

    ghost predicate Valid()
      reads this
    {
      seen == Keys(fifo) && DistinctKeys(fifo) && Sorted(fifo)
    }

    constructor (ttl: nat)
      ensures Valid() && this.ttl == ttl && Table(fifo) == map[]
    {
      this.ttl := ttl;
      seen, fifo := {}, [];
    }

    /** True exactly for a key the table does not hold; `now` is read while the queue is locked. */
    method CheckAndInsert(key: DedupKey, now: Instant) returns (isNew: bool)
      requires Valid()
      requires forall s :: s in fifo ==> s.when <= now
      modifies this
      ensures Valid()
      ensures isNew <==> key !in old(Table(fifo))
      ensures Table(fifo) == if isNew then old(Table(fifo))[key := now] else old(Table(fifo))
      ensures forall s :: s in fifo ==> s.when <= now
      ensures seen == old(seen) + {key}
    {
      TableKeys(fifo);
      if key in seen {
        return false;
      }
      TableAppend(fifo, Stamped(key, now));
      seen := seen + {key};
      fifo := fifo + [Stamped(key, now)];
      return true;
    }

    /** The front scan leaves the table a full scan would leave. */
    method EvictExpired(now: Instant)
      requires Valid()
      modifies this
      ensures Valid()
      ensures fifo == Live(old(fifo), now, ttl)
      ensures Table(fifo) ==
              map k | k in old(Table(fifo)) && Age(now, old(Table(fifo))[k]) < ttl :: old(Table(fifo))[k]
    {
      ghost var n := 0;
      while fifo != [] && Expired(fifo[0], now, ttl)
        invariant n <= |old(fifo)| && fifo == old(fifo)[n..]
        invariant forall i :: 0 <= i < n ==> Expired(old(fifo)[i], now, ttl)
        invariant Valid()
        decreases |fifo|
      {
        var front := fifo[0];
        KeysFront(fifo);
        fifo := fifo[1..];
        seen := seen - {front.key};
        n := n + 1;
      }
      FrontScanIsFullScan(old(fifo), n, now, ttl);
      LiveTable(old(fifo), now, ttl);
    }
  }
}
