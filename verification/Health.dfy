/** Node health: probe outcomes, thresholds, slot drift, and the history that decides routing. */
module Health {
  import opened Prelude

  datatype NodeStatus = Healthy | Degraded | Down

  datatype RpcOutcome = Success(latencyMs: nat, slot: nat) | Blocked | Failed

  datatype Health = Health(
    status: NodeStatus,
    latencyMs: nat,
    lastSlot: nat,
    failures: nat,          // consecutive, u32
    successes: nat,         // consecutive, u32
    totalChecks: nat,       // u64
    totalSuccesses: nat,    // u64
    rpcBlocked: bool)

  datatype Thresholds = Thresholds(unhealthy: nat, healthy: nat)

  ghost predicate FitsU32(c: Thresholds) {
    c.unhealthy < U32 && c.healthy < U32
  }

  const FRESH: Health := Health(Healthy, 0, 0, 0, 0, 0, 0, false)

  predicate IsHealthy(h: Health) {
    !h.status.Down?
  }

  function RecordedSuccess(h: Health, latencyMs: nat, slot: nat): Health {
    h.(latencyMs := latencyMs, lastSlot := slot, failures := 0, successes := (h.successes + 1) % U32,
       totalChecks := (h.totalChecks + 1) % U64, totalSuccesses := (h.totalSuccesses + 1) % U64)
  }

  function RecordedFailure(h: Health): Health {
    h.(successes := 0, failures := (h.failures + 1) % U32, totalChecks := (h.totalChecks + 1) % U64)
  }

  function Checked(c: Thresholds, h: Health, o: RpcOutcome): Health {
    match o
    case Success(latencyMs, slot) =>
      var h := RecordedSuccess(h.(rpcBlocked := false), latencyMs, slot);
      var h := if !h.status.Healthy? && h.successes >= c.healthy then h.(status := Healthy) else h;
      if latencyMs > 500 && h.status.Healthy? then h.(status := Degraded) else h
    case Blocked =>
      var h := RecordedFailure(h.(rpcBlocked := true));
      if h.failures >= c.unhealthy then h.(status := Down) else h
    case Failed =>
      var h := RecordedFailure(h.(rpcBlocked := false));
      if h.failures >= c.unhealthy then h.(status := Down) else h
  }

  function Drifted(h: Health, maxSlot: nat): Health {
    if maxSlot > 0 && h.lastSlot > 0 && maxSlot > (h.lastSlot + 5) % U64 && h.status.Healthy?
    then h.(status := Degraded) else h
  }

  class NodeHealth {
    var status: NodeStatus
    var latencyMs: nat
    var lastSlot: nat
    var failures: nat
    var successes: nat
    var totalChecks: nat
    var totalSuccesses: nat
    var rpcBlocked: bool

    ghost function View(): Health
      reads this
    {
      Health(status, latencyMs, lastSlot, failures, successes, totalChecks, totalSuccesses, rpcBlocked)
    }

    constructor ()
      ensures View() == FRESH
    {
      status, latencyMs, lastSlot, failures, successes := Healthy, 0, 0, 0, 0;
      totalChecks, totalSuccesses, rpcBlocked := 0, 0, false;
    }

    method RecordSuccess(latencyMs: nat, slot: nat)
      modifies this
      ensures View() == RecordedSuccess(old(View()), latencyMs, slot)
    {
      this.latencyMs := latencyMs;
      lastSlot := slot;
      failures := 0;
      successes := (successes + 1) % U32;
      totalChecks := (totalChecks + 1) % U64;
      totalSuccesses := (totalSuccesses + 1) % U64;
    }

    method RecordFailure()
      modifies this
      ensures View() == RecordedFailure(old(View()))
    {
      successes := 0;
      failures := (failures + 1) % U32;
      totalChecks := (totalChecks + 1) % U64;
    }

    /** One probe of this node within a round. */
    method Check(c: Thresholds, o: RpcOutcome)
      modifies this
      ensures View() == Checked(c, old(View()), o)
    {
      match o
      case Success(latency, slot) =>
        rpcBlocked := false;
        RecordSuccess(latency, slot);
        if status == Down && successes >= c.healthy {
          status := Healthy;
        } else if status != Healthy && successes >= c.healthy {
          status := Healthy;
        }
        if latency > 500 && status == Healthy {
          status := Degraded;
        }
      case Blocked =>
        rpcBlocked := true;
        RecordFailure();
        if failures >= c.unhealthy {
          status := Down;
        }
      case Failed =>
        rpcBlocked := false;
        RecordFailure();
        if failures >= c.unhealthy {
          status := Down;
        }
    }
  }

  function MaxSlot(outcomes: seq<RpcOutcome>): nat {
    if outcomes == [] then 0
    else
      var m, o := MaxSlot(outcomes[..|outcomes| - 1]), outcomes[|outcomes| - 1];
      if o.Success? && o.slot > m then o.slot else m
  }

  /** It is the highest slot of a successful probe, or zero. */
  lemma {:induction false} MaxSlotIsMaximum(outcomes: seq<RpcOutcome>)
    ensures forall i :: 0 <= i < |outcomes| && outcomes[i].Success? ==> outcomes[i].slot <= MaxSlot(outcomes)
    ensures MaxSlot(outcomes) > 0 ==>
              exists i :: 0 <= i < |outcomes| && outcomes[i].Success? && outcomes[i].slot == MaxSlot(outcomes)
  {
    if outcomes != [] {
      var n := |outcomes| - 1;
      MaxSlotIsMaximum(outcomes[..n]);
      if MaxSlot(outcomes) > 0 && MaxSlot(outcomes) == MaxSlot(outcomes[..n]) {
        var i :| 0 <= i < n && outcomes[..n][i].Success? && outcomes[..n][i].slot == MaxSlot(outcomes);
        assert outcomes[i].slot == MaxSlot(outcomes);
      }
    }
  }

  /** The drift pass degrades exactly the healthy nodes with a known slot more than five behind; it changes nothing else. */
  lemma DriftExact(h: Health, maxSlot: nat)
    requires h.lastSlot + 5 < U64
    ensures Drifted(h, maxSlot) ==
            if h.status.Healthy? && h.lastSlot > 0 && h.lastSlot + 5 < maxSlot then h.(status := Degraded) else h
  {
  }

  ghost predicate AllDistinct(nodes: seq<NodeHealth>) {
    forall i, j :: 0 <= i < j < |nodes| ==> nodes[i] != nodes[j]
  }

  ghost function Views(nodes: seq<NodeHealth>): seq<Health>
    reads nodes
  {
    seq(|nodes|, i reads nodes requires 0 <= i < |nodes| => nodes[i].View())
  }

  method ProbeAll(nodes: seq<NodeHealth>, outcomes: seq<RpcOutcome>, c: Thresholds) returns (maxSlot: nat)
    requires |nodes| == |outcomes| && AllDistinct(nodes)
    modifies nodes
    ensures forall i :: 0 <= i < |nodes| ==> nodes[i].View() == Checked(c, old(Views(nodes))[i], outcomes[i])
    ensures maxSlot == MaxSlot(outcomes)
  {
    maxSlot := 0;
    ghost var before := Views(nodes);
    for k := 0 to |nodes|
      invariant maxSlot == MaxSlot(outcomes[..k])
      invariant forall i :: 0 <= i < k ==> nodes[i].View() == Checked(c, before[i], outcomes[i])
      invariant forall i :: k <= i < |nodes| ==> nodes[i].View() == before[i]
    {
      assert outcomes[..k + 1][..k] == outcomes[..k];
      nodes[k].Check(c, outcomes[k]);
      if outcomes[k].Success? && outcomes[k].slot > maxSlot {
        maxSlot := outcomes[k].slot;
      }
    }
    assert outcomes[..|outcomes|] == outcomes;
  }

  method DriftAll(nodes: seq<NodeHealth>, maxSlot: nat)
    requires AllDistinct(nodes)
    modifies nodes
    ensures forall i :: 0 <= i < |nodes| ==> nodes[i].View() == Drifted(old(Views(nodes))[i], maxSlot)
  {
    if maxSlot == 0 {
      return;
    }
    ghost var before := Views(nodes);
    for k := 0 to |nodes|
      invariant forall i :: 0 <= i < k ==> nodes[i].View() == Drifted(before[i], maxSlot)
      invariant forall i :: k <= i < |nodes| ==> nodes[i].View() == before[i]
    {
      var nodeSlot := nodes[k].lastSlot;
      if nodeSlot > 0 && maxSlot > (nodeSlot + 5) % U64 && nodes[k].status == Healthy {
        nodes[k].status := Degraded;
      }
    }
  }

  /** One round: every node is probed, then every node is compared with the highest slot of the round. */
  method Round(nodes: seq<NodeHealth>, outcomes: seq<RpcOutcome>, c: Thresholds)
    requires |nodes| == |outcomes| && AllDistinct(nodes)
    modifies nodes
    ensures forall i :: 0 <= i < |nodes| ==>
              nodes[i].View() == Drifted(Checked(c, old(Views(nodes))[i], outcomes[i]), MaxSlot(outcomes))
  {
    var maxSlot := ProbeAll(nodes, outcomes, c);
    DriftAll(nodes, maxSlot);
  }

  // ---------------------------------------------------------------------------------------------
  // Hysteresis as a function of history
  // ---------------------------------------------------------------------------------------------

  datatype Event = Probe(outcome: RpcOutcome) | Drift(maxSlot: nat)

  function Next(c: Thresholds, h: Health, e: Event): Health {
    match e
    case Probe(o) => Checked(c, h, o)
    case Drift(m) => Drifted(h, m)
  }

  function Exec(c: Thresholds, es: seq<Event>): Health {
    if es == [] then FRESH else Next(c, Exec(c, es[..|es| - 1]), es[|es| - 1])
  }

  /** The history of a node as routing sees it: which probes succeeded. */
  function Bits(es: seq<Event>): seq<bool> {
    if es == [] then []
    else Bits(es[..|es| - 1]) +
         (if es[|es| - 1].Probe? then [es[|es| - 1].outcome.Success?] else [])
  }

  /** The n probes up to and including number i all came out as `v`. */
  ghost predicate BlockEndsAt(bits: seq<bool>, v: bool, n: nat, i: nat) {
    i < |bits| && n <= i + 1 && forall j :: i + 1 - n <= j <= i ==> bits[j] == v
  }

  function AtLeastOne(n: nat): nat {
    if n == 0 then 1 else n
  }

  /** Some block of failures long enough, and no block of successes long enough after it. */
  ghost predicate IsDown(c: Thresholds, bits: seq<bool>) {
    exists i: nat :: BlockEndsAt(bits, false, AtLeastOne(c.unhealthy), i)
                && forall j :: i < j < |bits| ==> !BlockEndsAt(bits, true, AtLeastOne(c.healthy), j)
  }

  function Trailing(bits: seq<bool>, v: bool): nat {
    if bits == [] || bits[|bits| - 1] != v then 0 else Trailing(bits[..|bits| - 1], v) + 1
  }

  lemma {:induction false} TrailingBlock(bits: seq<bool>, v: bool, n: nat)
    requires bits != [] && n > 0
    ensures BlockEndsAt(bits, v, n, |bits| - 1) <==> Trailing(bits, v) >= n
  {
    var i := |bits| - 1;
    if bits[i] == v && n > 1 {
      if i == 0 {
        assert Trailing(bits[..i], v) == 0;
      } else {
        TrailingBlock(bits[..i], v, n - 1);
        assert BlockEndsAt(bits, v, n, i) ==> BlockEndsAt(bits[..i], v, n - 1, i - 1);
      }
    }
  }

  lemma BlockStable(bits: seq<bool>, b: bool, v: bool, n: nat, i: nat)
    requires i < |bits|
    ensures BlockEndsAt(bits + [b], v, n, i) <==> BlockEndsAt(bits, v, n, i)
  {
    assert forall j :: 0 <= j < |bits| ==> (bits + [b])[j] == bits[j];
  }

  lemma DownAfterFailure(c: Thresholds, bits: seq<bool>)
    ensures IsDown(c, bits + [false]) <==>
            IsDown(c, bits) || Trailing(bits, false) + 1 >= AtLeastOne(c.unhealthy)
  {
    var more, u, h := bits + [false], AtLeastOne(c.unhealthy), AtLeastOne(c.healthy);
    assert more[..|bits|] == bits;
    TrailingBlock(more, false, u);
    forall i: nat, v: bool, n: nat | i < |bits| ensures BlockEndsAt(more, v, n, i) <==> BlockEndsAt(bits, v, n, i) {
      BlockStable(bits, false, v, n, i);
    }
    assert !BlockEndsAt(more, true, h, |bits|) by { assert more[|bits|] == false; }
    if IsDown(c, bits) {
      var i: nat :| BlockEndsAt(bits, false, u, i) && forall j :: i < j < |bits| ==> !BlockEndsAt(bits, true, h, j);
      assert BlockEndsAt(more, false, u, i);
    }
  }

  lemma DownAfterSuccess(c: Thresholds, bits: seq<bool>)
    ensures IsDown(c, bits + [true]) <==>
            IsDown(c, bits) && Trailing(bits, true) + 1 < AtLeastOne(c.healthy)
  {
    var more, u, h := bits + [true], AtLeastOne(c.unhealthy), AtLeastOne(c.healthy);
    assert more[..|bits|] == bits;
    TrailingBlock(more, true, h);
    forall i: nat, v: bool, n: nat | i < |bits| ensures BlockEndsAt(more, v, n, i) <==> BlockEndsAt(bits, v, n, i) {
      BlockStable(bits, true, v, n, i);
    }
    assert !BlockEndsAt(more, false, u, |bits|) by { assert more[|bits|] == true; }
    if IsDown(c, bits) {
      var i: nat :| BlockEndsAt(bits, false, u, i) && forall j :: i < j < |bits| ==> !BlockEndsAt(bits, true, h, j);
      assert BlockEndsAt(more, false, u, i);
    }
    if IsDown(c, more) {
      var i: nat :| BlockEndsAt(more, false, u, i) && forall j :: i < j < |more| ==> !BlockEndsAt(more, true, h, j);
      assert i < |bits| && BlockEndsAt(bits, false, u, i);
    }
  }

  /** Counters are the trailing runs modulo 2^32, and the bounds that make the wrap-around harmless. */
  ghost predicate RunInv(c: Thresholds, h: Health, bits: seq<bool>) {
    && h.failures == Trailing(bits, false) % U32
    && h.successes == Trailing(bits, true) % U32
    && (h.status.Down? <==> IsDown(c, bits))
    && (h.status.Down? ==> Trailing(bits, true) < AtLeastOne(c.healthy))
    && (!h.status.Down? ==> Trailing(bits, false) < AtLeastOne(c.unhealthy))
  }

  lemma TrailingSnoc(bits: seq<bool>, b: bool)
    ensures Trailing(bits + [b], b) == Trailing(bits, b) + 1
    ensures Trailing(bits + [b], !b) == 0
  {
    assert (bits + [b])[..|bits|] == bits;
  }

  lemma WrapStep(t: nat)
    ensures (t % U32 + 1) % U32 == (t + 1) % U32
    ensures t + 1 < U32 ==> (t % U32 + 1) % U32 == t + 1
  {
    var q, r := t / U32, t % U32;
    assert t == q * U32 + r;
    if r + 1 < U32 {
      assert (t + 1) / U32 == q;
    } else {
      assert t + 1 == (q + 1) * U32;
    }
  }

  lemma SuccessStep(c: Thresholds, h: Health, bits: seq<bool>, latencyMs: nat, slot: nat)
    requires FitsU32(c) && RunInv(c, h, bits)
    ensures RunInv(c, Checked(c, h, Success(latencyMs, slot)), bits + [true])
  {
    TrailingSnoc(bits, true);
    WrapStep(Trailing(bits, true));
    DownAfterSuccess(c, bits);
  }

  lemma FailureStep(c: Thresholds, h: Health, bits: seq<bool>, o: RpcOutcome)
    requires FitsU32(c) && RunInv(c, h, bits) && !o.Success?
    ensures RunInv(c, Checked(c, h, o), bits + [false])
  {
    TrailingSnoc(bits, false);
    WrapStep(Trailing(bits, false));
    DownAfterFailure(c, bits);
  }

  lemma {:induction false} Hysteresis(c: Thresholds, es: seq<Event>)
    requires FitsU32(c)
    ensures RunInv(c, Exec(c, es), Bits(es))
  {
    if es != [] {
      var n := |es| - 1;
      Hysteresis(c, es[..n]);
      if es[n].Probe? {
        match es[n].outcome
        case Success(latencyMs, slot) => SuccessStep(c, Exec(c, es[..n]), Bits(es[..n]), latencyMs, slot);
        case _ => FailureStep(c, Exec(c, es[..n]), Bits(es[..n]), es[n].outcome);
      } else {
        assert Bits(es) == Bits(es[..n]);
      }
    }
  }

  /**
   A node is routable unless its history holds a long enough block of failed probes with no long enough
   block of successes after it. Latency, slots, drift, the kind of failure and counter wrap-around are
   all irrelevant.
   */
  lemma EligibleIffHistory(c: Thresholds, es: seq<Event>)
    requires FitsU32(c)
    ensures IsHealthy(Exec(c, es)) <==> !IsDown(c, Bits(es))
  {
    Hysteresis(c, es);
  }

  /** How many probes of the history succeeded. */
  function Hits(bits: seq<bool>): nat {
    if bits == [] then 0 else Hits(bits[..|bits| - 1]) + (if bits[|bits| - 1] then 1 else 0)
  }

  /** The last probe, and the last one that succeeded. */
  function LastProbe(es: seq<Event>): Option<RpcOutcome> {
    if es == [] then None
    else if es[|es| - 1].Probe? then Some(es[|es| - 1].outcome)
    else LastProbe(es[..|es| - 1])
  }

  function LastSuccess(es: seq<Event>): Option<RpcOutcome> {
    if es == [] then None
    else if es[|es| - 1].Probe? && es[|es| - 1].outcome.Success? then Some(es[|es| - 1].outcome)
    else LastSuccess(es[..|es| - 1])
  }

  lemma BitsSnoc(es: seq<Event>)
    requires es != []
    ensures var n := |es| - 1;
            var bits := Bits(es[..n]);
            if es[n].Probe? then
              && Bits(es) == bits + [es[n].outcome.Success?] && |Bits(es)| == |bits| + 1
              && Hits(Bits(es)) == Hits(bits) + (if es[n].outcome.Success? then 1 else 0)
            else Bits(es) == bits
  {
    var n := |es| - 1;
    var bits := Bits(es[..n]);
    if es[n].Probe? {
      assert (bits + [es[n].outcome.Success?])[..|bits|] == bits;
    } else {
      assert bits + [] == bits;
    }
  }

  /** The totals count the history's probes and successes, modulo 2^64. */
  lemma {:induction false} TotalsExact(c: Thresholds, es: seq<Event>)
    ensures Exec(c, es).totalChecks == |Bits(es)| % U64 && Exec(c, es).totalSuccesses == Hits(Bits(es)) % U64
  {
    if es != [] {
      var n := |es| - 1;
      TotalsExact(c, es[..n]);
      BitsSnoc(es);
      Successor(|Bits(es[..n])|, U64);
      Successor(Hits(Bits(es[..n])), U64);
    }
  }

  /** Last slot and latency are those of the last success, and the blocked flag is about the last probe. */
  lemma {:induction false} FiguresExact(c: Thresholds, es: seq<Event>)
    ensures var h := Exec(c, es);
            && (h.rpcBlocked <==> LastProbe(es) == Some(Blocked))
            && (LastSuccess(es).None? ==> h.lastSlot == 0 && h.latencyMs == 0)
            && (LastSuccess(es).Some? ==> LastSuccess(es) == Some(Success(h.latencyMs, h.lastSlot)))
  {
    if es != [] {
      FiguresExact(c, es[..|es| - 1]);
    }
  }

  /** When a routable node is degraded: by a slow answer or the drift pass, until enough successes end with a quick one. */
  lemma DegradedExact(c: Thresholds, h: Health, o: RpcOutcome, bits: seq<bool>)
    requires FitsU32(c) && RunInv(c, h, bits) && o.Success? && !Checked(c, h, o).status.Down?
    ensures Checked(c, h, o).status.Degraded? <==>
            o.latencyMs > 500 || (h.status.Degraded? && (Trailing(bits, true) + 1) % U32 < c.healthy)
  {
    WrapStep(Trailing(bits, true));
  }

  /** The history of node i over rounds of probes, each followed by the drift pass. */
  function History(rounds: seq<seq<RpcOutcome>>, i: nat): seq<Event>
    requires forall r :: r in rounds ==> i < |r|
  {
    if rounds == [] then []
    else
      var n := |rounds| - 1;
      History(rounds[..n], i) + [Probe(rounds[n][i]), Drift(MaxSlot(rounds[n]))]
  }

  lemma ExecTwo(c: Thresholds, es: seq<Event>, e: Event, f: Event)
    ensures Exec(c, es + [e, f]) == Next(c, Next(c, Exec(c, es), e), f)
  {
    assert (es + [e, f])[..|es| + 1] == es + [e];
    assert (es + [e])[..|es|] == es;
  }

  ghost predicate FullRounds(rounds: seq<seq<RpcOutcome>>, n: nat) {
    forall r :: r in rounds ==> |r| == n
  }

  /** Every node is where its history leaves it. */
  ghost predicate Follow(nodes: seq<NodeHealth>, c: Thresholds, rounds: seq<seq<RpcOutcome>>)
    requires FullRounds(rounds, |nodes|)
    reads nodes
  {
    forall i :: 0 <= i < |nodes| ==> nodes[i].View() == Exec(c, History(rounds, i))
  }

  method RoundAfter(nodes: seq<NodeHealth>, ghost rounds: seq<seq<RpcOutcome>>, outcomes: seq<RpcOutcome>, c: Thresholds)
    requires AllDistinct(nodes) && FullRounds(rounds, |nodes|) && |outcomes| == |nodes| && Follow(nodes, c, rounds)
    modifies nodes
    ensures FullRounds(rounds + [outcomes], |nodes|) && Follow(nodes, c, rounds + [outcomes])
  {
    ghost var more := rounds + [outcomes];
    ghost var before := Views(nodes);
    forall i | 0 <= i < |nodes|
      ensures Exec(c, History(more, i)) == Drifted(Checked(c, before[i], outcomes[i]), MaxSlot(outcomes))
    {
      OneMoreRound(c, rounds, outcomes, i, more);
    }
    Round(nodes, outcomes, c);
  }

  /** The checker's loop: after any rounds, each node is routable exactly by its own history of probes. */
  method RunRounds(nodes: seq<NodeHealth>, rounds: seq<seq<RpcOutcome>>, c: Thresholds)
    requires AllDistinct(nodes) && FitsU32(c) && FullRounds(rounds, |nodes|)
    requires forall i :: 0 <= i < |nodes| ==> nodes[i].View() == FRESH
    modifies nodes
    ensures Follow(nodes, c, rounds)
    ensures forall i :: 0 <= i < |nodes| ==> Routable(c, nodes[i].View(), History(rounds, i))
  {
    AllRounds(nodes, rounds, c);
    AllRoutable(c, rounds, |nodes|);
  }

  method AllRounds(nodes: seq<NodeHealth>, rounds: seq<seq<RpcOutcome>>, c: Thresholds)
    requires AllDistinct(nodes) && FullRounds(rounds, |nodes|)
    requires forall i :: 0 <= i < |nodes| ==> nodes[i].View() == FRESH
    modifies nodes
    ensures Follow(nodes, c, rounds)
  {
    ghost var done: seq<seq<RpcOutcome>> := [];
    for n := 0 to |rounds|
      invariant done == rounds[..n] && FullRounds(done, |nodes|) && Follow(nodes, c, done)
    {
      assert rounds[n] in rounds;
      RoundAfter(nodes, done, rounds[n], c);
      done := done + [rounds[n]];
    }
    assert done == rounds;
  }

  /** The node is eligible for routing exactly if its history does not leave it down. */
  ghost predicate Routable(c: Thresholds, h: Health, es: seq<Event>) {
    IsHealthy(h) <==> !IsDown(c, Bits(es))
  }

  lemma AllRoutable(c: Thresholds, rounds: seq<seq<RpcOutcome>>, n: nat)
    requires FitsU32(c) && FullRounds(rounds, n)
    ensures forall i :: 0 <= i < n ==> Routable(c, Exec(c, History(rounds, i)), History(rounds, i))
  {
    forall i | 0 <= i < n ensures Routable(c, Exec(c, History(rounds, i)), History(rounds, i)) {
      EligibleIffHistory(c, History(rounds, i));
    }
  }

  lemma OneMoreRound(c: Thresholds, rounds: seq<seq<RpcOutcome>>, round: seq<RpcOutcome>, i: nat, more: seq<seq<RpcOutcome>>)
    requires more == rounds + [round] && forall r :: r in more ==> i < |r|
    ensures forall r :: r in rounds ==> i < |r|
    ensures i < |round|
    ensures Exec(c, History(more, i)) == Drifted(Checked(c, Exec(c, History(rounds, i)), round[i]), MaxSlot(round))
  {
    assert more[..|rounds|] == rounds && more[|rounds|] == round;
    assert forall r :: r in rounds ==> r in more;
    assert round in more;
    ExecTwo(c, History(rounds, i), Probe(round[i]), Drift(MaxSlot(round)));
  }

  lemma EligibilityIgnoresDetails(c: Thresholds, es: seq<Event>, fs: seq<Event>)
    requires FitsU32(c) && Bits(es) == Bits(fs)
    ensures IsHealthy(Exec(c, es)) <==> IsHealthy(Exec(c, fs))
  {
    EligibleIffHistory(c, es);
    EligibleIffHistory(c, fs);
  }
}
