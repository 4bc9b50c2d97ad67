/** The single-upstream loop of the multiplexer: stream, reconnect, replay from the last processed slot. */
module SingleUpstream {
  import opened Prelude
  import opened Geyser
  import opened Replay
  import opened SlotTracker

  /** A message on an open stream: the next update of the upstream, or a ping or pong. */
  datatype Arrival = Content | PingArrives | PongArrives(id: int)

  datatype Ending = Eof | Failed(status: Status)

  datatype Attempt =
    | NoNode
    | ConnectFailed
    | SubscribeFailed(status: Status)
    | Established(head: nat, arrivals: seq<Arrival>, ending: Ending)

  datatype Outcome = Outcome(lived: bool, messages: nat, replayRejected: bool)

  datatype Loop = Loop(
    replayOnReconnect: bool,
    replayFrom: Option<nat>,
    slots: Tracker,
    broadcast: seq<SubscribeUpdate>,
    // history
    cover: Cover,
    verdicts: seq<bool>)      // for each attempt, was it classed as a rejected replay

  function Start(replayOnReconnect: bool): Loop {
    Loop(replayOnReconnect, None, EMPTY, [], NOTHING, [])
  }

  function Track(t: Tracker, p: Payload): Tracker {
    if p.SlotUpdate? then After(t, Observation(p.slot, p.parent, p.status)) else t
  }

  datatype Progress = Progress(slots: Tracker, broadcast: seq<SubscribeUpdate>, cover: Cover, next: nat, messages: nat)

  function Update(p: Payload): SubscribeUpdate {
    SubscribeUpdate([], Some(p))
  }

  /** One message of a stream that carries the upstream positions `ps`. */
  function Arrive(ups: Upstream, ps: seq<nat>, p: Progress, a: Arrival): Progress
    requires Within(ups, ps)
  {
    match a
    case PongArrives(_) => p.(messages := p.messages + 1)
    case PingArrives => p.(messages := p.messages + 1, broadcast := p.broadcast + [Update(Ping)])
    case Content =>
      if p.next < |ps| then
        var i := ps[p.next];
        Progress(Track(p.slots, ups[i]), p.broadcast + [Update(ups[i])], Deliver(ups, false, p.cover, i),
                 p.next + 1, p.messages + 1)
      else p
  }

  function ArriveAll(ups: Upstream, ps: seq<nat>, p: Progress, arrivals: seq<Arrival>): Progress
    requires Within(ups, ps)
  {
    if arrivals == [] then p
    else Arrive(ups, ps, ArriveAll(ups, ps, p, arrivals[..|arrivals| - 1]), arrivals[|arrivals| - 1])
  }

  function Stream(ups: Upstream, l: Loop, head: nat): seq<nat> {
    Positions(ups, l.replayFrom, head, 0)
  }

  function Opened(ups: Upstream, l: Loop, ps: seq<nat>): Progress {
    Progress(l.slots, l.broadcast, Open(ups, false, l.cover, ps, |l.verdicts|), 0, 0)
  }

  /** The state of the trackers once the attempt is over. */
  function Streamed(ups: Upstream, l: Loop, a: Attempt): (Loop, Outcome) {
    match a
    case NoNode => (l, Outcome(false, 0, false))
    case ConnectFailed => (l, Outcome(false, 0, false))
    case SubscribeFailed(status) =>
      (l, Outcome(false, 0, l.replayFrom.Some? && IsReplayRejection(status)))
    case Established(head, arrivals, ending) =>
      PositionsBounds(ups, l.replayFrom, head, 0);
      var ps := Stream(ups, l, head);
      var p := ArriveAll(ups, ps, Opened(ups, l, ps), arrivals);
      (l.(slots := p.slots, broadcast := p.broadcast, cover := p.cover),
       Outcome(true, p.messages, ending.Failed? && l.replayFrom.Some? && IsReplayRejection(ending.status)))
  }

  predicate Rejected(replayFrom: Option<nat>, o: Outcome) {
    replayFrom.Some? && ((o.lived && o.messages == 0) || o.replayRejected)
  }

  function NextReplay(l: Loop, rejected: bool): Option<nat> {
    if !l.replayOnReconnect then None
    else if rejected then None
    else if l.slots.lastSlot > 0 then Some(l.slots.lastSlot)
    else None
  }

  function Next(ups: Upstream, l: Loop, a: Attempt): Loop {
    if a.NoNode? then l
    else
      var (m, o) := Streamed(ups, l, a);
      var rejected := Rejected(l.replayFrom, o);
      m.(replayFrom := NextReplay(m, rejected), verdicts := m.verdicts + [rejected])
  }

  function Exec(ups: Upstream, l: Loop, attempts: seq<Attempt>): Loop {
    if attempts == [] then l
    else Next(ups, Exec(ups, l, attempts[..|attempts| - 1]), attempts[|attempts| - 1])
  }

  // ---------------------------------------------------------------------------------------------
  // The loop itself
  // ---------------------------------------------------------------------------------------------

  class UpstreamLoop {
    const ups: Upstream
    const replayOnReconnect: bool
    var replayFrom: Option<nat>
    const slots: SlotTracker
    var broadcast: seq<SubscribeUpdate>
    ghost var cover: Cover
    ghost var verdicts: seq<bool>

    ghost function View(): Loop
      reads this, slots
    {
      Loop(replayOnReconnect, replayFrom, slots.View(), broadcast, cover, verdicts)
    }

    constructor (ups: Upstream, replayOnReconnect: bool)
      ensures View() == Start(replayOnReconnect) && this.ups == ups && fresh(slots)
    {
      this.ups, this.replayOnReconnect := ups, replayOnReconnect;
      var tracker := new SlotTracker();
      slots := tracker;
      replayFrom, broadcast, cover, verdicts := None, [], NOTHING, [];
    }

    method ConnectAndStream(a: Attempt) returns (outcome: Outcome)
      requires !a.NoNode?
      modifies this, slots
      ensures (View(), outcome) == Streamed(ups, old(View()), a)
    {
      if a.ConnectFailed? {
        return Outcome(false, 0, false);
      }
      if a.SubscribeFailed? {
        return Outcome(false, 0, replayFrom.Some? && IsReplayRejection(a.status));
      }
      var messages := StreamFrom(a.head, a.arrivals);
      outcome := Outcome(true, messages, a.ending.Failed? && replayFrom.Some? && IsReplayRejection(a.ending.status));
    }

    /** The established stream: count, track the slot, broadcast. */
    method StreamFrom(head: nat, arrivals: seq<Arrival>) returns (messages: nat)
      modifies this`broadcast, this`cover, slots
      ensures var ps := Stream(ups, old(View()), head);
              && Within(ups, ps)
              && var p := ArriveAll(ups, ps, Opened(ups, old(View()), ps), arrivals);
                 slots.View() == p.slots && broadcast == p.broadcast && cover == p.cover && messages == p.messages
    {
      var next := 0;
      messages := 0;
      var ps := Positions(ups, replayFrom, head, 0);
      PositionsBounds(ups, replayFrom, head, 0);
      ghost var begun := Opened(ups, View(), ps);
      cover := begun.cover;
      for n := 0 to |arrivals|
        invariant next <= |ps|
        invariant Progress(slots.View(), broadcast, cover, next, messages) == ArriveAll(ups, ps, begun, arrivals[..n])
      {
        assert arrivals[..n + 1][..n] == arrivals[..n];
        if arrivals[n].Content? && next == |ps| {
          continue;
        }
        messages := messages + 1;
        if arrivals[n].PongArrives? {
          continue;
        }
        var update := Ping;
        if arrivals[n].Content? {
          update := ups[ps[next]];
          cover := Deliver(ups, false, cover, ps[next]);
          next := next + 1;
        }
        if update.SlotUpdate? {
          var _ := slots.Observe(update.slot, update.parent, update.status);
        }
        broadcast := broadcast + [Update(update)];
      }
      assert arrivals[..|arrivals|] == arrivals;
    }

    method Run(attempts: seq<Attempt>)
      modifies this, slots
      ensures View() == Exec(ups, old(View()), attempts)
    {
      for n := 0 to |attempts|
        invariant View() == Exec(ups, old(View()), attempts[..n])
      {
        assert attempts[..n + 1][..n] == attempts[..n];
        if attempts[n].NoNode? {
          continue;
        }
        var outcome := ConnectAndStream(attempts[n]);
        var rejected := replayFrom.Some? && ((outcome.lived && outcome.messages == 0) || outcome.replayRejected);
        if !replayOnReconnect {
          replayFrom := None;
        } else if rejected {
          replayFrom := None;
        } else {
          replayFrom := if slots.lastSlot > 0 then Some(slots.lastSlot) else None;
        }
        verdicts := verdicts + [rejected];
      }
      assert attempts[..|attempts|] == attempts;
    }
  }

  // ---------------------------------------------------------------------------------------------
  // No loss
  // ---------------------------------------------------------------------------------------------

  lemma TrackAdvances(t: Tracker, p: Payload)
    ensures Track(t, p).lastSlot == Advance(false, t.lastSlot, p)
  {
  }

  ghost predicate StreamInv(ups: Upstream, p: Progress) {
    && CoverInv(ups, false, p.cover, p.slots.lastSlot) && AnchorMeans(ups, false, p.cover)
    && Carries(ups, p.broadcast, p.cover.delivered)
  }

  lemma ContentKeeps(ups: Upstream, ps: seq<nat>, p: Progress)
    requires Within(ups, ps) && StreamInv(ups, p) && Joined(ups, false, p.cover, ps, p.next) && p.next < |ps|
    ensures var q := Arrive(ups, ps, p, Content);
            StreamInv(ups, q) && Joined(ups, false, q.cover, ps, q.next) && q.cover.gaps == p.cover.gaps
  {
    var i := ps[p.next];
    DeliverKeeps(ups, false, p.cover, p.slots.lastSlot, ps, p.next);
    DeliverAnchors(ups, false, p.cover, i);
    TrackAdvances(p.slots, ups[i]);
    CarriesSnoc(ups, p.broadcast, p.cover.delivered, Update(ups[i]), i);
  }

  lemma {:induction false} StreamKeeps(ups: Upstream, ps: seq<nat>, p: Progress, arrivals: seq<Arrival>)
    requires Within(ups, ps) && StreamInv(ups, p) && Joined(ups, false, p.cover, ps, p.next)
    ensures var q := ArriveAll(ups, ps, p, arrivals);
            StreamInv(ups, q) && Joined(ups, false, q.cover, ps, q.next) && q.cover.gaps == p.cover.gaps
  {
    if arrivals != [] {
      StreamKeeps(ups, ps, p, arrivals[..|arrivals| - 1]);
      var q := ArriveAll(ups, ps, p, arrivals[..|arrivals| - 1]);
      match arrivals[|arrivals| - 1]
      case PingArrives => CarriesSnoc(ups, q.broadcast, q.cover.delivered, Update(Ping), 0);
      case PongArrives(_) =>
      case Content => if q.next < |ps| { ContentKeeps(ups, ps, q); }
    }
  }

  // What the gap detector is fed

  /** The slot updates among the delivered positions, in delivery order. */
  ghost function SlotsOf(ups: Upstream, delivered: seq<nat>): seq<Observation>
    requires Within(ups, delivered)
  {
    if delivered == [] then []
    else
      var n := |delivered| - 1;
      var u := ups[delivered[n]];
      var h := SlotsOf(ups, delivered[..n]);
      if u.SlotUpdate? then h + [Observation(u.slot, u.parent, u.status)] else h
  }

  ghost predicate Fed(ups: Upstream, p: Progress) {
    Within(ups, p.cover.delivered) && p.slots == Run(SlotsOf(ups, p.cover.delivered))
  }

  lemma FedByContent(ups: Upstream, ps: seq<nat>, p: Progress)
    requires Within(ups, ps) && Fed(ups, p) && p.next < |ps|
    ensures Fed(ups, Arrive(ups, ps, p, Content))
  {
    var d, i := p.cover.delivered, ps[p.next];
    SlotsOfSnoc(ups, d, i);
    var u := ups[i];
    if u.SlotUpdate? {
      RunSnoc(SlotsOf(ups, d), Observation(u.slot, u.parent, u.status));
    }
    assert Arrive(ups, ps, p, Content).cover.delivered == d + [i];
  }

  lemma SlotsOfSnoc(ups: Upstream, d: seq<nat>, i: nat)
    requires Within(ups, d) && i < |ups|
    ensures Within(ups, d + [i])
    ensures var u, h := ups[i], SlotsOf(ups, d);
            SlotsOf(ups, d + [i]) == if u.SlotUpdate? then h + [Observation(u.slot, u.parent, u.status)] else h
  {
    assert (d + [i])[..|d|] == d;
  }

  lemma RunSnoc(h: seq<Observation>, o: Observation)
    ensures Run(h + [o]) == After(Run(h), o)
  {
    assert (h + [o])[..|h|] == h;
  }

  lemma {:induction false} FedByStream(ups: Upstream, ps: seq<nat>, p: Progress, arrivals: seq<Arrival>)
    requires Within(ups, ps) && Fed(ups, p)
    ensures Fed(ups, ArriveAll(ups, ps, p, arrivals))
  {
    if arrivals != [] {
      var n := |arrivals| - 1;
      FedByStream(ups, ps, p, arrivals[..n]);
      var q := ArriveAll(ups, ps, p, arrivals[..n]);
      if arrivals[n].Content? && q.next < |ps| {
        FedByContent(ups, ps, q);
      }
    }
  }

  /**
   In every run the loop's tracker is the gap detector run over exactly the delivered slot updates, with their
   parents and statuses, in delivery order; so what is proved of the detector holds of the loop.
   */
  lemma {:induction false} TrackerFollowsDeliveries(ups: Upstream, attempts: seq<Attempt>)
    ensures var l := Exec(ups, Start(true), attempts);
            Within(ups, l.cover.delivered) && l.slots == Run(SlotsOf(ups, l.cover.delivered))
  {
    if attempts != [] {
      var n := |attempts| - 1;
      TrackerFollowsDeliveries(ups, attempts[..n]);
      var l, a := Exec(ups, Start(true), attempts[..n]), attempts[n];
      if a.Established? {
        var ps := Stream(ups, l, a.head);
        PositionsBounds(ups, l.replayFrom, a.head, 0);
        FedByStream(ups, ps, Opened(ups, l, ps), a.arrivals);
      }
    }
  }

  /** In particular, with orderly deliveries the loop reports a parent exactly when it is in range and never was delivered as processed. */
  lemma LoopGapsAreReal(ups: Upstream, attempts: seq<Attempt>, p: nat, slot: nat)
    requires var l := Exec(ups, Start(true), attempts);
             Within(ups, l.cover.delivered) && Orderly(SlotsOf(ups, l.cover.delivered))
    ensures var l := Exec(ups, Start(true), attempts);
            Reported(l.slots, Observation(slot, Some(p), PROCESSED)) == Some(p) <==>
            && l.slots.recent != [] && p >= l.slots.recent[0]
            && !exists i :: 0 <= i < |l.cover.delivered| && ups[l.cover.delivered[i]].SlotUpdate?
                            && ups[l.cover.delivered[i]].status == 0 && ups[l.cover.delivered[i]].slot == p
  {
    TrackerFollowsDeliveries(ups, attempts);
    var d := Exec(ups, Start(true), attempts).cover.delivered;
    GapsAreReal(SlotsOf(ups, d), Observation(slot, Some(p), PROCESSED), p);
    ObservedIsDelivered(ups, d, p);
  }

  lemma {:induction false} ObservedIsDelivered(ups: Upstream, d: seq<nat>, p: nat)
    requires Within(ups, d)
    ensures Observed(SlotsOf(ups, d), p) <==>
            exists i :: 0 <= i < |d| && ups[d[i]].SlotUpdate? && ups[d[i]].status == 0 && ups[d[i]].slot == p
  {
    if d != [] {
      var n := |d| - 1;
      ObservedIsDelivered(ups, d[..n], p);
      var u := ups[d[n]];
      var h := SlotsOf(ups, d[..n]);
      if u.SlotUpdate? {
        ObservedSnoc(h, Observation(u.slot, u.parent, u.status));
      }
      if i :| 0 <= i < n && ups[d[..n][i]].SlotUpdate? && ups[d[..n][i]].status == 0 && ups[d[..n][i]].slot == p {
        assert ups[d[i]].slot == p;
      }
      if i :| 0 <= i < |d| && ups[d[i]].SlotUpdate? && ups[d[i]].status == 0 && ups[d[i]].slot == p {
        assert i < n ==> ups[d[..n][i]].slot == p;
      }
    }
  }

  // What is broadcast besides the upstream's updates

  /** How many pings the attempts' established streams brought. */
  ghost function PingsIn(arrivals: seq<Arrival>): nat {
    if arrivals == [] then 0 else PingsIn(arrivals[..|arrivals| - 1]) + (if arrivals[|arrivals| - 1].PingArrives? then 1 else 0)
  }

  ghost function Pings(attempts: seq<Attempt>): nat {
    if attempts == [] then 0
    else
      var n := |attempts| - 1;
      Pings(attempts[..n]) + (if attempts[n].Established? then PingsIn(attempts[n].arrivals) else 0)
  }

  lemma {:induction false} StreamBroadcasts(ups: Upstream, ps: seq<nat>, p: Progress, arrivals: seq<Arrival>)
    requires Within(ups, ps) && forall u :: u in p.broadcast ==> !IsPong(u)
    ensures var q := ArriveAll(ups, ps, p, arrivals);
            && |q.broadcast| - |q.cover.delivered| == |p.broadcast| - |p.cover.delivered| + PingsIn(arrivals)
            && forall u :: u in q.broadcast ==> !IsPong(u)
  {
    if arrivals != [] {
      StreamBroadcasts(ups, ps, p, arrivals[..|arrivals| - 1]);
    }
  }

  /** In every run the log holds each upstream update delivered and each ping, once per arrival, and no pong. */
  lemma {:induction false} PingsNotPongs(ups: Upstream, attempts: seq<Attempt>)
    ensures var l := Exec(ups, Start(true), attempts);
            && |l.broadcast| == |l.cover.delivered| + Pings(attempts)
            && forall u :: u in l.broadcast ==> !IsPong(u)
  {
    if attempts != [] {
      var n := |attempts| - 1;
      PingsNotPongs(ups, attempts[..n]);
      var l, a := Exec(ups, Start(true), attempts[..n]), attempts[n];
      if a.Established? {
        var ps := Stream(ups, l, a.head);
        PositionsBounds(ups, l.replayFrom, a.head, 0);
        StreamBroadcasts(ups, ps, Opened(ups, l, ps), a.arrivals);
      }
    }
  }

  /** A gap exists only if the attempt before the one that opened it was classed as rejected. */
  ghost predicate GapsFollowRejections(l: Loop) {
    forall g :: g in l.cover.gaps ==> 0 < g.attempt <= |l.verdicts| && l.verdicts[g.attempt - 1]
  }

  /** The replay slot is the last processed one, unless none was seen or the attempt just made was rejected. */
  ghost predicate ReplayInv(l: Loop) {
    l.replayFrom == if l.slots.lastSlot > 0 && l.verdicts != [] && !l.verdicts[|l.verdicts| - 1]
                    then Some(l.slots.lastSlot) else None
  }

  ghost predicate LoopInv(ups: Upstream, l: Loop) {
    && StreamInv(ups, Progress(l.slots, l.broadcast, l.cover, 0, 0))
    && GapsFollowRejections(l) && ReplayInv(l)
    && l.replayOnReconnect && (l.slots.lastSlot > 0 ==> l.verdicts != [])
  }

  /** A stream opens a gap only when it is a live one after a rejection. */
  lemma OpenedKeeps(ups: Upstream, l: Loop, head: nat)
    requires LoopInv(ups, l)
    ensures var ps := Stream(ups, l, head);
            var p := Opened(ups, l, ps);
            && StreamInv(ups, p) && Joined(ups, false, p.cover, ps, 0)
            && GapsFollowRejections(l.(cover := p.cover))
  {
    OpenKeeps(ups, false, l.cover, l.slots.lastSlot, l.replayFrom, head, |l.verdicts|);
    if l.replayFrom.Some? {
      ReplayRejoins(ups, false, l.cover, l.slots.lastSlot, head, |l.verdicts|);
    }
  }

  lemma StreamedKeeps(ups: Upstream, l: Loop, a: Attempt)
    requires LoopInv(ups, l)
    ensures var m := Streamed(ups, l, a).0;
            StreamInv(ups, Progress(m.slots, m.broadcast, m.cover, 0, 0)) && GapsFollowRejections(m)
  {
    if a.Established? {
      OpenedKeeps(ups, l, a.head);
      PositionsBounds(ups, l.replayFrom, a.head, 0);
      var ps := Stream(ups, l, a.head);
      StreamKeeps(ups, ps, Opened(ups, l, ps), a.arrivals);
    }
  }

  lemma StepKeeps(ups: Upstream, l: Loop, a: Attempt)
    requires LoopInv(ups, l)
    ensures LoopInv(ups, Next(ups, l, a))
  {
    StreamedKeeps(ups, l, a);
  }

  lemma {:induction false} RunInv(ups: Upstream, attempts: seq<Attempt>)
    ensures LoopInv(ups, Exec(ups, Start(true), attempts))
  {
    if attempts != [] {
      RunInv(ups, attempts[..|attempts| - 1]);
      StepKeeps(ups, Exec(ups, Start(true), attempts[..|attempts| - 1]), attempts[|attempts| - 1]);
    }
  }

  /**
   For every upstream, in whatever slot order, and any sequence of stream deaths and failed connects: every
   update from the first observed processed slot up to any later delivery is in the broadcast log, unless it
   is late or lies in a gap; a gap is opened only by the attempt right after one classed as rejected; and from
   the very first delivery on, what is passed over was at worst exposed before a slot was seen.
   */
  lemma ReplayLosesNothing(ups: Upstream, attempts: seq<Attempt>)
    ensures var l := Exec(ups, Start(true), attempts);
            && Carries(ups, l.broadcast, l.cover.delivered)
            && LosesNothingOutsideGaps(ups, false, l.cover)
            && (forall g :: g in l.cover.gaps ==> 0 < g.attempt <= |l.verdicts| && l.verdicts[g.attempt - 1])
            && forall i :: 0 <= i && Skips(ups, None, l.cover.delivered, i) ==>
                 i + 1 < |ups| && (InGap(l.cover.gaps, i) || Late(ups, false, i) || Exposed(ups, false, None, i))
  {
    RunInv(ups, attempts);
    var l := Exec(ups, Start(true), attempts);
    CoverageExact(ups, false, l.cover, l.slots.lastSlot);
    CarriesWithin(ups, l.broadcast, l.cover.delivered);
    forall i | 0 <= i && Skips(ups, None, l.cover.delivered, i)
      ensures i + 1 < |ups| && (InGap(l.cover.gaps, i) || Late(ups, false, i) || Exposed(ups, false, None, i))
    {
      assert l.cover.delivered[0] in l.cover.delivered;
      SkippedMeans(ups, false, None, l.cover, l.slots.lastSlot, false, [], i);
    }
  }

  /** A run in which no replay was rejected, and which has passed position `i` over. */
  ghost predicate LosesQuietly(ups: Upstream, attempts: seq<Attempt>, i: nat) {
    var l := Exec(ups, Start(true), attempts);
    true !in l.verdicts && Skips(ups, None, l.cover.delivered, i)
  }

  lemma NoRejectionNoGap(ups: Upstream, attempts: seq<Attempt>)
    requires true !in Exec(ups, Start(true), attempts).verdicts
    ensures forall i :: !InGap(Exec(ups, Start(true), attempts).cover.gaps, i)
  {
    var gaps := Exec(ups, Start(true), attempts).cover.gaps;
    forall i ensures !InGap(gaps, i) {
      if InGap(gaps, i) {
        var g :| g in gaps && i in g.lost;
        GapMeansRejection(ups, attempts, g);
      }
    }
  }

  lemma GapMeansRejection(ups: Upstream, attempts: seq<Attempt>, g: Gap)
    requires g in Exec(ups, Start(true), attempts).cover.gaps
    ensures true in Exec(ups, Start(true), attempts).verdicts
  {
    RunInv(ups, attempts);
    var l := Exec(ups, Start(true), attempts);
    assert l.verdicts[g.attempt - 1] in l.verdicts;
  }

  /**
   Without a rejected replay an update can be lost if and only if another follows it, and it is late or some
   update before it shows no processed slot: a stream that dies there leaves nothing to replay from.
   */
  lemma LostIff(ups: Upstream, i: nat)
    ensures (exists attempts :: LosesQuietly(ups, attempts, i)) <==>
            i + 1 < |ups| && (Late(ups, false, i) || exists j :: 0 <= j < i && !Anchors(ups, false, j))
  {
    if attempts :| LosesQuietly(ups, attempts, i) {
      ReplayLosesNothing(ups, attempts);
      NoRejectionNoGap(ups, attempts);
    }
    if i + 1 < |ups| && (Late(ups, false, i) || exists j :: 0 <= j < i && !Anchors(ups, false, j)) {
      CanBeLost(ups, i);
    }
  }

  /** In slot order nothing is late: without a rejected replay there is no hole from the first observed slot on. */
  lemma NoRejectionNoHole(ups: Upstream, attempts: seq<Attempt>, i: nat)
    requires NondecreasingSlots(ups) && true !in Exec(ups, Start(true), attempts).verdicts
    requires Spanned(ups, false, Exec(ups, Start(true), attempts).cover.delivered, i)
    ensures i in Exec(ups, Start(true), attempts).cover.delivered
  {
    ReplayLosesNothing(ups, attempts);
    NoRejectionNoGap(ups, attempts);
    if i < |ups| {
      OrderedIsNeverLate(ups, false, i);
    }
  }

  /** And before it, an update that is followed can be lost exactly when some earlier one shows no processed slot. */
  lemma OrderedLossIff(ups: Upstream, i: nat)
    requires NondecreasingSlots(ups)
    ensures (exists attempts :: LosesQuietly(ups, attempts, i)) <==>
            i + 1 < |ups| && exists j :: 0 <= j < i && !Anchors(ups, false, j)
  {
    LostIff(ups, i);
    if i < |ups| {
      OrderedIsNeverLate(ups, false, i);
    }
  }

  /** In every run the next from_slot is the last processed slot, unless the attempt just made was rejected. */
  lemma ReplaySlotExact(ups: Upstream, attempts: seq<Attempt>)
    ensures var l := Exec(ups, Start(true), attempts);
            l.replayFrom == if l.slots.lastSlot > 0 && l.verdicts != [] && !l.verdicts[|l.verdicts| - 1]
                            then Some(l.slots.lastSlot) else None
  {
    RunInv(ups, attempts);
  }

  /** With the option off no attempt ever asks for a replay. */
  lemma {:induction false} NoOptionNoReplay(ups: Upstream, attempts: seq<Attempt>)
    ensures Exec(ups, Start(false), attempts).replayFrom.None? && !Exec(ups, Start(false), attempts).replayOnReconnect
  {
    if attempts != [] {
      NoOptionNoReplay(ups, attempts[..|attempts| - 1]);
    }
  }

  lemma {:induction false} CountsMessages(ups: Upstream, ps: seq<nat>, p: Progress, arrivals: seq<Arrival>)
    requires Within(ups, ps) && p.next == 0 && p.messages == 0
    ensures var q := ArriveAll(ups, ps, p, arrivals);
            q.next <= q.messages && (q.messages == 0 <==> Silent(ps, arrivals))
  {
    if arrivals != [] {
      var n := |arrivals| - 1;
      CountsMessages(ups, ps, p, arrivals[..n]);
      var q := ArriveAll(ups, ps, p, arrivals[..n]);
      assert Silent(ps, arrivals) <==> Silent(ps, arrivals[..n]) && arrivals[n].Content? && ps == [];
      assert ArriveAll(ups, ps, p, arrivals) == Arrive(ups, ps, q, arrivals[n]);
    }
  }

  /** No message comes: no ping or pong, and no update when there is one to send. */
  ghost predicate Silent(ps: seq<nat>, arrivals: seq<Arrival>) {
    forall k :: 0 <= k < |arrivals| ==> arrivals[k].Content? && ps == []
  }

  /**
   Which attempts are classed as rejected: only one that asked for a replay, and then exactly if the upstream
   said so, or the stream was established and ended without a single message.
   */
  lemma VerdictExact(ups: Upstream, l: Loop, a: Attempt)
    requires !a.NoNode?
    ensures var verdicts := Next(ups, l, a).verdicts;
            && |verdicts| == |l.verdicts| + 1
            && (verdicts[|l.verdicts|] <==>
                  && l.replayFrom.Some?
                  && match a
                     case SubscribeFailed(status) => IsReplayRejection(status)
                     case Established(head, arrivals, ending) =>
                       || (ending.Failed? && IsReplayRejection(ending.status))
                       || Silent(Stream(ups, l, head), arrivals)
                     case _ => false)
  {
    if a.Established? {
      PositionsBounds(ups, l.replayFrom, a.head, 0);
      var ps := Stream(ups, l, a.head);
      CountsMessages(ups, ps, Opened(ups, l, ps), a.arrivals);
    }
  }

  /**
   In every run, a rejected replay is asked for again as soon as the live attempt after it fails to connect:
   unlike the direct manager, this loop forgets a rejection without any stream having been established.
   */
  lemma RejectionForgottenOnConnectFailure(ups: Upstream, attempts: seq<Attempt>, a: Attempt)
    requires var l := Exec(ups, Start(true), attempts);
             l.verdicts != [] && l.verdicts[|l.verdicts| - 1] && l.slots.lastSlot > 0
    requires a.ConnectFailed? || a.SubscribeFailed?
    ensures var l := Exec(ups, Start(true), attempts);
            l.replayFrom.None? && Exec(ups, Start(true), attempts + [a]).replayFrom == Some(l.slots.lastSlot)
  {
    ReplaySlotExact(ups, attempts);
    VerdictExact(ups, Exec(ups, Start(true), attempts), a);
    assert (attempts + [a])[..|attempts|] == attempts;
    ReplaySlotExact(ups, attempts + [a]);
  }

  // A run that loses an update: one message of a live stream, then a stream that passes it over

  function Contents(n: nat): seq<Arrival> {
    seq(n, _ => Content)
  }

  lemma {:induction false} AllDelivered(ups: Upstream, ps: seq<nat>, p: Progress, n: nat)
    requires Within(ups, ps) && p.next == 0 && p.messages == 0 && n <= |ps|
    ensures var q := ArriveAll(ups, ps, p, Contents(n));
            q.next == q.messages == n && q.cover.delivered == p.cover.delivered + ps[..n]
  {
    if n > 0 {
      assert Contents(n)[..n - 1] == Contents(n - 1);
      AllDelivered(ups, ps, p, n - 1);
      assert ps[..n] == ps[..n - 1] + [ps[n - 1]];
    }
  }

  /** A live stream that ends after its first update, j. */
  lemma OneMessage(ups: Upstream, j: nat) returns (a: Attempt, l: Loop)
    requires j < |ups|
    ensures l == Next(ups, Start(true), a)
    ensures l.cover.delivered == [j] && l.verdicts == [false]
    ensures l.replayFrom == if Anchors(ups, false, j) then Some(SlotAt(ups, j)) else None
  {
    var ps := Positions(ups, None, j, 0);
    PositionsExact(ups, None, j, 0);
    PositionsBounds(ups, None, j, 0);
    assert j in ps;
    assert ps[0] in ps && ps[0] == j;
    var p := Opened(ups, Start(true), ps);
    AllDelivered(ups, ps, p, 1);
    assert Contents(1)[..0] == [];
    assert ArriveAll(ups, ps, p, []) == p;
    assert ArriveAll(ups, ps, p, Contents(1)) == Arrive(ups, ps, p, Content);
    TrackAdvances(EMPTY, ups[j]);
    assert [] + ps[..1] == [j];
    a := Established(j, Contents(1), Eof);
    l := Next(ups, Start(true), a);
  }

  /** A stream that ends at update i + 1 and carries no i. */
  lemma StreamPast(ups: Upstream, l: Loop, i: nat) returns (b: Attempt, m: Loop, qs: seq<nat>)
    requires i + 1 < |ups| && !Sent(ups, l.replayFrom, i + 1, i)
    ensures m == Next(ups, l, b)
    ensures m.cover.delivered == l.cover.delivered + qs && m.verdicts == l.verdicts + [false]
    ensures qs != [] && qs[|qs| - 1] == i + 1 && i !in qs
  {
    PositionsExact(ups, l.replayFrom, i + 1, 0);
    var ps := Stream(ups, l, i + 1);
    var k := PositionOf(ups, l.replayFrom, i + 1, i + 1);
    AllDelivered(ups, ps, Opened(ups, l, ps), k + 1);
    b, qs := Established(i + 1, Contents(k + 1), Eof), ps[..k + 1];
    m := Next(ups, l, b);
  }

  lemma ExecTwo(ups: Upstream, a: Attempt, b: Attempt)
    ensures Exec(ups, Start(true), [a, b]) == Next(ups, Next(ups, Start(true), a), b)
  {
    assert [a][..0] == [] && [a, b][..1] == [a];
    assert Exec(ups, Start(true), [a]) == Next(ups, Exec(ups, Start(true), []), a);
  }

  lemma QuietlyLost(ups: Upstream, a: Attempt, b: Attempt, i: nat, m: Loop)
    requires m == Next(ups, Next(ups, Start(true), a), b)
    requires true !in m.verdicts && Skips(ups, None, m.cover.delivered, i)
    ensures exists attempts :: LosesQuietly(ups, attempts, i)
  {
    ExecTwo(ups, a, b);
    assert LosesQuietly(ups, [a, b], i);
  }

  lemma LostBetween(ups: Upstream, j: nat, i: nat)
    requires j < i && i + 1 < |ups| && !Sent(ups, if Anchors(ups, false, j) then Some(SlotAt(ups, j)) else None, i + 1, i)
    ensures exists attempts :: LosesQuietly(ups, attempts, i)
  {
    var a, l := OneMessage(ups, j);
    var b, m, qs := StreamPast(ups, l, i);
    JumpSkips(ups, None, [j], qs, i);
    QuietlyLost(ups, a, b, i, m);
  }

  lemma CanBeLost(ups: Upstream, i: nat)
    requires i + 1 < |ups| && (Late(ups, false, i) || exists j :: 0 <= j < i && !Anchors(ups, false, j))
    ensures exists attempts :: LosesQuietly(ups, attempts, i)
  {
    if j :| 0 <= j < i && !Anchors(ups, false, j) {
      LostBetween(ups, j, i);
    } else {
      var j :| 0 <= j < i && Tracks(false, ups[j]) && SlotAt(ups, j) > SlotAt(ups, i);
      LostBetween(ups, j, i);
    }
  }
}
