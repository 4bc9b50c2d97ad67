/**
 The upstream manager of a direct subscription: it owns the client's stream, reconnects forever, re-sends
 the client's latest request and replays from the last seen slot. Every await is a point at which the
 environment picks the next event; an event that is not enabled leaves the state unchanged.
 */
module DirectManager {
  import opened Prelude
  import opened Geyser
  import opened Filters
  import opened Replay

  datatype CloseReason = Cancelled | ClientGone

  datatype Phase =
    | Picking
    | Connecting
    | Streaming
    | Forwarding(msg: SubscribeUpdate)    // received, waiting for room towards the client
    | Sleeping
    | Done(reason: CloseReason)

  /** A message on the upstream stream: the next update of the subscription, or anything else. */
  datatype Arrival = Content | Other(update: SubscribeUpdate)

  datatype State = State(
    replay: bool,
    latest: SubscribeRequest,
    lastSlot: nat,
    replayFrom: Option<nat>,
    clientOpen: bool,
    streamMsgs: nat,
    forwarded: nat,
    phase: Phase,
    client: seq<Result<SubscribeUpdate, Status>>,   // the client's response stream
    request: SubscribeRequest,                      // the last subscription sent on this connection
    stream: seq<nat>,                               // the upstream positions the current stream carries
    next: nat,
    // history
    first: SubscribeRequest,
    consumed: seq<SubscribeRequest>,
    received: seq<SubscribeUpdate>,
    streamsEnded: nat,
    rejections: nat,
    cover: Cover)

  datatype Event =
    | PickNode(found: bool)
    | ConnectOk(head: nat)
    | ConnectErr(status: Status)
    | ClientMsg(msg: SubscribeRequest, accepted: bool)   // accepted: the upstream request side is still open
    | ClientHalfClose
    | FromUpstream(arrival: Arrival)
    | UpstreamErr(status: Status)
    | UpstreamEof
    | Permit
    | Wake
    | Cancel
    | GoneAway

  function Start(replay: bool, first: SubscribeRequest): State {
    State(replay, first, 0, None, true, 0, 0, Picking, [], first, [], 0, first, [], [], 0, 0, NOTHING)
  }

  function UpstreamRequest(s: State): SubscribeRequest {
    if s.replayFrom.Some? then s.latest.(fromSlot := s.replayFrom) else s.latest
  }

  function OnConnected(ups: Upstream, s: State, head: nat): State {
    var ps := Positions(ups, s.request.fromSlot, head, 0);
    s.(phase := Streaming, streamMsgs := 0, stream := ps, next := 0,
       cover := Open(ups, true, s.cover, ps, s.rejections))
  }

  function OnConnectErr(s: State, status: Status): State {
    if s.replayFrom.Some? && IsReplayRejection(status) then
      s.(replayFrom := None, rejections := s.rejections + 1, phase := Sleeping)
    else s.(phase := Sleeping)
  }

  function EndStream(s: State, rejection: bool): State {
    var rejected := s.replayFrom.Some? && (s.streamMsgs == 0 || rejection);
    s.(phase := Sleeping,
       streamsEnded := s.streamsEnded + 1,
       rejections := s.rejections + (if rejected then 1 else 0),
       replayFrom :=
         if !s.replay then None
         else if rejected then None
         else if s.lastSlot > 0 then Some(s.lastSlot)
         else None)
  }

  function OnClientMsg(s: State, msg: SubscribeRequest, accepted: bool): State {
    var s := s.(consumed := s.consumed + [msg], latest := if msg.ping.None? then msg else s.latest);
    if !accepted then EndStream(s, false)
    else s.(request := if msg.ping.None? then msg else s.request)
  }

  /** Take in one update and go wait for room towards the client. */
  function TakeIn(s: State, u: SubscribeUpdate): State {
    s.(streamMsgs := s.streamMsgs + 1, received := s.received + [u], phase := Forwarding(u),
       lastSlot := if u.payload.Some? then Advance(true, s.lastSlot, u.payload.value) else s.lastSlot)
  }

  function OnUpstream(ups: Upstream, s: State, a: Arrival): State
    requires Within(ups, s.stream)
  {
    match a
    case Other(u) => TakeIn(s, u)
    case Content =>
      if s.next < |s.stream| then
        var i := s.stream[s.next];
        TakeIn(s, SubscribeUpdate([], Some(ups[i]))).(next := s.next + 1, cover := Deliver(ups, true, s.cover, i))
      else s
  }

  predicate Interruptible(p: Phase) {
    p.Connecting? || p.Streaming? || p.Forwarding? || p.Sleeping?
  }

  function Next(ups: Upstream, s: State, e: Event): (t: State)
    requires Within(ups, s.stream)
    ensures Within(ups, t.stream)
  {
    match e
    case PickNode(found) =>
      if !s.phase.Picking? then s
      else if found then s.(phase := Connecting, request := UpstreamRequest(s))
      else s.(phase := Sleeping)
    case ConnectOk(head) =>
      PositionsBounds(ups, s.request.fromSlot, head, 0);
      if s.phase.Connecting? then OnConnected(ups, s, head) else s
    case ConnectErr(status) => if s.phase.Connecting? then OnConnectErr(s, status) else s
    case ClientMsg(msg, accepted) => if s.phase.Streaming? && s.clientOpen then OnClientMsg(s, msg, accepted) else s
    case ClientHalfClose => if s.phase.Streaming? then s.(clientOpen := false) else s
    case FromUpstream(a) => if s.phase.Streaming? then OnUpstream(ups, s, a) else s
    case UpstreamErr(status) => if s.phase.Streaming? then EndStream(s, IsReplayRejection(status)) else s
    case UpstreamEof => if s.phase.Streaming? then EndStream(s, false) else s
    case Permit =>
      if s.phase.Forwarding? then
        s.(client := s.client + [Ok(s.phase.msg)], forwarded := s.forwarded + 1, phase := Streaming)
      else s
    case Wake => if s.phase.Sleeping? then s.(phase := Picking) else s
    case Cancel => if Interruptible(s.phase) then s.(phase := Done(Cancelled)) else s
    case GoneAway => if Interruptible(s.phase) then s.(phase := Done(ClientGone)) else s
  }

  function Exec(ups: Upstream, s: State, es: seq<Event>): (t: State)
    requires Within(ups, s.stream)
    ensures Within(ups, t.stream)
  {
    if es == [] then s else Next(ups, Exec(ups, s, es[..|es| - 1]), es[|es| - 1])
  }

  // ---------------------------------------------------------------------------------------------
  // Continuity
  // ---------------------------------------------------------------------------------------------

  /** The request whose filters the client last asked for: pings do not change filters. */
  function LastFilters(first: SubscribeRequest, consumed: seq<SubscribeRequest>): SubscribeRequest {
    if consumed == [] then first
    else if consumed[|consumed| - 1].ping.None? then consumed[|consumed| - 1]
    else LastFilters(first, consumed[..|consumed| - 1])
  }

  ghost predicate SameFilters(a: SubscribeRequest, b: SubscribeRequest) {
    a.(fromSlot := None) == b.(fromSlot := None)
  }

  function AllOk(us: seq<SubscribeUpdate>): seq<Result<SubscribeUpdate, Status>> {
    seq(|us|, i requires 0 <= i < |us| => Ok(us[i]))
  }

  ghost predicate RequestInv(s: State) {
    && s.latest == LastFilters(s.first, s.consumed)
    && (s.phase.Connecting? || s.phase.Streaming? || s.phase.Forwarding? ==> SameFilters(s.request, s.latest))
    && (s.phase.Connecting? ==> s.request == UpstreamRequest(s))
    && (s.replayFrom.Some? ==> s.replay && 0 < s.replayFrom.value <= s.lastSlot)
  }

  /** The client's stream is the received updates, all of them Ok, short at most of the one in hand. */
  ghost predicate ClientInv(s: State) {
    && s.forwarded == |s.client|
    && (match s.phase
        case Forwarding(u) => s.received != [] && s.received[|s.received| - 1] == u
                              && s.client == AllOk(s.received[..|s.received| - 1])
        case Done(_) => s.client == AllOk(s.received)
                        || (s.received != [] && s.client == AllOk(s.received[..|s.received| - 1]))
        case _ => s.client == AllOk(s.received))
  }

  lemma LastFiltersSnoc(first: SubscribeRequest, consumed: seq<SubscribeRequest>, msg: SubscribeRequest)
    ensures LastFilters(first, consumed + [msg]) == if msg.ping.None? then msg else LastFilters(first, consumed)
  {
    assert (consumed + [msg])[..|consumed|] == consumed;
  }

  lemma RequestClientMsg(s: State, msg: SubscribeRequest, accepted: bool)
    requires RequestInv(s) && s.phase.Streaming?
    ensures RequestInv(OnClientMsg(s, msg, accepted))
  {
    LastFiltersSnoc(s.first, s.consumed, msg);
  }

  lemma RequestUpstream(ups: Upstream, s: State, a: Arrival)
    requires Within(ups, s.stream) && RequestInv(s) && s.phase.Streaming?
    ensures RequestInv(OnUpstream(ups, s, a))
  {
  }

  lemma RequestStep(ups: Upstream, s: State, e: Event)
    requires Within(ups, s.stream) && RequestInv(s)
    ensures RequestInv(Next(ups, s, e))
  {
    match e
    case ClientMsg(msg, accepted) => if s.phase.Streaming? { RequestClientMsg(s, msg, accepted); }
    case FromUpstream(a) => if s.phase.Streaming? { RequestUpstream(ups, s, a); }
    case UpstreamErr(status) => if s.phase.Streaming? { RequestEnd(s, IsReplayRejection(status)); }
    case UpstreamEof => if s.phase.Streaming? { RequestEnd(s, false); }
    case _ =>
  }

  lemma RequestEnd(s: State, rejection: bool)
    requires RequestInv(s)
    ensures RequestInv(EndStream(s, rejection))
  {
  }

  lemma ClientTakesIn(s: State, u: SubscribeUpdate)
    requires ClientInv(s) && s.phase.Streaming?
    ensures ClientInv(TakeIn(s, u))
  {
    assert TakeIn(s, u).received[..|s.received|] == s.received;
  }

  lemma ClientGetsItem(s: State)
    requires ClientInv(s) && s.phase.Forwarding?
    ensures s.client + [Ok(s.phase.msg)] == AllOk(s.received)
  {
  }

  lemma ClientStep(ups: Upstream, s: State, e: Event)
    requires Within(ups, s.stream) && ClientInv(s)
    ensures ClientInv(Next(ups, s, e))
  {
    match e
    case FromUpstream(a) =>
      if s.phase.Streaming? {
        if a.Other? {
          ClientTakesIn(s, a.update);
        } else if s.next < |s.stream| {
          ClientTakesIn(s, SubscribeUpdate([], Some(ups[s.stream[s.next]])));
        }
      }
    case Permit => if s.phase.Forwarding? { ClientGetsItem(s); }
    case _ => ClientQuiet(ups, s, e);
  }

  lemma ClientFrame(s: State, t: State)
    requires ClientInv(s) && t.client == s.client && t.received == s.received && t.forwarded == s.forwarded
    requires t.phase == s.phase || t.phase.Done? || (!s.phase.Forwarding? && !s.phase.Done? && !t.phase.Forwarding?)
    ensures ClientInv(t)
  {
  }

  lemma ClientQuiet(ups: Upstream, s: State, e: Event)
    requires Within(ups, s.stream) && ClientInv(s) && !e.FromUpstream? && !e.Permit?
    ensures ClientInv(Next(ups, s, e))
  {
    var t := Next(ups, s, e);
    assert t.client == s.client && t.received == s.received && t.forwarded == s.forwarded;
    ClientFrame(s, t);
  }

  ghost predicate Inv(s: State, replay: bool, first: SubscribeRequest) {
    RequestInv(s) && ClientInv(s) && s.first == first && s.replay == replay
  }

  lemma SettingsStep(ups: Upstream, s: State, e: Event)
    requires Within(ups, s.stream)
    ensures Next(ups, s, e).first == s.first && Next(ups, s, e).replay == s.replay
  {
  }

  lemma InvStep(ups: Upstream, s: State, e: Event, replay: bool, first: SubscribeRequest)
    requires Within(ups, s.stream) && Inv(s, replay, first)
    ensures Inv(Next(ups, s, e), replay, first)
  {
    assert RequestInv(Next(ups, s, e)) by { RequestStep(ups, s, e); }
    assert ClientInv(Next(ups, s, e)) by { ClientStep(ups, s, e); }
    SettingsStep(ups, s, e);
  }

  lemma {:induction false} RunInv(ups: Upstream, replay: bool, first: SubscribeRequest, es: seq<Event>)
    ensures Inv(Exec(ups, Start(replay, first), es), replay, first)
  {
    if es != [] {
      RunInv(ups, replay, first, es[..|es| - 1]);
      InvStep(ups, Exec(ups, Start(replay, first), es[..|es| - 1]), es[|es| - 1], replay, first);
    }
  }

  /** Is the client's request side still open: has no half-close been seen on an open stream? */
  ghost predicate SideOpen(ups: Upstream, s: State, es: seq<Event>)
    requires Within(ups, s.stream)
  {
    es == [] || (SideOpen(ups, s, es[..|es| - 1])
                 && !(es[|es| - 1].ClientHalfClose? && Exec(ups, s, es[..|es| - 1]).phase.Streaming?))
  }

  /** The client messages that come while a stream is open and the request side is: those the manager has to act on. */
  ghost function Heard(ups: Upstream, s: State, es: seq<Event>): seq<SubscribeRequest>
    requires Within(ups, s.stream)
  {
    if es == [] then []
    else
      var before, e := es[..|es| - 1], es[|es| - 1];
      var h := Heard(ups, s, before);
      if e.ClientMsg? && Exec(ups, s, before).phase.Streaming? && SideOpen(ups, s, before) then h + [e.msg] else h
  }

  lemma HeardStep(ups: Upstream, s: State, e: Event)
    requires Within(ups, s.stream)
    ensures Next(ups, s, e).consumed ==
            if e.ClientMsg? && s.phase.Streaming? && s.clientOpen then s.consumed + [e.msg] else s.consumed
    ensures Next(ups, s, e).clientOpen <==> s.clientOpen && !(e.ClientHalfClose? && s.phase.Streaming?)
  {
  }

  /** The manager has consumed exactly the messages it heard. */
  lemma {:induction false} ConsumesWhatItHears(ups: Upstream, replay: bool, first: SubscribeRequest, es: seq<Event>)
    ensures var s := Exec(ups, Start(replay, first), es);
            s.consumed == Heard(ups, Start(replay, first), es) && (s.clientOpen <==> SideOpen(ups, Start(replay, first), es))
  {
    if es != [] {
      var n := |es| - 1;
      ConsumesWhatItHears(ups, replay, first, es[..n]);
      HeardStep(ups, Exec(ups, Start(replay, first), es[..n]), es[n]);
    }
  }

  /**
   Across any number of reconnects: the filters in force upstream are those of the last non-ping message heard (or
   the first request), a replay slot was really seen, and the client gets the updates, in order, and no error.
   */
  lemma Continuity(ups: Upstream, replay: bool, first: SubscribeRequest, es: seq<Event>)
    ensures var s := Exec(ups, Start(replay, first), es);
            && (s.phase.Connecting? || s.phase.Streaming? || s.phase.Forwarding? ==>
                  SameFilters(s.request, LastFilters(first, Heard(ups, Start(replay, first), es))))
            && (s.replayFrom.Some? ==> 0 < s.replayFrom.value <= s.lastSlot)
            && s.forwarded == |s.client| <= |s.received| <= |s.client| + 1
            && forall i :: 0 <= i < |s.client| ==> s.client[i] == Ok(s.received[i])
  {
    RunInv(ups, replay, first, es);
    ConsumesWhatItHears(ups, replay, first, es);
  }

  lemma {:induction false} LastFiltersStands(first: SubscribeRequest, heard: seq<SubscribeRequest>, more: seq<SubscribeRequest>)
    requires forall m :: m in more ==> m.ping.Some?
    ensures LastFilters(first, heard + more) == LastFilters(first, heard)
  {
    if more == [] {
      assert heard + more == heard;
    } else {
      var n := |more| - 1;
      LastFiltersStands(first, heard, more[..n]);
      assert (heard + more)[..|heard + more| - 1] == heard + more[..n];
    }
  }

  /** A filter change that the upstream side accepts is consumed and in force at once, on the stream that is open. */
  lemma AcceptedAtOnce(ups: Upstream, replay: bool, first: SubscribeRequest, before: seq<Event>, msg: SubscribeRequest)
    requires Exec(ups, Start(replay, first), before).phase.Streaming? && SideOpen(ups, Start(replay, first), before)
    ensures var s := Exec(ups, Start(replay, first), before);
            var t := Next(ups, s, ClientMsg(msg, true));
            && t.phase.Streaming? && t.stream == s.stream && t.next == s.next && t.client == s.client
            && t.consumed == s.consumed + [msg] && t.request == if msg.ping.None? then msg else s.request
  {
    ConsumesWhatItHears(ups, replay, first, before);
  }

  /**
   A filter change takes effect, whether the upstream side accepts it or the stream ends on it: in every continuation
   in which only pings are heard after it, whatever is asked of the upstream has its filters.
   */
  lemma FilterChangeTakesEffect(ups: Upstream, replay: bool, first: SubscribeRequest, before: seq<Event>,
                                msg: SubscribeRequest, accepted: bool, after: seq<Event>, more: seq<SubscribeRequest>)
    requires msg.ping.None? && forall m :: m in more ==> m.ping.Some?
    requires Exec(ups, Start(replay, first), before).phase.Streaming? && SideOpen(ups, Start(replay, first), before)
    requires var s0, es := Start(replay, first), before + [ClientMsg(msg, accepted)];
             Heard(ups, s0, es + after) == Heard(ups, s0, es) + more
    ensures var t := Exec(ups, Start(replay, first), before + [ClientMsg(msg, accepted)] + after);
            t.phase.Connecting? || t.phase.Streaming? || t.phase.Forwarding? ==> SameFilters(t.request, msg)
  {
    var s0, es := Start(replay, first), before + [ClientMsg(msg, accepted)];
    HeardLast(ups, s0, before, msg, accepted);
    Continuity(ups, replay, first, es + after);
    var heard := Heard(ups, s0, before);
    LastFiltersStands(first, heard + [msg], more);
    LastFiltersSnoc(first, heard, msg);
  }

  lemma HeardLast(ups: Upstream, s: State, before: seq<Event>, msg: SubscribeRequest, accepted: bool)
    requires Within(ups, s.stream) && Exec(ups, s, before).phase.Streaming? && SideOpen(ups, s, before)
    ensures Heard(ups, s, before + [ClientMsg(msg, accepted)]) == Heard(ups, s, before) + [msg]
  {
    assert (before + [ClientMsg(msg, accepted)])[..|before|] == before;
  }

  lemma DoneStep(ups: Upstream, s: State, e: Event)
    requires Within(ups, s.stream)
    ensures Next(ups, s, e).phase.Done? && Next(ups, s, e).phase != s.phase ==>
              e == if Next(ups, s, e).phase.reason.Cancelled? then Cancel else GoneAway
  {
  }

  /** The client's stream ends only because it was cancelled or the client went away. */
  lemma {:induction false} EndsOnlyWithClient(ups: Upstream, replay: bool, first: SubscribeRequest, es: seq<Event>)
    ensures var s := Exec(ups, Start(replay, first), es);
            && (s.phase == Done(Cancelled) ==> Cancel in es)
            && (s.phase == Done(ClientGone) ==> GoneAway in es)
  {
    if es != [] {
      var n := |es| - 1;
      EndsOnlyWithClient(ups, replay, first, es[..n]);
      DoneStep(ups, Exec(ups, Start(replay, first), es[..n]), es[n]);
      assert es == es[..n] + [es[n]];
    }
  }

  /** Once done, nothing more happens. */
  lemma {:induction false} DoneIsFinal(ups: Upstream, s: State, es: seq<Event>)
    requires Within(ups, s.stream) && s.phase.Done?
    ensures Exec(ups, s, es) == s
  {
    if es != [] {
      DoneIsFinal(ups, s, es[..|es| - 1]);
    }
  }

  /** At every await a cancel or the client's departure ends the run at once. */
  lemma StopsAtOnce(ups: Upstream, s: State)
    requires Within(ups, s.stream) && !s.phase.Picking? && !s.phase.Done?
    ensures Next(ups, s, Cancel) == s.(phase := Done(Cancelled)) && Next(ups, s, GoneAway) == s.(phase := Done(ClientGone))
  {
  }

  /** What the end of an established stream decides, however it ended. */
  lemma EndDecides(ups: Upstream, s: State, e: Event)
    requires Within(ups, s.stream) && s.phase.Streaming?
    requires e.UpstreamErr? || e.UpstreamEof? || (e.ClientMsg? && s.clientOpen && !e.accepted)
    ensures var t := Next(ups, s, e);
            && t.phase.Sleeping? && t.streamsEnded == s.streamsEnded + 1 && t.client == s.client && t.lastSlot == s.lastSlot
            && t.replayFrom == if s.replay && !Rejects(s, e) && s.lastSlot > 0 then Some(s.lastSlot) else None
  {
  }

  /** No state is a dead end: with a node and an answer to be had, at most four events lead to an open stream. */
  lemma NeverWedged(ups: Upstream, s: State, head: nat) returns (es: seq<Event>)
    requires Within(ups, s.stream) && !s.phase.Done?
    ensures |es| <= 4 && Exec(ups, s, es).phase.Streaming?
    ensures !IsOpen(s.phase) ==> Exec(ups, s, es).streamMsgs == 0 && Exec(ups, s, es).next == 0
    ensures s.phase.Forwarding? ==> Exec(ups, s, es).client == s.client + [Ok(s.phase.msg)]
  {
    match s.phase
    case Streaming => es := [];
    case Forwarding(_) => es := [Permit]; ExecOne(ups, s, Permit);
    case Connecting => es := [ConnectOk(head)]; ExecOne(ups, s, ConnectOk(head));
    case Picking => es := [PickNode(true), ConnectOk(head)]; ExecTwo(ups, s, PickNode(true), ConnectOk(head));
    case Sleeping =>
      var opening := [PickNode(true), ConnectOk(head)];
      es := [Wake] + opening;
      ExecOne(ups, s, Wake);
      ExecConcat(ups, s, [Wake], opening);
      ExecTwo(ups, Next(ups, s, Wake), PickNode(true), ConnectOk(head));
  }

  lemma ExecOne(ups: Upstream, s: State, e: Event)
    requires Within(ups, s.stream)
    ensures Exec(ups, s, [e]) == Next(ups, s, e)
  {
    assert [e][..0] == [];
  }

  /** A failed pick or connect only sends the manager to sleep; the connect error drops a replay slot if it rejects it. */
  lemma FailuresOnlySleep(ups: Upstream, s: State, status: Status)
    requires Within(ups, s.stream)
    ensures s.phase.Picking? ==> Next(ups, s, PickNode(false)) == s.(phase := Sleeping)
    ensures s.phase.Connecting? ==>
              var t := Next(ups, s, ConnectErr(status));
              && t.phase.Sleeping? && t.lastSlot == s.lastSlot && t.latest == s.latest && t.client == s.client
              && t.replayFrom == if Rejects(s, ConnectErr(status)) then None else s.replayFrom
  {
  }

  /** A rejected replay is dropped, and stays dropped until some established stream ends. */
  lemma RejectedReplayStaysDropped(ups: Upstream, s: State, e: Event, es: seq<Event>)
    requires Within(ups, s.stream) && Next(ups, s, e).rejections > s.rejections
    requires Exec(ups, Next(ups, s, e), es).streamsEnded == Next(ups, s, e).streamsEnded
    ensures Exec(ups, Next(ups, s, e), es).replayFrom.None?
  {
    DroppedReplayStaysDropped(ups, Next(ups, s, e), es);
  }

  /** Which events count as a rejection: only while a replay was asked for. */
  predicate Rejects(s: State, e: Event) {
    && s.replayFrom.Some?
    && match e
       case ConnectErr(status) => s.phase.Connecting? && IsReplayRejection(status)
       case UpstreamErr(status) => s.phase.Streaming? && (s.streamMsgs == 0 || IsReplayRejection(status))
       case UpstreamEof => s.phase.Streaming? && s.streamMsgs == 0
       case ClientMsg(_, accepted) => s.phase.Streaming? && s.clientOpen && !accepted && s.streamMsgs == 0
       case _ => false
  }

  lemma RejectionExact(ups: Upstream, s: State, e: Event)
    requires Within(ups, s.stream)
    ensures Next(ups, s, e).rejections == s.rejections + (if Rejects(s, e) then 1 else 0)
  {
  }

  lemma {:induction false} FailuresEndNoStream(ups: Upstream, s: State, es: seq<Event>)
    requires Within(ups, s.stream) && s.phase.Sleeping?
    requires forall e :: e in es ==> e.Wake? || e.PickNode? || e.ConnectErr?
    ensures var t := Exec(ups, s, es);
            t.streamsEnded == s.streamsEnded && (t.phase.Sleeping? || t.phase.Picking? || t.phase.Connecting?)
  {
    if es != [] {
      FailuresEndNoStream(ups, s, es[..|es| - 1]);
      assert es[|es| - 1] in es;
    }
  }

  /** However many connects fail after a rejection, the replay stays dropped and the client's own request is retried. */
  lemma RejectionOutlivesConnectFailures(ups: Upstream, replay: bool, first: SubscribeRequest, before: seq<Event>,
                                         e: Event, es: seq<Event>)
    requires Rejects(Exec(ups, Start(replay, first), before), e)
    requires forall f :: f in es ==> f.Wake? || f.PickNode? || f.ConnectErr?
    ensures var t := Exec(ups, Next(ups, Exec(ups, Start(replay, first), before), e), es);
            t.replayFrom.None? && (t.phase.Connecting? ==> t.request == LastFilters(first, t.consumed))
  {
    var s := Exec(ups, Start(replay, first), before);
    RejectionExact(ups, s, e);
    RejectionSleeps(ups, s, e);
    FailuresEndNoStream(ups, Next(ups, s, e), es);
    RejectedReplayStaysDropped(ups, s, e, es);
    ResumesAsClientAsked(ups, replay, first, before, e, es);
  }

  lemma DroppedStep(ups: Upstream, s: State, e: Event)
    requires Within(ups, s.stream)
    ensures Next(ups, s, e).streamsEnded >= s.streamsEnded
    ensures s.replayFrom.None? && Next(ups, s, e).streamsEnded == s.streamsEnded ==> Next(ups, s, e).replayFrom.None?
  {
  }

  lemma {:induction false} DroppedReplayStaysDropped(ups: Upstream, s: State, es: seq<Event>)
    requires Within(ups, s.stream) && s.replayFrom.None?
    ensures Exec(ups, s, es).streamsEnded >= s.streamsEnded
    ensures Exec(ups, s, es).streamsEnded == s.streamsEnded ==> Exec(ups, s, es).replayFrom.None?
  {
    if es != [] {
      DroppedReplayStaysDropped(ups, s, es[..|es| - 1]);
      DroppedStep(ups, Exec(ups, s, es[..|es| - 1]), es[|es| - 1]);
    }
  }

  /** No replay slot, and the request in force is the client's own. */
  ghost predicate Resumed(s: State) {
    && s.replayFrom.None?
    && s.latest == LastFilters(s.first, s.consumed)
    && (s.phase.Connecting? || s.phase.Streaming? || s.phase.Forwarding? ==> s.request == s.latest)
  }

  lemma ResumedStep(ups: Upstream, s: State, e: Event)
    requires Within(ups, s.stream) && Resumed(s) && Next(ups, s, e).streamsEnded == s.streamsEnded
    ensures Resumed(Next(ups, s, e))
  {
    match e
    case ClientMsg(msg, accepted) => if s.phase.Streaming? && s.clientOpen { ResumedClientMsg(s, msg, accepted); }
    case FromUpstream(a) => if s.phase.Streaming? { ResumedArrival(ups, s, a); }
    case ConnectErr(_) =>
    case _ =>
  }

  lemma ResumedClientMsg(s: State, msg: SubscribeRequest, accepted: bool)
    requires Resumed(s) && s.phase.Streaming? && OnClientMsg(s, msg, accepted).streamsEnded == s.streamsEnded
    ensures Resumed(OnClientMsg(s, msg, accepted))
  {
    LastFiltersSnoc(s.first, s.consumed, msg);
  }

  lemma ResumedArrival(ups: Upstream, s: State, a: Arrival)
    requires Within(ups, s.stream) && Resumed(s) && s.phase.Streaming?
    ensures Resumed(OnUpstream(ups, s, a))
  {
  }

  lemma {:induction false} ResumedRun(ups: Upstream, s: State, es: seq<Event>)
    requires Within(ups, s.stream) && Resumed(s) && Exec(ups, s, es).streamsEnded == s.streamsEnded
    ensures Resumed(Exec(ups, s, es)) && Exec(ups, s, es).first == s.first
  {
    if es != [] {
      var n := |es| - 1;
      DroppedReplayStaysDropped(ups, s, es[..n]);
      var t := Exec(ups, s, es[..n]);
      DroppedStep(ups, t, es[n]);
      ResumedRun(ups, s, es[..n]);
      ResumedStep(ups, t, es[n]);
      SettingsStep(ups, t, es[n]);
    }
  }

  lemma RejectionSleeps(ups: Upstream, s: State, e: Event)
    requires Within(ups, s.stream) && Next(ups, s, e).rejections > s.rejections
    ensures Next(ups, s, e).phase.Sleeping? && Next(ups, s, e).replayFrom.None?
  {
  }

  /**
   After a rejection, and until an established stream ends, whatever is asked of the upstream is the client's
   own last request, from_slot included: the manager resumes live exactly if that request is live.
   */
  lemma ResumesAsClientAsked(ups: Upstream, replay: bool, first: SubscribeRequest, before: seq<Event>, e: Event, es: seq<Event>)
    requires var s := Exec(ups, Start(replay, first), before);
             var r := Next(ups, s, e);
             r.rejections > s.rejections && Exec(ups, r, es).streamsEnded == r.streamsEnded
    ensures var t := Exec(ups, Next(ups, Exec(ups, Start(replay, first), before), e), es);
            t.phase.Connecting? || t.phase.Streaming? || t.phase.Forwarding? ==>
              t.request == LastFilters(first, t.consumed)
  {
    var s := Exec(ups, Start(replay, first), before);
    RunInv(ups, replay, first, before);
    InvStep(ups, s, e, replay, first);
    RejectionSleeps(ups, s, e);
    ResumedRun(ups, Next(ups, s, e), es);
  }

  ghost predicate Reachable(ups: Upstream, first: SubscribeRequest, s: State) {
    exists es :: Exec(ups, Start(true, first), es) == s
  }

  lemma ReachNext(ups: Upstream, first: SubscribeRequest, s: State, e: Event) returns (t: State)
    requires Reachable(ups, first, s)
    ensures Within(ups, s.stream) && t == Next(ups, s, e) && Reachable(ups, first, t)
  {
    var es :| Exec(ups, Start(true, first), es) == s;
    assert (es + [e])[..|es|] == es;
    t := Next(ups, s, e);
    assert Exec(ups, Start(true, first), es + [e]) == t;
  }

  /** A first stream that shows one slot update and ends. */
  lemma SeesOneSlot(ups: Upstream, first: SubscribeRequest) returns (s: State)
    ensures Reachable(ups, first, s)
    ensures s.phase.Sleeping? && s.replayFrom == Some(1) && s.latest == first && s.rejections == 0
  {
    s := Start(true, first);
    assert Exec(ups, s, []) == s;
    s := ReachNext(ups, first, s, PickNode(true));
    s := ReachNext(ups, first, s, ConnectOk(0));
    s := ReachNext(ups, first, s, FromUpstream(Other(SubscribeUpdate([], Some(SlotUpdate(1, None, 0))))));
    s := ReachNext(ups, first, s, Permit);
    s := ReachNext(ups, first, s, UpstreamEof);
  }

  /** Whatever the client first asked for, a rejected replay can be followed by exactly that request again. */
  lemma RejectedYetNotLive(ups: Upstream, first: SubscribeRequest)
    ensures exists es :: var s := Exec(ups, Start(true, first), es);
              s.rejections == 1 && s.phase.Connecting? && s.request == first
  {
    var s := SeesOneSlot(ups, first);
    s := ReachNext(ups, first, s, Wake);
    s := ReachNext(ups, first, s, PickNode(true));
    s := ReachNext(ups, first, s, ConnectErr(Status(OutOfRange, "")));
    s := ReachNext(ups, first, s, Wake);
    s := ReachNext(ups, first, s, PickNode(true));
  }

  // ---------------------------------------------------------------------------------------------
  // No loss, while the client keeps its filters
  // ---------------------------------------------------------------------------------------------

  /** The client only pings, and the upstream sends only the subscription's updates, pings and pongs. */
  ghost predicate Steady(e: Event) {
    && (e.ClientMsg? ==> e.msg.ping.Some?)
    && (e.FromUpstream? && e.arrival.Other? ==> IsControl(e.arrival.update))
  }

  /** A rejection whose live reconnect is still to come. */
  ghost function Owed(s: State): nat {
    if Between(s.phase) && s.replayFrom.None? && s.lastSlot > 0 then 1 else 0
  }

  predicate Between(p: Phase) {
    p.Picking? || p.Connecting? || p.Sleeping?
  }

  /** What has been delivered, and in which order. */
  ghost predicate DeliveryInv(ups: Upstream, s: State) {
    && CoverInv(ups, true, s.cover, s.lastSlot) && AnchorMeans(ups, true, s.cover)
    && Carries(ups, s.received, s.cover.delivered)
  }

  /** An open stream continues what was delivered. */
  ghost predicate OpenInv(ups: Upstream, s: State) {
    && Within(ups, s.stream)
    && (s.phase.Streaming? || s.phase.Forwarding? ==> Joined(ups, true, s.cover, s.stream, s.next))
  }

  /** Between streams the replay slot is the last one seen, unless a rejection is still owed its gap. */
  ghost predicate OwedInv(s: State) {
    && s.replay
    && (s.replayFrom.Some? && Between(s.phase) ==> s.replayFrom.value == s.lastSlot > 0)
    && (s.phase.Connecting? && s.replayFrom.Some? ==> s.request.fromSlot == s.replayFrom)
    && (!s.phase.Done? ==> |s.cover.gaps| + Owed(s) <= s.rejections)
    && |s.cover.gaps| <= s.rejections
  }

  ghost predicate LossInv(ups: Upstream, s: State) {
    DeliveryInv(ups, s) && OpenInv(ups, s) && OwedInv(s)
  }

  lemma LossConnect(ups: Upstream, s: State, head: nat)
    requires LossInv(ups, s) && s.phase.Connecting?
    ensures LossInv(ups, OnConnected(ups, s, head))
  {
    PositionsBounds(ups, s.request.fromSlot, head, 0);
    OpenKeeps(ups, true, s.cover, s.lastSlot, s.request.fromSlot, head, s.rejections);
    if s.replayFrom.Some? {
      ReplayRejoins(ups, true, s.cover, s.lastSlot, head, s.rejections);
    }
  }

  lemma ContentDelivered(ups: Upstream, s: State)
    requires LossInv(ups, s) && s.phase.Streaming? && s.next < |s.stream|
    ensures DeliveryInv(ups, OnUpstream(ups, s, Content))
  {
    var i := s.stream[s.next];
    DeliverKeeps(ups, true, s.cover, s.lastSlot, s.stream, s.next);
    DeliverAnchors(ups, true, s.cover, i);
    CarriesSnoc(ups, s.received, s.cover.delivered, SubscribeUpdate([], Some(ups[i])), i);
  }

  lemma ContentJoins(ups: Upstream, s: State)
    requires LossInv(ups, s) && s.phase.Streaming? && s.next < |s.stream|
    ensures OpenInv(ups, OnUpstream(ups, s, Content))
  {
    DeliverKeeps(ups, true, s.cover, s.lastSlot, s.stream, s.next);
  }

  lemma ContentOwes(ups: Upstream, s: State)
    requires Within(ups, s.stream) && OwedInv(s) && s.phase.Streaming? && s.next < |s.stream|
    ensures OwedInv(OnUpstream(ups, s, Content))
  {
    assert OnUpstream(ups, s, Content).cover.gaps == s.cover.gaps;
  }

  lemma LossContent(ups: Upstream, s: State)
    requires LossInv(ups, s) && s.phase.Streaming? && s.next < |s.stream|
    ensures LossInv(ups, OnUpstream(ups, s, Content))
  {
    assert DeliveryInv(ups, OnUpstream(ups, s, Content)) by { ContentDelivered(ups, s); }
    assert OpenInv(ups, OnUpstream(ups, s, Content)) by { ContentJoins(ups, s); }
    assert OwedInv(OnUpstream(ups, s, Content)) by { ContentOwes(ups, s); }
  }

  lemma LossOther(ups: Upstream, s: State, u: SubscribeUpdate)
    requires LossInv(ups, s) && s.phase.Streaming?
    requires IsControl(u)
    ensures LossInv(ups, TakeIn(s, u))
  {
    CarriesSnoc(ups, s.received, s.cover.delivered, u, 0);
  }

  lemma LossEnd(ups: Upstream, s: State, rejection: bool)
    requires LossInv(ups, s) && s.phase.Streaming?
    ensures LossInv(ups, EndStream(s, rejection))
  {
  }

  lemma LossArrival(ups: Upstream, s: State, a: Arrival)
    requires LossInv(ups, s) && s.phase.Streaming? && Steady(FromUpstream(a))
    ensures LossInv(ups, OnUpstream(ups, s, a))
  {
    if a.Other? {
      LossOther(ups, s, a.update);
    } else if s.next < |s.stream| {
      LossContent(ups, s);
    }
  }

  lemma LossClientMsg(ups: Upstream, s: State, msg: SubscribeRequest, accepted: bool)
    requires LossInv(ups, s) && s.phase.Streaming? && msg.ping.Some?
    ensures LossInv(ups, OnClientMsg(s, msg, accepted))
  {
    if !accepted {
      LossEnd(ups, s.(consumed := s.consumed + [msg]), false);
    }
  }

  lemma LossStep(ups: Upstream, s: State, e: Event)
    requires LossInv(ups, s) && Steady(e)
    ensures LossInv(ups, Next(ups, s, e))
  {
    match e
    case ConnectOk(head) => if s.phase.Connecting? { LossConnect(ups, s, head); }
    case ClientMsg(msg, accepted) => if s.phase.Streaming? && s.clientOpen { LossClientMsg(ups, s, msg, accepted); }
    case FromUpstream(a) => if s.phase.Streaming? { LossArrival(ups, s, a); }
    case UpstreamErr(status) => if s.phase.Streaming? { LossEnd(ups, s, IsReplayRejection(status)); }
    case UpstreamEof => if s.phase.Streaming? { LossEnd(ups, s, false); }
    case _ => LossQuiet(ups, s, e);
  }

  /** Events that deliver nothing and end no stream. */
  lemma LossQuiet(ups: Upstream, s: State, e: Event)
    requires LossInv(ups, s)
    requires e.PickNode? || e.ConnectErr? || e.ClientHalfClose? || e.Permit? || e.Wake? || e.Cancel? || e.GoneAway?
    ensures LossInv(ups, Next(ups, s, e))
  {
    assert DeliveryInv(ups, Next(ups, s, e)) && OpenInv(ups, Next(ups, s, e)) by { QuietDelivers(ups, s, e); }
    assert OwedInv(Next(ups, s, e)) by { QuietOwes(ups, s, e); }
  }

  lemma QuietDelivers(ups: Upstream, s: State, e: Event)
    requires DeliveryInv(ups, s) && OpenInv(ups, s)
    requires e.PickNode? || e.ConnectErr? || e.ClientHalfClose? || e.Permit? || e.Wake? || e.Cancel? || e.GoneAway?
    ensures DeliveryInv(ups, Next(ups, s, e)) && OpenInv(ups, Next(ups, s, e))
  {
    var t := Next(ups, s, e);
    assert t.cover == s.cover && t.lastSlot == s.lastSlot && t.received == s.received;
    assert t.stream == s.stream && t.next == s.next;
  }

  lemma QuietOwes(ups: Upstream, s: State, e: Event)
    requires Within(ups, s.stream) && OwedInv(s)
    requires e.PickNode? || e.ConnectErr? || e.ClientHalfClose? || e.Permit? || e.Wake? || e.Cancel? || e.GoneAway?
    ensures OwedInv(Next(ups, s, e))
  {
  }

  lemma {:induction false} LossRun(ups: Upstream, first: SubscribeRequest, es: seq<Event>)
    requires forall e :: e in es ==> Steady(e)
    ensures LossInv(ups, Exec(ups, Start(true, first), es))
  {
    if es != [] {
      LossRun(ups, first, es[..|es| - 1]);
      LossStep(ups, Exec(ups, Start(true, first), es[..|es| - 1]), es[|es| - 1]);
    }
  }

  // From the first delivery on

  predicate IsOpen(p: Phase) {
    p.Streaming? || p.Forwarding?
  }

  /** The client's request stands, and what its own from_slot asks for is not passed over unless it is late. */
  ghost predicate HeldInv(ups: Upstream, first: SubscribeRequest, s: State, i: nat) {
    && s.latest == first
    && FirstHeld(ups, first.fromSlot, s.cover.delivered, IsOpen(s.phase), s.stream)
    && Held(ups, true, first.fromSlot, s.cover.delivered, IsOpen(s.phase), s.stream, i)
  }

  lemma HeldConnect(ups: Upstream, first: SubscribeRequest, s: State, head: nat, i: nat)
    requires LossInv(ups, s) && RequestInv(s) && HeldInv(ups, first, s, i) && s.phase.Connecting?
    ensures HeldInv(ups, first, OnConnected(ups, s, head), i)
  {
    HeldOpen(ups, true, first.fromSlot, s.cover, s.lastSlot, s.replayFrom, head, i);
  }

  lemma HeldContent(ups: Upstream, first: SubscribeRequest, s: State, i: nat)
    requires LossInv(ups, s) && HeldInv(ups, first, s, i) && s.phase.Streaming? && s.next < |s.stream|
    ensures HeldInv(ups, first, OnUpstream(ups, s, Content), i)
  {
    HeldDeliver(ups, true, first.fromSlot, s.cover.delivered, s.stream, s.next, i);
  }

  /** Events that deliver nothing and open no stream. */
  lemma HeldQuiet(ups: Upstream, first: SubscribeRequest, s: State, e: Event, i: nat)
    requires Within(ups, s.stream) && HeldInv(ups, first, s, i) && Steady(e)
    requires !e.ConnectOk? && !(e.FromUpstream? && e.arrival.Content?)
    ensures HeldInv(ups, first, Next(ups, s, e), i)
  {
    var t := Next(ups, s, e);
    assert t.latest == s.latest && t.cover.delivered == s.cover.delivered && t.stream == s.stream;
    assert IsOpen(t.phase) ==> IsOpen(s.phase);
  }

  lemma HeldStep(ups: Upstream, first: SubscribeRequest, s: State, e: Event, i: nat)
    requires LossInv(ups, s) && RequestInv(s) && HeldInv(ups, first, s, i) && Steady(e)
    ensures HeldInv(ups, first, Next(ups, s, e), i)
  {
    match e
    case ConnectOk(head) => if s.phase.Connecting? { HeldConnect(ups, first, s, head, i); }
    case FromUpstream(a) =>
      if a.Other? {
        HeldQuiet(ups, first, s, e, i);
      } else if s.phase.Streaming? && s.next < |s.stream| {
        HeldContent(ups, first, s, i);
      }
    case _ => HeldQuiet(ups, first, s, e, i);
  }

  lemma {:induction false} HeldRun(ups: Upstream, first: SubscribeRequest, es: seq<Event>, i: nat)
    requires forall e :: e in es ==> Steady(e)
    ensures HeldInv(ups, first, Exec(ups, Start(true, first), es), i)
  {
    if es != [] {
      var n := |es| - 1;
      HeldRun(ups, first, es[..n], i);
      LossRun(ups, first, es[..n]);
      RunInv(ups, true, first, es[..n]);
      HeldStep(ups, first, Exec(ups, Start(true, first), es[..n]), es[n], i);
    }
  }

  /**
   While the client keeps its filters, and in whatever slot order its subscription comes: every update from the
   first observed slot up to any later one received is received, unless it is late or lies in a gap; each gap is
   paid for by a rejection of its own; and from the very first delivery on (or from the client's own from_slot),
   what is passed over was at worst exposed before a slot was seen.
   */
  lemma DirectReplayLosesNothing(ups: Upstream, first: SubscribeRequest, es: seq<Event>)
    requires forall e :: e in es ==> Steady(e)
    ensures var s := Exec(ups, Start(true, first), es);
            && Carries(ups, s.received, s.cover.delivered)
            && LosesNothingOutsideGaps(ups, true, s.cover)
            && |s.cover.gaps| <= s.rejections
            && forall i :: 0 <= i && Skips(ups, first.fromSlot, s.cover.delivered, i) ==>
                 && i + 1 < |ups|
                 && (InGap(s.cover.gaps, i) || Late(ups, true, i) || Exposed(ups, true, first.fromSlot, i))
  {
    LossRun(ups, first, es);
    var s := Exec(ups, Start(true, first), es);
    CoverageExact(ups, true, s.cover, s.lastSlot);
    forall i | 0 <= i && Skips(ups, first.fromSlot, s.cover.delivered, i)
      ensures i + 1 < |ups| && (InGap(s.cover.gaps, i) || Late(ups, true, i) || Exposed(ups, true, first.fromSlot, i))
    {
      SkippedInRun(ups, first, es, i);
    }
  }

  lemma SkippedInRun(ups: Upstream, first: SubscribeRequest, es: seq<Event>, i: nat)
    requires forall e :: e in es ==> Steady(e)
    requires Skips(ups, first.fromSlot, Exec(ups, Start(true, first), es).cover.delivered, i)
    ensures var s := Exec(ups, Start(true, first), es);
            i + 1 < |ups| && (InGap(s.cover.gaps, i) || Late(ups, true, i) || Exposed(ups, true, first.fromSlot, i))
  {
    LossRun(ups, first, es);
    HeldRun(ups, first, es, i);
    var s := Exec(ups, Start(true, first), es);
    CarriesWithin(ups, s.received, s.cover.delivered);
    SkippedMeans(ups, true, first.fromSlot, s.cover, s.lastSlot, IsOpen(s.phase), s.stream, i);
  }

  /** A run in which no replay was rejected, and which has passed position `i` over. */
  ghost predicate LosesQuietly(ups: Upstream, first: SubscribeRequest, es: seq<Event>, i: nat) {
    var s := Exec(ups, Start(true, first), es);
    && (forall e :: e in es ==> Steady(e))
    && s.rejections == 0 && Skips(ups, first.fromSlot, s.cover.delivered, i)
  }

  /**
   Whatever the client asked for: without a rejection an update can be lost if and only if another follows it,
   and it is late, or it is exposed: its slot is below the client's from_slot (if any), and some update before it
   shows no slot and has nothing before it that from_slot asks for.
   */
  lemma LostIff(ups: Upstream, first: SubscribeRequest, i: nat)
    ensures (exists es :: LosesQuietly(ups, first, es, i)) <==>
            i + 1 < |ups| && (Late(ups, true, i) || Exposed(ups, true, first.fromSlot, i))
  {
    if es :| LosesQuietly(ups, first, es, i) {
      DirectReplayLosesNothing(ups, first, es);
    }
    if i + 1 < |ups| && Late(ups, true, i) {
      LateIsLost(ups, first, i);
    }
    if i + 1 < |ups| && Exposed(ups, true, first.fromSlot, i) {
      ExposedIsLost(ups, first, i);
    }
  }

  // A subscription that shows no slot

  predicate ShowsSlot(u: SubscribeUpdate) {
    u.payload.Some? && u.payload.value.SlotUpdate? && u.payload.value.slot > 0
  }

  lemma SlotShownStep(ups: Upstream, s: State, e: Event)
    requires Within(ups, s.stream)
    requires (s.lastSlot == 0 ==> s.replayFrom.None?) && (s.lastSlot > 0 <==> exists u :: u in s.received && ShowsSlot(u))
    ensures var t := Next(ups, s, e);
            && (t.lastSlot == 0 ==> t.replayFrom.None?)
            && (t.lastSlot > 0 <==> exists u :: u in t.received && ShowsSlot(u))
  {
    var t := Next(ups, s, e);
    match e
    case FromUpstream(a) =>
      if s.phase.Streaming? {
        if a.Other? {
          SlotShownTake(s, a.update);
        } else if s.next < |s.stream| {
          SlotShownTake(s, SubscribeUpdate([], Some(ups[s.stream[s.next]])));
        }
      }
    case _ =>
      assert t.received == s.received && t.lastSlot == s.lastSlot;
  }

  lemma SlotShownTake(s: State, u: SubscribeUpdate)
    requires s.lastSlot > 0 <==> exists v :: v in s.received && ShowsSlot(v)
    ensures TakeIn(s, u).lastSlot > 0 <==> exists v :: v in TakeIn(s, u).received && ShowsSlot(v)
    ensures TakeIn(s, u).lastSlot >= s.lastSlot
  {
    var t := TakeIn(s, u);
    assert u in t.received && forall v :: v in t.received <==> v in s.received || v == u;
    assert t.lastSlot > 0 <==> s.lastSlot > 0 || ShowsSlot(u);
  }

  /** In every run there is something to replay from only once a slot update has been received. */
  lemma {:induction false} NoSlotNoReplay(ups: Upstream, replay: bool, first: SubscribeRequest, es: seq<Event>)
    ensures var s := Exec(ups, Start(replay, first), es);
            && (s.lastSlot > 0 <==> exists u :: u in s.received && ShowsSlot(u))
            && (s.replayFrom.Some? ==> exists u :: u in s.received && ShowsSlot(u))
  {
    if es != [] {
      var n := |es| - 1;
      NoSlotNoReplay(ups, replay, first, es[..n]);
      SlotShownStep(ups, Exec(ups, Start(replay, first), es[..n]), es[n]);
    }
  }

  /** So a live subscription without slot updates can lose anything between two deliveries, and is never replayed. */
  lemma UnslottedLosesAnything(ups: Upstream, first: SubscribeRequest, i: nat)
    requires first.fromSlot.None? && 0 < i && i + 1 < |ups| && forall j :: 0 <= j < |ups| ==> !ups[j].SlotUpdate?
    ensures !Late(ups, true, i) && exists es :: LosesQuietly(ups, first, es, i)
  {
    assert !Anchors(ups, true, 0) && NoneRequested(ups, first.fromSlot, 0);
    LostIff(ups, first, i);
  }

  // Runs that lose an update: a stream up to some earlier one, then a stream that passes it over

  lemma {:induction false} ExecConcat(ups: Upstream, s: State, es: seq<Event>, fs: seq<Event>)
    requires Within(ups, s.stream)
    ensures Exec(ups, s, es + fs) == Exec(ups, Exec(ups, s, es), fs)
  {
    if fs == [] {
      assert es + fs == es;
    } else {
      var n := |fs| - 1;
      ExecConcat(ups, s, es, fs[..n]);
      assert (es + fs)[..|es + fs| - 1] == es + fs[..n];
    }
  }

  lemma ExecTwo(ups: Upstream, s: State, e: Event, f: Event)
    requires Within(ups, s.stream)
    ensures Exec(ups, s, [e, f]) == Next(ups, Next(ups, s, e), f)
  {
    assert [e, f][..1] == [e] && [e][..0] == [];
    assert Exec(ups, s, [e]) == Next(ups, Exec(ups, s, []), e);
  }

  /** One update has come in and gone out. */
  function Passed(ups: Upstream, t: State): State
    requires Within(ups, t.stream) && t.next < |t.stream|
  {
    var i := t.stream[t.next];
    var u := SubscribeUpdate([], Some(ups[i]));
    t.(next := t.next + 1, streamMsgs := t.streamMsgs + 1, lastSlot := Advance(true, t.lastSlot, ups[i]),
       received := t.received + [u], client := t.client + [Ok(u)], forwarded := t.forwarded + 1,
       cover := Deliver(ups, true, t.cover, i))
  }

  lemma OneDelivery(ups: Upstream, t: State)
    requires Within(ups, t.stream) && t.phase.Streaming? && t.next < |t.stream|
    ensures Next(ups, Next(ups, t, FromUpstream(Content)), Permit) == Passed(ups, t)
  {
    var i := t.stream[t.next];
    var u := SubscribeUpdate([], Some(ups[i]));
    assert Next(ups, t, FromUpstream(Content)) ==
           TakeIn(t, u).(next := t.next + 1, cover := Deliver(ups, true, t.cover, i));
  }

  /** `s` after n more updates of its stream. */
  ghost function After(ups: Upstream, s: State, n: nat): (t: State)
    requires Within(ups, s.stream) && s.next + n <= |s.stream|
    ensures t.stream == s.stream && t.next == s.next + n && t.phase == s.phase && t.streamMsgs == s.streamMsgs + n
    ensures t.replay == s.replay && t.latest == s.latest && t.replayFrom == s.replayFrom && t.rejections == s.rejections
    ensures t.lastSlot >= s.lastSlot
  {
    if n == 0 then s else Passed(ups, After(ups, s, n - 1))
  }

  lemma OnePassed(ups: Upstream, t: State)
    requires Within(ups, t.stream) && t.next < |t.stream|
    ensures var i := t.stream[t.next];
            var u := Passed(ups, t);
            && u.cover.delivered == t.cover.delivered + [i]
            && u.lastSlot >= t.lastSlot && (Tracks(true, ups[i]) ==> u.lastSlot >= SlotAt(ups, i))
  {
  }

  lemma {:induction false} AfterDelivers(ups: Upstream, s: State, n: nat)
    requires Within(ups, s.stream) && s.next + n <= |s.stream|
    ensures After(ups, s, n).cover.delivered == s.cover.delivered + s.stream[s.next..s.next + n]
  {
    if n == 0 {
      assert s.stream[s.next..s.next] == [];
    } else {
      AfterDelivers(ups, s, n - 1);
      PassedDelivers(ups, s.cover.delivered, s.next, After(ups, s, n - 1));
    }
  }

  lemma PassedDelivers(ups: Upstream, before: seq<nat>, from: nat, t: State)
    requires Within(ups, t.stream) && from <= t.next < |t.stream|
    requires t.cover.delivered == before + t.stream[from..t.next]
    ensures Passed(ups, t).cover.delivered == before + t.stream[from..t.next + 1]
  {
    OnePassed(ups, t);
    assert t.stream[from..t.next] + [t.stream[t.next]] == t.stream[from..t.next + 1];
  }

  lemma {:induction false} AfterSees(ups: Upstream, s: State, n: nat, k: nat)
    requires Within(ups, s.stream) && s.next <= k < s.next + n <= |s.stream| && Tracks(true, ups[s.stream[k]])
    ensures After(ups, s, n).lastSlot >= SlotAt(ups, s.stream[k])
  {
    OnePassed(ups, After(ups, s, n - 1));
    if k < s.next + (n - 1) {
      AfterSees(ups, s, n - 1, k);
    }
  }

  /** The next n updates of the stream reach the client. */
  lemma {:induction false} Pump(ups: Upstream, s: State, n: nat) returns (es: seq<Event>)
    requires Within(ups, s.stream) && s.phase.Streaming? && s.next + n <= |s.stream|
    ensures Exec(ups, s, es) == After(ups, s, n)
    ensures forall e :: e in es ==> Steady(e)
  {
    if n == 0 {
      es := [];
    } else {
      es := Pump(ups, s, n - 1);
      PumpStep(ups, s, es, After(ups, s, n - 1));
      es := es + [FromUpstream(Content), Permit];
    }
  }

  lemma PumpStep(ups: Upstream, s: State, es: seq<Event>, t: State)
    requires Within(ups, s.stream) && Exec(ups, s, es) == t && t.phase.Streaming? && t.next < |t.stream|
    ensures Exec(ups, s, es + [FromUpstream(Content), Permit]) == Passed(ups, t)
  {
    ExecConcat(ups, s, es, [FromUpstream(Content), Permit]);
    ExecTwo(ups, t, FromUpstream(Content), Permit);
    OneDelivery(ups, t);
  }

  lemma Opening(ups: Upstream, s: State, fromSlot: Option<nat>, head: nat) returns (t: State)
    requires Within(ups, s.stream) && s.phase.Picking? && fromSlot == UpstreamRequest(s).fromSlot
    ensures t == Exec(ups, s, [PickNode(true), ConnectOk(head)])
    ensures t.phase.Streaming? && t.stream == Positions(ups, fromSlot, head, 0) && Within(ups, t.stream) && t.next == 0
    ensures t.streamMsgs == 0 && t.replay == s.replay && t.latest == s.latest && t.replayFrom == s.replayFrom
    ensures t.rejections == s.rejections && t.cover.delivered == s.cover.delivered && t.lastSlot == s.lastSlot
  {
    PositionsBounds(ups, fromSlot, head, 0);
    ExecTwo(ups, s, PickNode(true), ConnectOk(head));
    t := Exec(ups, s, [PickNode(true), ConnectOk(head)]);
  }

  /** From a node picked to the stream's n-th update. */
  lemma Visit(ups: Upstream, s: State, fromSlot: Option<nat>, head: nat, n: nat) returns (es: seq<Event>, t: State)
    requires Within(ups, s.stream) && s.phase.Picking? && fromSlot == UpstreamRequest(s).fromSlot
    requires n <= |Positions(ups, fromSlot, head, 0)|
    ensures forall e :: e in es ==> Steady(e)
    ensures t == Exec(ups, s, es)
    ensures var ps := Positions(ups, fromSlot, head, 0);
            && t.phase.Streaming? && t.streamMsgs == n && t.replay == s.replay && t.latest == s.latest
            && t.replayFrom == s.replayFrom && t.rejections == s.rejections
            && Within(ups, ps) && t.cover.delivered == s.cover.delivered + ps[..n] && t.lastSlot >= s.lastSlot
            && (n == 1 ==> t.lastSlot == Advance(true, s.lastSlot, ups[ps[0]]))
            && forall k :: 0 <= k < n && Tracks(true, ups[ps[k]]) ==> t.lastSlot >= SlotAt(ups, ps[k])
  {
    var opening := [PickNode(true), ConnectOk(head)];
    var o := Opening(ups, s, fromSlot, head);
    var pump := Pump(ups, o, n);
    ExecConcat(ups, s, opening, pump);
    AfterDelivers(ups, o, n);
    t := After(ups, o, n);
    if n == 1 {
      assert After(ups, o, 0) == o;
    }
    forall k | 0 <= k < n && Tracks(true, ups[o.stream[k]]) ensures t.lastSlot >= SlotAt(ups, o.stream[k]) {
      AfterSees(ups, o, n, k);
    }
    es := opening + pump;
  }

  /** The stream ends by itself after at least one message. */
  lemma Again(ups: Upstream, s: State)
    requires Within(ups, s.stream) && s.phase.Streaming? && s.streamMsgs > 0 && s.replay && s.lastSlot > 0
    ensures var t := Exec(ups, s, [UpstreamEof, Wake]);
            && t.phase.Picking? && t.replayFrom == Some(s.lastSlot) && t.rejections == s.rejections
            && t.cover == s.cover && t.lastSlot == s.lastSlot && t.stream == s.stream
  {
    ExecTwo(ups, s, UpstreamEof, Wake);
  }

  /** A first stream that has got to update `j`. */
  lemma FirstVisit(ups: Upstream, first: SubscribeRequest, j: nat) returns (es: seq<Event>, ps: seq<nat>)
    requires j < |ups| && Anchors(ups, true, j)
    ensures forall e :: e in es ==> Steady(e)
    ensures ps != [] && ps[|ps| - 1] == j && forall m :: 0 <= m < |ps| ==> ps[m] <= j
    ensures var s := Exec(ups, Start(true, first), es);
            && s.phase.Streaming? && s.rejections == 0 && s.cover.delivered == ps && s.streamMsgs > 0 && s.replay
            && s.lastSlot >= SlotAt(ups, j)
  {
    var s0 := Start(true, first);
    var k := PositionOf(ups, first.fromSlot, j, j);
    var all := Positions(ups, first.fromSlot, j, 0);
    var visit, t := Visit(ups, s0, first.fromSlot, j, k + 1);
    assert all[k] == j && Tracks(true, ups[all[k]]);
    assert t.lastSlot >= SlotAt(ups, all[k]);
    es, ps := visit, all[..k + 1];
    assert t.cover.delivered == [] + ps == ps;
  }

  /** A first stream that ends right after update `j`. */
  lemma UpTo(ups: Upstream, first: SubscribeRequest, j: nat) returns (es: seq<Event>, ps: seq<nat>)
    requires j < |ups| && Anchors(ups, true, j)
    ensures forall e :: e in es ==> Steady(e)
    ensures ps != [] && ps[|ps| - 1] == j && forall m :: 0 <= m < |ps| ==> ps[m] <= j
    ensures var s := Exec(ups, Start(true, first), es);
            && s.phase.Picking? && s.rejections == 0 && s.cover.delivered == ps
            && s.replayFrom == Some(s.lastSlot) && s.lastSlot >= SlotAt(ups, j)
  {
    es, ps := FirstVisit(ups, first, j);
    Again(ups, Exec(ups, Start(true, first), es));
    ExecConcat(ups, Start(true, first), es, [UpstreamEof, Wake]);
    es := es + [UpstreamEof, Wake];
  }

  /** A first stream that ends right after its first update `j`, which shows no slot. */
  lemma UpToUnslotted(ups: Upstream, first: SubscribeRequest, j: nat) returns (es: seq<Event>)
    requires j < |ups| && !Anchors(ups, true, j) && NoneRequested(ups, first.fromSlot, j)
    ensures forall e :: e in es ==> Steady(e)
    ensures var s := Exec(ups, Start(true, first), es);
            && s.phase.Picking? && s.rejections == 0 && s.cover.delivered == [j]
            && s.replayFrom.None? && s.latest == first
  {
    var s0 := Start(true, first);
    var k := PositionOf(ups, first.fromSlot, j, j);
    var all := Positions(ups, first.fromSlot, j, 0);
    PositionsExact(ups, first.fromSlot, j, 0);
    assert all[0] in all && Sent(ups, first.fromSlot, j, all[0]);
    assert all[0] < j ==> Requested(ups, first.fromSlot, all[0]);
    assert all[0] == j;
    var visit, t := Visit(ups, s0, first.fromSlot, j, 1);
    assert t.cover.delivered == [] + all[..1] == [j];
    AgainLive(ups, t);
    ExecConcat(ups, s0, visit, [UpstreamEof, Wake]);
    es := visit + [UpstreamEof, Wake];
  }

  lemma AgainLive(ups: Upstream, s: State)
    requires Within(ups, s.stream) && s.phase.Streaming? && s.replayFrom.None? && s.lastSlot == 0
    ensures var t := Exec(ups, s, [UpstreamEof, Wake]);
            && t.phase.Picking? && t.replayFrom.None? && t.rejections == s.rejections
            && t.cover == s.cover && t.latest == s.latest && t.stream == s.stream
  {
    ExecTwo(ups, s, UpstreamEof, Wake);
  }

  /** Then a stream that has got to update `i + 1` and carries no `i`. */
  lemma Onwards(ups: Upstream, s: State, fromSlot: Option<nat>, i: nat) returns (es: seq<Event>, qs: seq<nat>)
    requires Within(ups, s.stream) && s.phase.Picking? && fromSlot == UpstreamRequest(s).fromSlot
    requires i + 1 < |ups| && !Sent(ups, fromSlot, i + 1, i)
    ensures forall e :: e in es ==> Steady(e)
    ensures qs != [] && qs[|qs| - 1] == i + 1 && i !in qs
    ensures Exec(ups, s, es).rejections == s.rejections && Exec(ups, s, es).cover.delivered == s.cover.delivered + qs
  {
    PositionsExact(ups, fromSlot, i + 1, 0);
    var m := PositionOf(ups, fromSlot, i + 1, i + 1);
    var visit, _ := Visit(ups, s, fromSlot, i + 1, m + 1);
    es, qs := visit, Positions(ups, fromSlot, i + 1, 0)[..m + 1];
  }

  lemma LateIsLost(ups: Upstream, first: SubscribeRequest, i: nat)
    requires i + 1 < |ups| && Late(ups, true, i)
    ensures exists es :: LosesQuietly(ups, first, es, i)
  {
    var j :| 0 <= j < i && Tracks(true, ups[j]) && SlotAt(ups, j) > SlotAt(ups, i);
    var es, ps := UpTo(ups, first, j);
    var s := Exec(ups, Start(true, first), es);
    var fs, qs := Onwards(ups, s, s.replayFrom, i);
    ExecConcat(ups, Start(true, first), es, fs);
    JumpSkips(ups, first.fromSlot, ps, qs, i);
    assert LosesQuietly(ups, first, es + fs, i);
  }

  lemma ExposedIsLost(ups: Upstream, first: SubscribeRequest, i: nat)
    requires i + 1 < |ups| && Exposed(ups, true, first.fromSlot, i)
    ensures exists es :: LosesQuietly(ups, first, es, i)
  {
    var j :| 0 <= j < i && !Anchors(ups, true, j) && NoneRequested(ups, first.fromSlot, j);
    var es := UpToUnslotted(ups, first, j);
    var fs, qs := Onwards(ups, Exec(ups, Start(true, first), es), first.fromSlot, i);
    ExecConcat(ups, Start(true, first), es, fs);
    JumpSkips(ups, first.fromSlot, [j], qs, i);
    assert LosesQuietly(ups, first, es + fs, i);
  }

  // ---------------------------------------------------------------------------------------------
  // The task itself
  // ---------------------------------------------------------------------------------------------

  class UpstreamManager {
    const ups: Upstream
    const replay: bool
    const first: SubscribeRequest
    var latest: SubscribeRequest
    var lastSlot: nat
    var replayFrom: Option<nat>
    var clientOpen: bool
    var streamMsgs: nat
    var forwarded: nat
    var phase: Phase
    var client: seq<Result<SubscribeUpdate, Status>>
    var request: SubscribeRequest
    var stream: seq<nat>
    var next: nat
    ghost var consumed: seq<SubscribeRequest>
    ghost var received: seq<SubscribeUpdate>
    ghost var streamsEnded: nat
    ghost var rejections: nat
    ghost var cover: Cover

    ghost function View(): State
      reads this
    {
      State(replay, latest, lastSlot, replayFrom, clientOpen, streamMsgs, forwarded, phase, client, request,
            stream, next, first, consumed, received, streamsEnded, rejections, cover)
    }

    constructor (ups: Upstream, replay: bool, first: SubscribeRequest)
      ensures View() == Start(replay, first) && this.ups == ups
    {
      this.ups, this.replay, this.first, latest, request := ups, replay, first, first, first;
      lastSlot, replayFrom, clientOpen, streamMsgs, forwarded := 0, None, true, 0, 0;
      phase, client, stream, next := Picking, [], [], 0;
      consumed, received, streamsEnded, rejections, cover := [], [], 0, 0, NOTHING;
    }

    method Connect(head: nat)
      requires phase.Connecting?
      modifies this
      ensures View() == OnConnected(ups, old(View()), head)
    {
      stream, next := Positions(ups, request.fromSlot, head, 0), 0;
      cover := Open(ups, true, cover, stream, rejections);
      phase, streamMsgs := Streaming, 0;
    }

    method StreamEnded(rejection: bool)
      modifies this
      ensures View() == EndStream(old(View()), rejection)
    {
      var rejected := replayFrom.Some? && (streamMsgs == 0 || rejection);
      if !replay {
        replayFrom := None;
      } else if rejected {
        replayFrom := None;
      } else if lastSlot > 0 {
        replayFrom := Some(lastSlot);
      } else {
        replayFrom := None;
      }
      streamsEnded := streamsEnded + 1;
      rejections := rejections + if rejected then 1 else 0;
      phase := Sleeping;
    }

    method ClientMessage(msg: SubscribeRequest, accepted: bool)
      modifies this
      ensures View() == OnClientMsg(old(View()), msg, accepted)
    {
      consumed := consumed + [msg];
      if msg.ping.None? {
        latest := msg;
      }
      if !accepted {
        StreamEnded(false);
      } else if msg.ping.None? {
        request := msg;
      }
    }

    method Take(update: SubscribeUpdate)
      modifies this
      ensures View() == TakeIn(old(View()), update)
    {
      streamMsgs := streamMsgs + 1;
      if update.payload.Some? && update.payload.value.SlotUpdate? && update.payload.value.slot > lastSlot {
        lastSlot := update.payload.value.slot;
      }
      received := received + [update];
      phase := Forwarding(update);
    }

    method UpstreamMessage(a: Arrival)
      requires Within(ups, stream)
      modifies this
      ensures View() == OnUpstream(ups, old(View()), a)
    {
      if a.Other? {
        Take(a.update);
      } else if next < |stream| {
        var i := stream[next];
        Take(SubscribeUpdate([], Some(ups[i])));
        cover := Deliver(ups, true, cover, i);
        next := next + 1;
      }
    }

    /** The task under an arbitrary schedule. */
    method Run(es: seq<Event>)
      requires Within(ups, stream)
      modifies this
      ensures View() == Exec(ups, old(View()), es)
    {
      for i := 0 to |es|
        invariant View() == Exec(ups, old(View()), es[..i])
      {
        assert es[..i + 1][..i] == es[..i];
        Turn(es[i]);
      }
      assert es[..|es|] == es;
    }

    method Pick(found: bool)
      requires Within(ups, stream)
      modifies this
      ensures View() == Next(ups, old(View()), PickNode(found))
    {
      if phase.Picking? {
        if found {
          request := latest;
          if replayFrom.Some? {
            request := request.(fromSlot := replayFrom);
          }
        }
        phase := if found then Connecting else Sleeping;
      }
    }

    method ConnectFailed(status: Status)
      modifies this
      ensures View() == OnConnectErr(old(View()), status)
    {
      if replayFrom.Some? && IsReplayRejection(status) {
        replayFrom, rejections := None, rejections + 1;
      }
      phase := Sleeping;
    }

    method Turn(e: Event)
      requires Within(ups, stream)
      modifies this
      ensures View() == Next(ups, old(View()), e)
    {
      match e
      case PickNode(found) => Pick(found);
      case ConnectOk(head) => if phase.Connecting? { Connect(head); }
      case ConnectErr(status) => if phase.Connecting? { ConnectFailed(status); }
      case ClientMsg(msg, accepted) => if phase.Streaming? && clientOpen { ClientMessage(msg, accepted); }
      case ClientHalfClose => if phase.Streaming? { clientOpen := false; }
      case FromUpstream(a) => if phase.Streaming? { UpstreamMessage(a); }
      case UpstreamErr(status) => if phase.Streaming? { StreamEnded(IsReplayRejection(status)); }
      case UpstreamEof => if phase.Streaming? { StreamEnded(false); }
      case Permit =>
        if phase.Forwarding? {
          client := client + [Ok(phase.msg)];
          forwarded := forwarded + 1;
          phase := Streaming;
        }
      case Wake => if phase.Sleeping? { phase := Picking; }
      case Cancel => if Interruptible(phase) { phase := Done(Cancelled); }
      case GoneAway => if Interruptible(phase) { phase := Done(ClientGone); }
    }
  }
}
