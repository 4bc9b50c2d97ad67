/**
 The per-client forwarder over the lossy broadcast ring. The ring is an unbounded log of which the last
 `capacity` entries are retained; a receiver that falls behind jumps to the oldest retained entry. The
 environment (publishers, client, supervisor) acts between any two steps of the forwarder.
 */
module Forwarder {
  import opened Prelude
  import opened Geyser
  import opened Filters

  datatype Item = Forwarded(update: SubscribeUpdate) | PongReply(update: SubscribeUpdate) | DataLoss(dropped: nat)

  datatype Reason = Cancelled | ResponseDropped | SlowConsumer | BroadcastClosed

  datatype Pc =
    | Head
    | Sending(fwd: SubscribeUpdate)     // waiting for room in the client channel
    | SendingPong(pong: SubscribeUpdate)
    | Cutting(dropped: nat)             // waiting for room for the DATA_LOSS status
    | Closed(reason: Reason)

  /** A run of log positions [from, to) the receiver skipped. */
  datatype Loss = Loss(from: nat, to: nat)

  datatype State = State(
    capacity: nat,
    maxLagEvents: nat,
    filters: CompiledFilters,
    log: seq<SubscribeUpdate>,
    senderGone: bool,
    cursor: nat,
    forwarded: nat,
    lagEvents: nat,
    lagMessages: nat,
    items: seq<Item>,
    pc: Pc,
    // history
    start: nat,          // log position at subscription
    served: nat,         // log position up to which every entry has been dealt with
    skipped: nat,        // entries read and not forwarded
    losses: seq<Loss>,
    pongs: seq<SubscribeUpdate>)   // replies to client pings, taken up in order

  datatype Event =
    | Publish(update: SubscribeUpdate) | SenderGone
    | Recv | Room | ClientPing(pong: SubscribeUpdate)
    | Cancel | DropResponse

  function Subscribe(capacity: nat, maxLagEvents: nat, filters: CompiledFilters, log: seq<SubscribeUpdate>): State {
    State(capacity, maxLagEvents, filters, log, false, |log|, 0, 0, 0, [], Head, |log|, |log|, 0, [], [])
  }

  function Oldest(s: State): nat {
    if |s.log| > s.capacity then |s.log| - s.capacity else 0
  }

  /** What the client is shown of one log entry. */
  function Shown(filters: CompiledFilters, u: SubscribeUpdate): seq<SubscribeUpdate> {
    if IsPong(u) then []
    else match MatchUpdate(filters, u)
      case None => []
      case Some(names) => [u.(filters := names)]
  }

  function OnRecv(s: State): State {
    var oldest := Oldest(s);
    if s.cursor < oldest then
      var n := oldest - s.cursor;
      s.(lagEvents := s.lagEvents + 1, lagMessages := s.lagMessages + n, cursor := oldest,
         served := oldest, losses := s.losses + [Loss(s.cursor, oldest)],
         pc := if s.maxLagEvents != 0 && s.lagEvents + 1 >= s.maxLagEvents then Cutting(n) else Head)
    else if s.cursor < |s.log| then
      var u := s.log[s.cursor];
      var s := s.(cursor := s.cursor + 1);
      if IsPong(u) || MatchUpdate(s.filters, u).None? then
        s.(served := s.cursor, skipped := s.skipped + 1)
      else
        s.(pc := Sending(u.(filters := MatchUpdate(s.filters, u).value)))
    else if s.senderGone then s.(pc := Closed(BroadcastClosed))
    else s
  }

  function OnRoom(s: State): State {
    match s.pc
    case Sending(u) =>
      s.(items := s.items + [Forwarded(u)], forwarded := s.forwarded + 1, served := s.cursor, pc := Head)
    case SendingPong(u) => s.(items := s.items + [PongReply(u)], pc := Head)
    case Cutting(n) => s.(items := s.items + [DataLoss(n)], pc := Closed(SlowConsumer))
    case _ => s
  }

  function Interrupt(s: State, reason: Reason): State {
    if s.pc.Head? || s.pc.Sending? || s.pc.SendingPong? then s.(pc := Closed(reason))
    else if s.pc.Cutting? && reason.ResponseDropped? then s.(pc := Closed(SlowConsumer))
    else s
  }

  function Next(s: State, e: Event): State {
    match e
    case Publish(u) => if s.senderGone then s else s.(log := s.log + [u])
    case SenderGone => s.(senderGone := true)
    case Recv => if s.pc.Head? then OnRecv(s) else s
    case Room => OnRoom(s)
    case ClientPing(u) =>   // the select is biased: pongs are polled only when the ring has nothing
      if s.pc.Head? && s.cursor == |s.log| && !s.senderGone then
        s.(pc := SendingPong(u), pongs := s.pongs + [u])
      else s
    case Cancel => Interrupt(s, Cancelled)
    case DropResponse => Interrupt(s, ResponseDropped)
  }

  function Exec(s: State, es: seq<Event>): State {
    if es == [] then s else Next(Exec(s, es[..|es| - 1]), es[|es| - 1])
  }

  // ---------------------------------------------------------------------------------------------
  // What the client should have seen
  // ---------------------------------------------------------------------------------------------

  /** The filtered image of the contiguous log segment [a, b). */
  function Image(filters: CompiledFilters, log: seq<SubscribeUpdate>, a: nat, b: nat): seq<SubscribeUpdate>
    requires b <= |log|
  {
    if a >= b then [] else Image(filters, log, a, b - 1) + Shown(filters, log[b - 1])
  }

  /** The lost runs are disjoint, nonempty, in order, and lie within [start, end). */
  ghost predicate Ordered(start: nat, losses: seq<Loss>, end: nat) {
    if losses == [] then start <= end
    else
      var last := losses[|losses| - 1];
      last.from < last.to <= end && Ordered(start, losses[..|losses| - 1], last.from)
  }

  /** The filtered image of [start, end) with the lost runs cut out. */
  ghost function Kept(filters: CompiledFilters, log: seq<SubscribeUpdate>, start: nat, end: nat, losses: seq<Loss>)
    : seq<SubscribeUpdate>
    requires end <= |log| && Ordered(start, losses, end)
    decreases |losses|
  {
    if losses == [] then Image(filters, log, start, end)
    else
      var last := losses[|losses| - 1];
      Kept(filters, log, start, last.from, losses[..|losses| - 1]) + Image(filters, log, last.to, end)
  }

  ghost function Lost(losses: seq<Loss>): int {
    if losses == [] then 0
    else Lost(losses[..|losses| - 1]) + losses[|losses| - 1].to - losses[|losses| - 1].from
  }

  /** The updates among the items the client has received. */
  function Delivered(items: seq<Item>): seq<SubscribeUpdate> {
    if items == [] then []
    else Delivered(items[..|items| - 1]) +
         (if items[|items| - 1].Forwarded? then [items[|items| - 1].update] else [])
  }

  lemma {:induction false} ImageStable(filters: CompiledFilters, log: seq<SubscribeUpdate>, u: SubscribeUpdate, a: nat, b: nat)
    requires b <= |log|
    ensures Image(filters, log + [u], a, b) == Image(filters, log, a, b)
  {
    if a < b {
      ImageStable(filters, log, u, a, b - 1);
    }
  }

  lemma {:induction false} KeptStable(filters: CompiledFilters, log: seq<SubscribeUpdate>, u: SubscribeUpdate,
                                      start: nat, end: nat, losses: seq<Loss>)
    requires end <= |log| && Ordered(start, losses, end)
    ensures Kept(filters, log + [u], start, end, losses) == Kept(filters, log, start, end, losses)
    decreases |losses|
  {
    if losses == [] {
      ImageStable(filters, log, u, start, end);
    } else {
      var last := losses[|losses| - 1];
      ImageStable(filters, log, u, last.to, end);
      KeptStable(filters, log, u, start, last.from, losses[..|losses| - 1]);
    }
  }

  lemma KeptNext(filters: CompiledFilters, log: seq<SubscribeUpdate>, start: nat, end: nat, losses: seq<Loss>)
    requires end < |log| && Ordered(start, losses, end)
    ensures Ordered(start, losses, end + 1)
    ensures Kept(filters, log, start, end + 1, losses) == Kept(filters, log, start, end, losses) + Shown(filters, log[end])
  {
  }

  lemma KeptLoss(filters: CompiledFilters, log: seq<SubscribeUpdate>, start: nat, end: nat, losses: seq<Loss>, to: nat)
    requires end < to <= |log| && Ordered(start, losses, end)
    ensures Ordered(start, losses + [Loss(end, to)], to)
    ensures Kept(filters, log, start, to, losses + [Loss(end, to)]) == Kept(filters, log, start, end, losses)
    ensures Lost(losses + [Loss(end, to)]) == Lost(losses) + to - end
  {
    assert (losses + [Loss(end, to)])[..|losses|] == losses;
  }

  lemma DeliveredSnoc(items: seq<Item>, x: Item)
    ensures Delivered(items + [x]) == Delivered(items) + (if x.Forwarded? then [x.update] else [])
  {
    assert (items + [x])[..|items|] == items;
  }

  // ---------------------------------------------------------------------------------------------
  // Invariants
  // ---------------------------------------------------------------------------------------------

  /** Everything up to `served` was shown, except the recorded losses. */
  ghost predicate StreamInv(s: State) {
    && s.served <= s.cursor <= |s.log|
    && Ordered(s.start, s.losses, s.served)
    && Delivered(s.items) == Kept(s.filters, s.log, s.start, s.served, s.losses)
    && (s.pc.Head? || s.pc.SendingPong? || s.pc.Cutting? ==> s.served == s.cursor)
    && (s.pc.Sending? ==> s.served + 1 == s.cursor && Shown(s.filters, s.log[s.served]) == [s.pc.fwd])
  }

  ghost predicate CountInv(s: State) {
    && s.served - s.start == s.forwarded + s.skipped + s.lagMessages
    && s.lagMessages == Lost(s.losses)
    && s.lagEvents == |s.losses|
    && s.forwarded == |Delivered(s.items)|
  }

  /** A lag either stays below the limit or ends the stream. */
  ghost predicate CutInv(s: State) {
    && (s.maxLagEvents != 0 && !s.pc.Cutting? && s.pc != Closed(SlowConsumer) ==> |s.losses| < s.maxLagEvents)
    && (s.pc.Cutting? || s.pc == Closed(SlowConsumer) ==>
          && s.maxLagEvents != 0
          && |s.losses| == s.maxLagEvents
          && s.served == s.losses[|s.losses| - 1].to)
    && (s.pc.Cutting? ==> s.pc.dropped == s.losses[|s.losses| - 1].to - s.losses[|s.losses| - 1].from)
    && (forall i :: 0 <= i < |s.items| && s.items[i].DataLoss? ==>
          && i == |s.items| - 1
          && s.pc == Closed(SlowConsumer)
          && s.items[i].dropped == s.losses[|s.losses| - 1].to - s.losses[|s.losses| - 1].from)
  }

  /** The pongs among the items the client has received. */
  function Replies(items: seq<Item>): seq<SubscribeUpdate> {
    if items == [] then []
    else Replies(items[..|items| - 1]) +
         (if items[|items| - 1].PongReply? then [items[|items| - 1].update] else [])
  }

  lemma RepliesSnoc(items: seq<Item>, x: Item)
    ensures Replies(items + [x]) == Replies(items) + (if x.PongReply? then [x.update] else [])
  {
    assert (items + [x])[..|items|] == items;
  }

  /** Every ping taken up is answered, in order; at most the one in hand is lost when the stream ends. */
  ghost predicate PongInv(s: State) {
    match s.pc
    case SendingPong(u) => s.pongs == Replies(s.items) + [u]
    case Closed(_) => Replies(s.items) == s.pongs || (s.pongs != [] && Replies(s.items) == s.pongs[..|s.pongs| - 1])
    case _ => s.pongs == Replies(s.items)
  }

  lemma PongRoom(s: State)
    requires PongInv(s)
    ensures PongInv(OnRoom(s))
  {
    var t := OnRoom(s);
    if t.items != s.items {
      RepliesSnoc(s.items, t.items[|s.items|]);
    }
  }

  lemma PongInterrupt(s: State, reason: Reason)
    requires PongInv(s)
    ensures PongInv(Interrupt(s, reason))
  {
    if s.pc.SendingPong? {
      assert s.pongs[..|s.pongs| - 1] == Replies(s.items);
    }
  }

  lemma PongStep(s: State, e: Event)
    requires PongInv(s)
    ensures PongInv(Next(s, e))
  {
    match e
    case Room => PongRoom(s);
    case Cancel => PongInterrupt(s, Cancelled);
    case DropResponse => PongInterrupt(s, ResponseDropped);
    case _ =>
  }

  lemma StreamPublish(s: State, u: SubscribeUpdate)
    requires StreamInv(s)
    ensures StreamInv(s.(log := s.log + [u]))
  {
    KeptStable(s.filters, s.log, u, s.start, s.served, s.losses);
  }

  lemma StreamLag(s: State)
    requires StreamInv(s) && s.pc.Head? && s.cursor < Oldest(s)
    ensures StreamInv(OnRecv(s))
  {
    KeptLoss(s.filters, s.log, s.start, s.served, s.losses, Oldest(s));
    assert OnRecv(s).losses == s.losses + [Loss(s.served, Oldest(s))];
  }

  lemma StreamTake(s: State)
    requires StreamInv(s) && s.pc.Head? && Oldest(s) <= s.cursor < |s.log|
    ensures StreamInv(OnRecv(s))
  {
    KeptNext(s.filters, s.log, s.start, s.served, s.losses);
    assert OnRecv(s).losses == s.losses && OnRecv(s).items == s.items;
  }

  lemma StreamRecv(s: State)
    requires StreamInv(s) && s.pc.Head?
    ensures StreamInv(OnRecv(s))
  {
    if s.cursor < Oldest(s) {
      StreamLag(s);
    } else if s.cursor < |s.log| {
      StreamTake(s);
    }
  }

  lemma StreamRoom(s: State)
    requires StreamInv(s)
    ensures StreamInv(OnRoom(s))
  {
    var t := OnRoom(s);
    if s.pc.Sending? {
      KeptNext(s.filters, s.log, s.start, s.served, s.losses);
    }
    if t.items != s.items {
      DeliveredSnoc(s.items, t.items[|s.items|]);
    }
  }

  lemma StreamStep(s: State, e: Event)
    requires StreamInv(s)
    ensures StreamInv(Next(s, e))
  {
    match e
    case Publish(u) => StreamPublish(s, u);
    case Recv => if s.pc.Head? { StreamRecv(s); }
    case Room => StreamRoom(s);
    case _ =>
  }

  lemma CountStep(s: State, e: Event)
    requires StreamInv(s) && CountInv(s)
    ensures CountInv(Next(s, e))
  {
    match e
    case Recv => if s.pc.Head? { CountRecv(s); }
    case Room => CountRoom(s);
    case _ =>
      var t := Next(s, e);
      assert t.served == s.served && t.losses == s.losses && t.items == s.items;
  }

  lemma CountRecv(s: State)
    requires StreamInv(s) && CountInv(s) && s.pc.Head?
    ensures CountInv(OnRecv(s))
  {
    if s.cursor < Oldest(s) {
      KeptLoss(s.filters, s.log, s.start, s.served, s.losses, Oldest(s));
    }
  }

  lemma CountRoom(s: State)
    requires StreamInv(s) && CountInv(s)
    ensures CountInv(OnRoom(s))
  {
    var t := OnRoom(s);
    if t.items != s.items {
      DeliveredSnoc(s.items, t.items[|s.items|]);
    }
  }

  lemma CutStep(s: State, e: Event)
    requires CountInv(s) && CutInv(s)
    ensures CutInv(Next(s, e))
  {
  }

  ghost predicate Inv(s: State) {
    StreamInv(s) && CountInv(s) && CutInv(s) && PongInv(s)
  }

  lemma InvStep(s: State, e: Event)
    requires Inv(s)
    ensures Inv(Next(s, e))
  {
    assert StreamInv(Next(s, e)) by { StreamStep(s, e); }
    assert CountInv(Next(s, e)) by { CountStep(s, e); }
    assert CutInv(Next(s, e)) by { CutStep(s, e); }
    assert PongInv(Next(s, e)) by { PongStep(s, e); }
  }

  lemma InitInv(capacity: nat, maxLagEvents: nat, filters: CompiledFilters, log: seq<SubscribeUpdate>)
    ensures Inv(Subscribe(capacity, maxLagEvents, filters, log))
  {
  }

  lemma SettingsStep(s: State, e: Event)
    ensures var t := Next(s, e);
            t.maxLagEvents == s.maxLagEvents && t.filters == s.filters && t.start == s.start && s.log <= t.log
  {
  }

  lemma {:induction false} RunInv(capacity: nat, maxLagEvents: nat, filters: CompiledFilters,
                                  log: seq<SubscribeUpdate>, es: seq<Event>)
    ensures var s := Exec(Subscribe(capacity, maxLagEvents, filters, log), es);
            Inv(s) && s.maxLagEvents == maxLagEvents && s.filters == filters && s.start == |log|
  {
    var s0 := Subscribe(capacity, maxLagEvents, filters, log);
    if es == [] {
      InitInv(capacity, maxLagEvents, filters, log);
    } else {
      RunInv(capacity, maxLagEvents, filters, log, es[..|es| - 1]);
      var s, e := Exec(s0, es[..|es| - 1]), es[|es| - 1];
      assert Exec(s0, es) == Next(s, e);
      assert Inv(Next(s, e)) by { InvStep(s, e); }
      SettingsStep(s, e);
    }
  }

  /**
   For every ring, schedule and filter set: the client has received exactly the filtered image of the log
   from its subscription point on, less the recorded losses; and at every loop head the cursor's advance is
   accounted for.
   */
  lemma DeliveryExact(capacity: nat, maxLagEvents: nat, filters: CompiledFilters,
                      log: seq<SubscribeUpdate>, es: seq<Event>)
    ensures var s := Exec(Subscribe(capacity, maxLagEvents, filters, log), es);
            && s.served <= |s.log| && Ordered(|log|, s.losses, s.served)
            && Delivered(s.items) == Kept(filters, s.log, |log|, s.served, s.losses)
            && (s.pc.Head? ==> s.cursor == s.served && s.cursor - |log| == s.forwarded + s.skipped + s.lagMessages)
            && s.lagMessages == Lost(s.losses) && s.lagEvents == |s.losses| && s.forwarded == |Delivered(s.items)|
  {
    RunInv(capacity, maxLagEvents, filters, log, es);
  }

  /** Pings are answered in order, whatever the ring does meanwhile. */
  lemma PongsInOrder(capacity: nat, maxLagEvents: nat, filters: CompiledFilters,
                     log: seq<SubscribeUpdate>, es: seq<Event>)
    ensures var s := Exec(Subscribe(capacity, maxLagEvents, filters, log), es);
            Replies(s.items) <= s.pongs && |s.pongs| <= |Replies(s.items)| + 1
            && (s.pc.Head? ==> Replies(s.items) == s.pongs)
  {
    RunInv(capacity, maxLagEvents, filters, log, es);
  }

  /**
   At most max_lag_events - 1 losses go unreported: when the limit is reached nothing is shown after the
   last loss, and the DATA_LOSS status, if the client is still there to get it, is the last item.
   */
  lemma LagLimit(capacity: nat, maxLagEvents: nat, filters: CompiledFilters,
                 log: seq<SubscribeUpdate>, es: seq<Event>)
    requires maxLagEvents > 0
    ensures var s := Exec(Subscribe(capacity, maxLagEvents, filters, log), es);
            && |s.losses| <= maxLagEvents
            && (|s.losses| == maxLagEvents ==>
                  && s.served == s.losses[maxLagEvents - 1].to
                  && (s.pc.Cutting? || s.pc == Closed(SlowConsumer)))
            && forall i :: 0 <= i < |s.items| && s.items[i].DataLoss? ==>
                 i == |s.items| - 1 && |s.losses| == maxLagEvents && s.pc == Closed(SlowConsumer)
  {
    RunInv(capacity, maxLagEvents, filters, log, es);
  }

  /** With the default limit of one, there are no holes: the client sees one contiguous segment. */
  lemma NoSilentHoles(capacity: nat, filters: CompiledFilters, log: seq<SubscribeUpdate>, es: seq<Event>)
    ensures var s := Exec(Subscribe(capacity, 1, filters, log), es);
            var end := if s.losses == [] then s.served else s.losses[0].from;
            end <= |s.log| && Delivered(s.items) == Image(filters, s.log, |log|, end)
  {
    DeliveryExact(capacity, 1, filters, log, es);
    LagLimit(capacity, 1, filters, log, es);
    OneLoss(Exec(Subscribe(capacity, 1, filters, log), es), filters, |log|);
  }

  lemma OneLoss(s: State, filters: CompiledFilters, start: nat)
    requires s.served <= |s.log| && Ordered(start, s.losses, s.served)
    requires |s.losses| == 1 ==> s.served == s.losses[0].to
    requires |s.losses| <= 1
    ensures var end := if s.losses == [] then s.served else s.losses[0].from;
            end <= |s.log| && Kept(filters, s.log, start, s.served, s.losses) == Image(filters, s.log, start, end)
  {
    if |s.losses| == 1 {
      assert s.losses[..0] == [];
    }
  }

  lemma ExecSnoc(s: State, es: seq<Event>, e: Event)
    ensures Exec(s, es + [e]) == Next(Exec(s, es), e)
  {
    assert (es + [e])[..|es|] == es;
  }

  /** A subscription keeps its starting point and filters, and the log only grows. */
  lemma {:induction false} SettingsRun(capacity: nat, limit: nat, filters: CompiledFilters, log: seq<SubscribeUpdate>, es: seq<Event>)
    ensures var s := Exec(Subscribe(capacity, limit, filters, log), es);
            s.start == |log| && s.filters == filters && log <= s.log
  {
    if es != [] {
      SettingsRun(capacity, limit, filters, log, es[..|es| - 1]);
      SettingsStep(Exec(Subscribe(capacity, limit, filters, log), es[..|es| - 1]), es[|es| - 1]);
    }
  }

  /** One `a`, then n times `b`. */
  function OneThen(a: SubscribeUpdate, b: SubscribeUpdate, n: nat): (log: seq<SubscribeUpdate>)
    ensures |log| == n + 1 && log[0] == a && forall i :: 1 <= i <= n ==> log[i] == b
  {
    if n == 0 then [a] else OneThen(a, b, n - 1) + [b]
  }

  lemma {:induction false} ImageBegins(filters: CompiledFilters, log: seq<SubscribeUpdate>, end: nat)
    requires 1 <= end <= |log| && |Shown(filters, log[0])| == 1
    ensures Shown(filters, log[0]) <= Image(filters, log, 0, end)
  {
    if end == 1 {
      assert Image(filters, log, 0, 0) == [];
    } else {
      ImageBegins(filters, log, end - 1);
    }
  }

  lemma {:induction false} PublishMany(s0: State, a: SubscribeUpdate, b: SubscribeUpdate, n: nat) returns (es: seq<Event>)
    requires !s0.senderGone && s0.log == []
    ensures Exec(s0, es) == s0.(log := OneThen(a, b, n))
  {
    if n == 0 {
      es := [] + [Publish(a)];
      ExecSnoc(s0, [], Publish(a));
    } else {
      es := PublishMany(s0, a, b, n - 1);
      ExecSnoc(s0, es, Publish(b));
      es := es + [Publish(b)];
    }
  }

  /** One update more than the ring holds: the reader lags past the first. */
  lemma LagOnce(capacity: nat, limit: nat, filters: CompiledFilters, a: SubscribeUpdate, b: SubscribeUpdate) returns (es: seq<Event>)
    requires capacity > 0 && limit != 1
    ensures var s := Exec(Subscribe(capacity, limit, filters, []), es);
            && s.cursor == 1 == Oldest(s) && s.pc.Head? && s.items == []
            && s.log == OneThen(a, b, capacity) && s.filters == filters
  {
    var s0 := Subscribe(capacity, limit, filters, []);
    es := PublishMany(s0, a, b, capacity);
    ExecSnoc(s0, es, Recv);
    es := es + [Recv];
  }

  /** A reader that has not lagged delivers a matching update in two steps. */
  lemma DeliverNext(s: State, u: SubscribeUpdate)
    requires s.pc.Head? && Oldest(s) <= s.cursor < |s.log| && s.log[s.cursor] == u
    requires |Shown(s.filters, u)| == 1
    ensures var t := Next(Next(s, Recv), Room);
            t.pc.Head? && t.log == s.log && t.items == s.items + [Forwarded(Shown(s.filters, u)[0])]
  {
    var matched := MatchUpdate(s.filters, u);
    assert !IsPong(u) && matched.Some?;
    assert Next(s, Recv) == s.(cursor := s.cursor + 1, pc := Sending(u.(filters := matched.value)));
  }

  /** For every ring, each limit but one, and no limit at all, lets a client stream on across a hole it is never told about. */
  lemma HigherLimitHasHoles(capacity: nat, limit: nat, filters: CompiledFilters, a: SubscribeUpdate, b: SubscribeUpdate)
    requires capacity > 0 && limit != 1
    requires |Shown(filters, a)| == 1 && |Shown(filters, b)| == 1 && Shown(filters, a) != Shown(filters, b)
    ensures exists es :: var s := Exec(Subscribe(capacity, limit, filters, []), es);
              && s.pc.Head? && s.log == OneThen(a, b, capacity) && Delivered(s.items) == Shown(filters, b)
              && forall end :: 0 <= end <= |s.log| ==> Image(filters, s.log, 0, end) != Delivered(s.items)
  {
    var es := LagOnce(capacity, limit, filters, a, b);
    var s0 := Subscribe(capacity, limit, filters, []);
    DeliverNext(Exec(s0, es), b);
    ExecSnoc(s0, es, Recv);
    ExecSnoc(s0, es + [Recv], Room);
    var t := Exec(s0, es + [Recv] + [Room]);
    DeliveredSnoc([], t.items[0]);
    assert [] + [t.items[0]] == t.items;
    assert Delivered(t.items) == Shown(filters, b);
    NoSuchImage(filters, t.log, Shown(filters, b));
  }

  lemma NoSuchImage(filters: CompiledFilters, log: seq<SubscribeUpdate>, us: seq<SubscribeUpdate>)
    requires log != [] && |Shown(filters, log[0])| == 1 && |us| == 1 && us != Shown(filters, log[0])
    ensures forall end :: 0 <= end <= |log| ==> Image(filters, log, 0, end) != us
  {
    forall end | 0 <= end <= |log| ensures Image(filters, log, 0, end) != us {
      if end > 0 {
        ImageBegins(filters, log, end);
      }
    }
  }

  // ---------------------------------------------------------------------------------------------
  // What the steps lead to
  // ---------------------------------------------------------------------------------------------

  lemma {:induction false} ExecConcat(s: State, es: seq<Event>, fs: seq<Event>)
    ensures Exec(s, es + fs) == Exec(Exec(s, es), fs)
  {
    if fs == [] {
      assert es + fs == es;
    } else {
      var n := |fs| - 1;
      ExecConcat(s, es, fs[..n]);
      assert (es + fs)[..|es + fs| - 1] == es + fs[..n];
    }
  }

  lemma ExecFirst(s: State, e: Event, es: seq<Event>)
    ensures Exec(s, [e] + es) == Exec(Next(s, e), es)
  {
    ExecConcat(s, [e], es);
    assert [e][..0] == [];
  }

  /** A receive skips exactly what the ring has overwritten: all but its last `capacity` entries. */
  lemma LagExact(s: State)
    requires s.pc.Head? && s.cursor <= |s.log|
    ensures var t := Next(s, Recv);
            && t.log == s.log && t.items == s.items
            && (s.cursor + s.capacity < |s.log| ==>
                  && t.cursor == |s.log| - s.capacity && t.losses == s.losses + [Loss(s.cursor, t.cursor)]
                  && (t.pc == Head || t.pc == Cutting(t.cursor - s.cursor))
                  && (t.pc.Cutting? <==> s.maxLagEvents != 0 && s.lagEvents + 1 >= s.maxLagEvents))
            && (s.cursor + s.capacity >= |s.log| ==>
                  t.losses == s.losses && t.cursor == if s.cursor < |s.log| then s.cursor + 1 else s.cursor)
  {
  }

  ghost function Left(s: State): nat
    requires s.cursor <= |s.log|
  {
    2 * (|s.log| - s.cursor) + (if s.pc.Head? || s.pc.Closed? then 0 else 1)
  }

  lemma StepAhead(s: State) returns (e: Event)
    requires s.cursor <= |s.log| && !s.pc.Closed? && !(s.pc.Head? && s.cursor == |s.log|)
    ensures var t := Next(s, e);
            && t.log == s.log && t.cursor <= |t.log| && Left(t) < Left(s)
            && (t.pc.Closed? ==> s.pc.Cutting? && t.pc == Closed(SlowConsumer) && t.items == s.items + [DataLoss(s.pc.dropped)])
  {
    e := if s.pc.Head? then Recv else Room;
  }

  /** With room towards the client, the task always works its way to the end of the log, or cuts the stream and says so. */
  lemma {:induction false} CatchesUp(s: State) returns (es: seq<Event>)
    requires s.cursor <= |s.log| && !s.pc.Closed?
    ensures var t := Exec(s, es);
            && t.log == s.log
            && ((t.pc.Head? && t.cursor == |t.log|) ||
                (t.pc == Closed(SlowConsumer) && t.items != [] && t.items[|t.items| - 1].DataLoss?))
    decreases Left(s)
  {
    es := [];
    if !(s.pc.Head? && s.cursor == |s.log|) {
      var e := StepAhead(s);
      var t := Next(s, e);
      var rest: seq<Event> := [];
      if !t.pc.Closed? {
        rest := CatchesUp(t);
      }
      ExecFirst(s, e, rest);
      es := [e] + rest;
    }
  }

  /** A ping is taken up exactly when the client has caught up with an open broadcast, and then answered with the next room. */
  lemma PingIsAnswered(s: State, pong: SubscribeUpdate)
    ensures if s.pc.Head? && s.cursor == |s.log| && !s.senderGone
            then Exec(s, [ClientPing(pong)] + [Room]) == s.(items := s.items + [PongReply(pong)], pongs := s.pongs + [pong])
            else Next(s, ClientPing(pong)) == s
  {
    ExecFirst(s, ClientPing(pong), [Room]);
    assert [Room][..0] == [];
  }

  /** Every way a stream ends: cancelled, dropped by the client, or at the end of a closed broadcast. */
  lemma StopsAtOnce(s: State)
    requires !s.pc.Closed? && s.cursor <= |s.log|
    ensures !s.pc.Cutting? ==> Next(s, Cancel) == s.(pc := Closed(Cancelled)) && Next(s, DropResponse) == s.(pc := Closed(ResponseDropped))
    ensures s.pc.Cutting? ==> Next(s, Cancel) == s && Next(s, DropResponse) == s.(pc := Closed(SlowConsumer))
    ensures s.pc.Head? && s.cursor == |s.log| ==>
              Next(s, Recv) == if s.senderGone then s.(pc := Closed(BroadcastClosed)) else s
    ensures Next(s, SenderGone) == s.(senderGone := true)
    ensures forall u :: Next(s, Publish(u)) == if s.senderGone then s else s.(log := s.log + [u])
  {
  }

  /** A closed stream stays closed and its items stand. */
  lemma {:induction false} ClosedIsFinal(s: State, es: seq<Event>)
    requires s.pc.Closed?
    ensures Exec(s, es).items == s.items && Exec(s, es).pc == s.pc
  {
    if es != [] {
      ClosedIsFinal(s, es[..|es| - 1]);
    }
  }

  // ---------------------------------------------------------------------------------------------
  // The task itself
  // ---------------------------------------------------------------------------------------------

  class ClientForwarder {
    const capacity: nat
    const maxLagEvents: nat
    const filters: CompiledFilters
    var log: seq<SubscribeUpdate>
    var senderGone: bool
    var cursor: nat
    var forwarded: nat
    var lagEvents: nat
    var lagMessages: nat
    var items: seq<Item>
    var pc: Pc
    ghost var start: nat
    ghost var served: nat
    ghost var skipped: nat
    ghost var losses: seq<Loss>
    ghost var pongs: seq<SubscribeUpdate>

    ghost function View(): State
      reads this
    {
      State(capacity, maxLagEvents, filters, log, senderGone, cursor, forwarded, lagEvents, lagMessages,
            items, pc, start, served, skipped, losses, pongs)
    }

    constructor (capacity: nat, maxLagEvents: nat, filters: CompiledFilters, log: seq<SubscribeUpdate>)
      ensures View() == Subscribe(capacity, maxLagEvents, filters, log)
    {
      this.capacity, this.maxLagEvents, this.filters, this.log := capacity, maxLagEvents, filters, log;
      senderGone, items, pc := false, [], Head;
      cursor, forwarded, lagEvents, lagMessages := |log|, 0, 0, 0;
      start, served, skipped, losses, pongs := |log|, |log|, 0, [], [];
    }

    /** Lagged(n): the receiver jumps to the oldest retained entry. */
    method Lag(oldest: nat)
      requires pc.Head? && cursor < oldest == Oldest(View())
      modifies this
      ensures View() == OnRecv(old(View()))
    {
      var n := oldest - cursor;
      losses := losses + [Loss(cursor, oldest)];
      cursor, served := oldest, oldest;
      lagEvents := lagEvents + 1;
      lagMessages := lagMessages + n;
      if maxLagEvents != 0 && lagEvents >= maxLagEvents {
        pc := Cutting(n);
      }
    }

    /** broadcast_rx.recv() and the handling of its result. */
    method Receive()
      requires pc.Head?
      modifies this
      ensures View() == OnRecv(old(View()))
    {
      var oldest := if |log| > capacity then |log| - capacity else 0;
      if cursor < oldest {
        Lag(oldest);
      } else if cursor < |log| {
        var u := log[cursor];
        cursor := cursor + 1;
        if !IsPong(u) {
          var matched := MatchUpdate(filters, u);
          if matched.Some? {
            pc := Sending(u.(filters := matched.value));
            return;
          }
        }
        served, skipped := cursor, skipped + 1;
      } else if senderGone {
        pc := Closed(BroadcastClosed);
      }
    }

    /** The client channel has room for the item the task is waiting to send. */
    method Deliver()
      modifies this
      ensures View() == OnRoom(old(View()))
    {
      match pc
      case Sending(u) =>
        items := items + [Forwarded(u)];
        forwarded := forwarded + 1;
        served := cursor;
        pc := Head;
      case SendingPong(u) =>
        items := items + [PongReply(u)];
        pc := Head;
      case Cutting(n) =>
        items := items + [DataLoss(n)];
        pc := Closed(SlowConsumer);
      case _ =>
    }

    /** The task under an arbitrary schedule. */
    method Run(es: seq<Event>)
      modifies this
      ensures View() == Exec(old(View()), es)
    {
      for i := 0 to |es|
        invariant View() == Exec(old(View()), es[..i])
      {
        assert es[..i + 1][..i] == es[..i];
        match es[i]
        case Publish(u) => if !senderGone { log := log + [u]; }
        case SenderGone => senderGone := true;
        case Recv => if pc.Head? { Receive(); }
        case Room => Deliver();
        case ClientPing(u) => 
          if pc.Head? && cursor == |log| && !senderGone {
            pc, pongs := SendingPong(u), pongs + [u];
          }
        case Cancel => if pc.Head? || pc.Sending? || pc.SendingPong? { pc := Closed(Cancelled); }
        case DropResponse =>
          if pc.Head? || pc.Sending? || pc.SendingPong? {
            pc := Closed(ResponseDropped);
          } else if pc.Cutting? {
            pc := Closed(SlowConsumer);
          }
      }
      assert es[..|es|] == es;
    }
  }
}
