/** From the regions to one client: the dedup pipeline's broadcasts are the log the forwarder reads. */
module EndToEnd {
  import opened Prelude
  import opened Geyser
  import opened Filters
  import Pipeline = DedupPipeline
  import Worker = DedupWorker
  import Forwarder
  import Replay
  import Single = SingleUpstream

  function UpdatesOf(sent: seq<Pipeline.Broadcast>): seq<SubscribeUpdate> {
    seq(|sent|, i requires 0 <= i < |sent| => sent[i].msg.update)
  }

  ghost predicate NoKeyTwice(us: seq<SubscribeUpdate>) {
    forall i, j :: 0 <= i < j < |us| && ComputeDedupKey(us[i]).Some? ==> ComputeDedupKey(us[i]) != ComputeDedupKey(us[j])
  }

  ghost predicate Matches(filters: CompiledFilters, u: SubscribeUpdate) {
    !IsPong(u) && MatchUpdate(filters, u).Some?
  }

  /** What the client gets of a matching entry: its payload, under the names of the client's filters that match it. */
  ghost predicate Copy(filters: CompiledFilters, v: SubscribeUpdate, u: SubscribeUpdate) {
    v.payload == u.payload && MatchUpdate(filters, u) == Some(v.filters)
  }

  /** Which log entries match. */
  ghost function Visible(filters: CompiledFilters, log: seq<SubscribeUpdate>): (vis: seq<bool>)
    ensures |vis| == |log| && forall k :: 0 <= k < |log| ==> vis[k] == Matches(filters, log[k])
  {
    seq(|log|, k requires 0 <= k < |log| => Matches(filters, log[k]))
  }

  /** The visible positions in [a, b). */
  ghost function ShownAt(vis: seq<bool>, a: nat, b: nat): seq<nat>
    requires b <= |vis|
  {
    if a >= b then [] else ShownAt(vis, a, b - 1) + (if vis[b - 1] then [b - 1] else [])
  }

  /** The updates are copies of the log entries at the given positions, which ascend within [a, b). */
  ghost predicate Follows(filters: CompiledFilters, log: seq<SubscribeUpdate>, a: nat, b: nat, us: seq<SubscribeUpdate>, at: seq<nat>) {
    && |us| == |at|
    && (forall i :: 0 <= i < |at| ==> a <= at[i] < b <= |log| && Copy(filters, us[i], log[at[i]]))
    && (forall i, j :: 0 <= i < j < |at| ==> at[i] < at[j])
  }

  lemma ShownPayload(filters: CompiledFilters, u: SubscribeUpdate)
    ensures |Forwarder.Shown(filters, u)| <= 1
    ensures Forwarder.Shown(filters, u) != [] <==> Matches(filters, u)
    ensures forall i :: 0 <= i < |Forwarder.Shown(filters, u)| ==> Copy(filters, Forwarder.Shown(filters, u)[i], u)
  {
  }

  lemma {:induction false} ShownAtExact(vis: seq<bool>, a: nat, b: nat, k: nat)
    requires b <= |vis|
    ensures k in ShownAt(vis, a, b) <==> a <= k < b && vis[k]
  {
    if a < b {
      ShownAtExact(vis, a, b - 1, k);
    }
  }

  /** What the client is shown of a segment follows the log, position by position, in order. */
  lemma {:induction false} ImageFollowsLog(filters: CompiledFilters, log: seq<SubscribeUpdate>, a: nat, b: nat)
    requires b <= |log|
    ensures Follows(filters, log, a, b, Forwarder.Image(filters, log, a, b), ShownAt(Visible(filters, log), a, b))
  {
    if a < b {
      ImageFollowsLog(filters, log, a, b - 1);
      ImageStep(filters, log, a, b - 1);
    }
  }

  lemma ImageStep(filters: CompiledFilters, log: seq<SubscribeUpdate>, a: nat, b: nat)
    requires a <= b < |log| && Follows(filters, log, a, b, Forwarder.Image(filters, log, a, b), ShownAt(Visible(filters, log), a, b))
    ensures Follows(filters, log, a, b + 1, Forwarder.Image(filters, log, a, b + 1), ShownAt(Visible(filters, log), a, b + 1))
  {
    var us, at := Forwarder.Image(filters, log, a, b), ShownAt(Visible(filters, log), a, b);
    var shown := Forwarder.Shown(filters, log[b]);
    ShownPayload(filters, log[b]);
    FollowsSnoc(filters, log, a, b, us, at, shown);
    assert Forwarder.Image(filters, log, a, b + 1) == us + shown;
    assert ShownAt(Visible(filters, log), a, b + 1) == at + (if shown == [] then [] else [b]);
  }

  lemma FollowsSnoc(filters: CompiledFilters, log: seq<SubscribeUpdate>, a: nat, b: nat, us: seq<SubscribeUpdate>, at: seq<nat>, shown: seq<SubscribeUpdate>)
    requires a <= b < |log| && Follows(filters, log, a, b, us, at)
    requires |shown| <= 1 && forall i :: 0 <= i < |shown| ==> Copy(filters, shown[i], log[b])
    ensures Follows(filters, log, a, b + 1, us + shown, at + (if shown == [] then [] else [b]))
  {
  }

  // The same across the recorded losses

  /** The log positions in [start, end) the client is shown when the lost runs are cut out. */
  ghost function KeptAt(vis: seq<bool>, start: nat, end: nat, losses: seq<Forwarder.Loss>): seq<nat>
    requires end <= |vis| && Forwarder.Ordered(start, losses, end)
    decreases |losses|
  {
    if losses == [] then ShownAt(vis, start, end)
    else
      var last := losses[|losses| - 1];
      KeptAt(vis, start, last.from, losses[..|losses| - 1]) + ShownAt(vis, last.to, end)
  }

  ghost predicate Missed(losses: seq<Forwarder.Loss>, k: nat) {
    exists l :: l in losses && l.from <= k < l.to
  }

  lemma FollowsConcat(filters: CompiledFilters, log: seq<SubscribeUpdate>, a: nat, b: nat, c: nat, d: nat,
                      us: seq<SubscribeUpdate>, at: seq<nat>, vs: seq<SubscribeUpdate>, bt: seq<nat>)
    requires Follows(filters, log, a, b, us, at) && Follows(filters, log, c, d, vs, bt) && a <= b <= c <= d <= |log|
    ensures Follows(filters, log, a, d, us + vs, at + bt)
  {
  }

  lemma {:induction false} LossesWithin(start: nat, losses: seq<Forwarder.Loss>, end: nat)
    requires Forwarder.Ordered(start, losses, end)
    ensures start <= end
    ensures forall l :: l in losses ==> start <= l.from < l.to <= end
  {
    if losses != [] {
      var n := |losses| - 1;
      LossesWithin(start, losses[..n], losses[n].from);
      assert losses == losses[..n] + [losses[n]];
    }
  }

  /** What the client is shown follows the log, position by position, in order, whatever was lost in between. */
  lemma {:induction false} KeptFollowsLog(filters: CompiledFilters, log: seq<SubscribeUpdate>, start: nat, end: nat,
                                          losses: seq<Forwarder.Loss>)
    requires end <= |log| && Forwarder.Ordered(start, losses, end)
    ensures Follows(filters, log, start, end, Forwarder.Kept(filters, log, start, end, losses),
                    KeptAt(Visible(filters, log), start, end, losses))
    decreases |losses|
  {
    if losses == [] {
      ImageFollowsLog(filters, log, start, end);
    } else {
      var vis, rest, last := Visible(filters, log), losses[..|losses| - 1], losses[|losses| - 1];
      LossesWithin(start, rest, last.from);
      KeptFollowsLog(filters, log, start, last.from, rest);
      ImageFollowsLog(filters, log, last.to, end);
      FollowsConcat(filters, log, start, last.from, last.to, end,
                    Forwarder.Kept(filters, log, start, last.from, rest), KeptAt(vis, start, last.from, rest),
                    Forwarder.Image(filters, log, last.to, end), ShownAt(vis, last.to, end));
    }
  }

  lemma {:induction false} KeptAtExact(vis: seq<bool>, start: nat, end: nat, losses: seq<Forwarder.Loss>, k: nat)
    requires end <= |vis| && Forwarder.Ordered(start, losses, end)
    ensures k in KeptAt(vis, start, end, losses) <==> start <= k < end && vis[k] && !Missed(losses, k)
    decreases |losses|
  {
    if losses == [] {
      ShownAtExact(vis, start, end, k);
    } else {
      var rest, last := losses[..|losses| - 1], losses[|losses| - 1];
      LossesWithin(start, rest, last.from);
      KeptAtExact(vis, start, last.from, rest, k);
      ShownAtExact(vis, last.to, end, k);
      assert losses == rest + [last];
      assert Missed(losses, k) <==> Missed(rest, k) || last.from <= k < last.to by {
        assert last in losses;
      }
    }
  }

  lemma SameKey(u: SubscribeUpdate, v: SubscribeUpdate)
    requires u.payload == v.payload
    ensures ComputeDedupKey(u) == ComputeDedupKey(v)
  {
  }

  /**
   Whatever the regions, the evictor and the client do, and whatever the lag limit: if a client is shown one
   key twice, the two broadcasts were accepted at least ttl apart, and shown in the order they were made.
   */
  lemma RepeatsAreTtlApart(ttl: nat, known: set<string>, es: seq<Pipeline.Event>,
                           capacity: nat, limit: nat, filters: CompiledFilters, log: seq<SubscribeUpdate>,
                           fs: seq<Forwarder.Event>, i: nat, j: nat)
    requires var p := Pipeline.Exec(Pipeline.Init(ttl, known), es);
             var s := Forwarder.Exec(Forwarder.Subscribe(capacity, limit, filters, log), fs);
             var us := Forwarder.Delivered(s.items);
             && s.log == UpdatesOf(p.sent)
             && i < j < |us| && ComputeDedupKey(us[i]).Some? && ComputeDedupKey(us[i]) == ComputeDedupKey(us[j])
    ensures var p := Pipeline.Exec(Pipeline.Init(ttl, known), es);
            var s := Forwarder.Exec(Forwarder.Subscribe(capacity, limit, filters, log), fs);
            var us := Forwarder.Delivered(s.items);
            exists x, y :: 0 <= x < y < |p.sent|
                           && us[i].payload == p.sent[x].msg.update.payload
                           && us[j].payload == p.sent[y].msg.update.payload
                           && p.sent[y].accepted - p.sent[x].accepted >= ttl
  {
    var p := Pipeline.Exec(Pipeline.Init(ttl, known), es);
    var s := Forwarder.Exec(Forwarder.Subscribe(capacity, limit, filters, log), fs);
    var us := Forwarder.Delivered(s.items);
    Forwarder.DeliveryExact(capacity, limit, filters, log, fs);
    KeptFollowsLog(filters, s.log, |log|, s.served, s.losses);
    var at := KeptAt(Visible(filters, s.log), |log|, s.served, s.losses);
    var x, y := at[i], at[j];
    SameKey(us[i], s.log[x]);
    SameKey(us[j], s.log[y]);
    Pipeline.LabelledRun(ttl, known, es);
    assert p.sent[x].key == ComputeDedupKey(p.sent[x].msg.update) && p.sent[y].key == ComputeDedupKey(p.sent[y].msg.update);
    Pipeline.DedupSafety(ttl, known, es, x, y);
  }

  /** While nothing is evicted, no client is shown a key twice, whatever its filters and lag limit. */
  lemma DuplicateFree(ttl: nat, known: set<string>, es: seq<Pipeline.Event>,
                      capacity: nat, limit: nat, filters: CompiledFilters, log: seq<SubscribeUpdate>, fs: seq<Forwarder.Event>)
    requires Pipeline.Pop !in es
    requires var p := Pipeline.Exec(Pipeline.Init(ttl, known), es);
             Forwarder.Exec(Forwarder.Subscribe(capacity, limit, filters, log), fs).log == UpdatesOf(p.sent)
    ensures NoKeyTwice(Forwarder.Delivered(Forwarder.Exec(Forwarder.Subscribe(capacity, limit, filters, log), fs).items))
  {
    var s := Forwarder.Exec(Forwarder.Subscribe(capacity, limit, filters, log), fs);
    Forwarder.DeliveryExact(capacity, limit, filters, log, fs);
    SentOnce(ttl, known, es);
    KeptOnce(filters, s.log, |log|, s.served, s.losses);
  }

  /** Where in the log the client's items come from. */
  ghost function ShownPositions(s: Forwarder.State): seq<nat>
    requires s.served <= |s.log| && Forwarder.Ordered(s.start, s.losses, s.served)
  {
    KeptAt(Visible(s.filters, s.log), s.start, s.served, s.losses)
  }

  /** The client's items are the log entries at those positions, in order. */
  ghost predicate ShowsWhatItReads(s: Forwarder.State) {
    && s.served <= |s.log| && Forwarder.Ordered(s.start, s.losses, s.served)
    && Follows(s.filters, s.log, s.start, s.served, Forwarder.Delivered(s.items), ShownPositions(s))
  }

  lemma ClientReads(capacity: nat, limit: nat, filters: CompiledFilters, log: seq<SubscribeUpdate>, fs: seq<Forwarder.Event>)
    ensures var s := Forwarder.Exec(Forwarder.Subscribe(capacity, limit, filters, log), fs);
            ShowsWhatItReads(s) && s.start == |log| && s.filters == filters
  {
    Forwarder.DeliveryExact(capacity, limit, filters, log, fs);
    var s := Forwarder.Exec(Forwarder.Subscribe(capacity, limit, filters, log), fs);
    Forwarder.SettingsRun(capacity, limit, filters, log, fs);
    KeptFollowsLog(filters, s.log, |log|, s.served, s.losses);
  }

  /**
   In every run, what the client has been sent (pongs and DATA_LOSS aside) is one copy of each log entry that its
   filters match and that is no pong, from its subscription on and up to where it has been served, outside the
   recorded losses; in log order, and under the names of the filters that match.
   */
  lemma ItemsExact(capacity: nat, limit: nat, filters: CompiledFilters, log: seq<SubscribeUpdate>, fs: seq<Forwarder.Event>)
    returns (at: seq<nat>)
    ensures var s := Forwarder.Exec(Forwarder.Subscribe(capacity, limit, filters, log), fs);
            var us := Forwarder.Delivered(s.items);
            && s.served <= |s.log| && |at| == |us|
            && (forall i, j :: 0 <= i < j < |at| ==> at[i] < at[j])
            && (forall k: nat :: k in at <==> |log| <= k < s.served && !Missed(s.losses, k)
                                              && !IsPong(s.log[k]) && MatchUpdate(filters, s.log[k]).Some?)
            && (forall i :: 0 <= i < |us| ==> at[i] < |s.log| && us[i].payload == s.log[at[i]].payload
                                              && MatchUpdate(filters, s.log[at[i]]) == Some(us[i].filters))
  {
    ClientReads(capacity, limit, filters, log, fs);
    var s := Forwarder.Exec(Forwarder.Subscribe(capacity, limit, filters, log), fs);
    at := ShownPositions(s);
    forall k: nat
      ensures k in at <==>
              |log| <= k < s.served && !Missed(s.losses, k) && !IsPong(s.log[k]) && MatchUpdate(filters, s.log[k]).Some?
    {
      KeptAtExact(Visible(filters, s.log), s.start, s.served, s.losses, k);
    }
  }

  /** What a mux-routed client with decodable filters is sent, in terms of its request alone. */
  ghost predicate OwedTo(b58: Base58, more: Extension, req: SubscribeRequest, p: Payload) {
    p.Ping? || AsksFor(b58, more, req, p) || Unasked(req, p)
  }

  lemma MatchesIsOwed(b58: Base58, more: Extension, req: SubscribeRequest, u: SubscribeUpdate)
    requires RoutedToMux(FromRequest(b58, req)) && AllDecodable(b58, req)
    ensures Matches(FromRequest(b58, req), u) <==> u.payload.Some? && OwedTo(b58, more, req, u.payload.value)
    ensures Matches(FromRequest(b58, req), u) ==>
              MatchUpdate(FromRequest(b58, req), u).value == OwnNames(b58, req, u.payload.value)
  {
    if u.payload.Some? && !u.payload.value.Ping? && !u.payload.value.Pong? {
      LetThroughExactly(b58, more, req, u);
    }
  }

  /**
   So a mux-routed client whose strings decode is sent, of each log entry it reads outside the losses, exactly what
   its request asks for, plus upstream pings and the statuses and certificates it did not ask for; and every
   update names the filters of its own request.
   */
  lemma SentExactlyToClient(b58: Base58, more: Extension, req: SubscribeRequest,
                            capacity: nat, limit: nat, log: seq<SubscribeUpdate>, fs: seq<Forwarder.Event>)
    returns (at: seq<nat>)
    requires RoutedToMux(FromRequest(b58, req)) && AllDecodable(b58, req)
    ensures var s := Forwarder.Exec(Forwarder.Subscribe(capacity, limit, FromRequest(b58, req), log), fs);
            var us := Forwarder.Delivered(s.items);
            && s.served <= |s.log| && |at| == |us|
            && (forall i, j :: 0 <= i < j < |at| ==> at[i] < at[j])
            && (forall k: nat :: k in at <==> |log| <= k < s.served && !Missed(s.losses, k)
                                              && s.log[k].payload.Some? && OwedTo(b58, more, req, s.log[k].payload.value))
            && (forall i :: 0 <= i < |us| ==> us[i].payload.Some? && us[i].filters == OwnNames(b58, req, us[i].payload.value))
  {
    var filters := FromRequest(b58, req);
    at := ItemsExact(capacity, limit, filters, log, fs);
    var s := Forwarder.Exec(Forwarder.Subscribe(capacity, limit, filters, log), fs);
    forall k | 0 <= k < |s.log| ensures Matches(filters, s.log[k]) <==>
                 s.log[k].payload.Some? && OwedTo(b58, more, req, s.log[k].payload.value)
    {
      MatchesIsOwed(b58, more, req, s.log[k]);
    }
    var us := Forwarder.Delivered(s.items);
    forall i | 0 <= i < |us| ensures us[i].payload.Some? && us[i].filters == OwnNames(b58, req, us[i].payload.value) {
      assert at[i] in at;
      MatchesIsOwed(b58, more, req, s.log[at[i]]);
    }
  }

  /**
   In every run, evictions and all, and for every lag limit: a client routed to the multiplexer is shown every
   log entry it asks for, from its subscription on and up to where it has been served, outside the recorded losses.
   */
  lemma AskedForIsShown(b58: Base58, more: Extension, req: SubscribeRequest,
                        capacity: nat, limit: nat, log: seq<SubscribeUpdate>, fs: seq<Forwarder.Event>, k: nat)
    requires RoutedToMux(FromRequest(b58, req))
    requires var s := Forwarder.Exec(Forwarder.Subscribe(capacity, limit, FromRequest(b58, req), log), fs);
             && |log| <= k < s.served && k < |s.log| && !Missed(s.losses, k)
             && s.log[k].payload.Some? && AsksFor(b58, more, req, s.log[k].payload.value)
    ensures var s := Forwarder.Exec(Forwarder.Subscribe(capacity, limit, FromRequest(b58, req), log), fs);
            && ShowsWhatItReads(s) && k in ShownPositions(s)
            && exists u :: u in Forwarder.Delivered(s.items) && u.payload == s.log[k].payload
  {
    var filters := FromRequest(b58, req);
    ClientReads(capacity, limit, filters, log, fs);
    ShownIfAsked(b58, more, req, Forwarder.Exec(Forwarder.Subscribe(capacity, limit, filters, log), fs), k);
  }

  lemma ShownIfAsked(b58: Base58, more: Extension, req: SubscribeRequest, s: Forwarder.State, k: nat)
    requires RoutedToMux(FromRequest(b58, req)) && ShowsWhatItReads(s) && s.filters == FromRequest(b58, req)
    requires s.start <= k < s.served && !Missed(s.losses, k)
    requires s.log[k].payload.Some? && AsksFor(b58, more, req, s.log[k].payload.value)
    ensures k in ShownPositions(s)
    ensures exists u :: u in Forwarder.Delivered(s.items) && u.payload == s.log[k].payload
  {
    KeptAtExact(Visible(s.filters, s.log), s.start, s.served, s.losses, k);
    AskedIsLetThrough(b58, more, req, s.log[k]);
    var us, at := Forwarder.Delivered(s.items), ShownPositions(s);
    var i :| 0 <= i < |at| && at[i] == k;
    assert us[i] in us;
  }

  // A request with from_slot

  /** Entry k is one the request asks for: live, or by its from_slot. */
  ghost predicate Owed(b58: Base58, more: Extension, req: SubscribeRequest, log: seq<SubscribeUpdate>, start: nat, k: nat) {
    && k < |log| && log[k].payload.Some? && !log[k].payload.value.Ping? && !log[k].payload.value.Pong?
    && AsksFor(b58, more, req, log[k].payload.value)
    && (k >= start || (req.fromSlot.Some? && log[k].payload.value.slot >= req.fromSlot.value))
  }

  /** Everything the request asks for and that has been served, outside the losses, is shown. */
  ghost predicate OwedIsShown(b58: Base58, more: Extension, req: SubscribeRequest, s: Forwarder.State)
    requires s.served <= |s.log| && Forwarder.Ordered(s.start, s.losses, s.served)
  {
    forall k: nat :: k < s.served && !Missed(s.losses, k) && Owed(b58, more, req, s.log, s.start, k) ==> k in ShownPositions(s)
  }

  /** Something in the log at subscription is of a slot the request wants replayed. */
  ghost predicate OwesReplay(b58: Base58, more: Extension, req: SubscribeRequest, log: seq<SubscribeUpdate>) {
    exists k: nat :: k < |log| && Owed(b58, more, req, log, |log|, k)
  }

  /**
   The multiplexer starts every client at its subscription point, whatever from_slot it asked for: in every run,
   all the request asks for and has been served outside the losses is shown if and only if nothing in the log
   before that point is of a slot the request wanted replayed.
   */
  lemma ReplayHonouredIff(b58: Base58, more: Extension, req: SubscribeRequest,
                          capacity: nat, limit: nat, log: seq<SubscribeUpdate>, fs: seq<Forwarder.Event>)
    requires RoutedToMux(FromRequest(b58, req))
    ensures var s := Forwarder.Exec(Forwarder.Subscribe(capacity, limit, FromRequest(b58, req), log), fs);
            && ShowsWhatItReads(s) && s.start == |log|
            && (OwedIsShown(b58, more, req, s) <==> !OwesReplay(b58, more, req, log))
  {
    var filters := FromRequest(b58, req);
    ClientReads(capacity, limit, filters, log, fs);
    Forwarder.SettingsRun(capacity, limit, filters, log, fs);
    var s := Forwarder.Exec(Forwarder.Subscribe(capacity, limit, filters, log), fs);
    if OwesReplay(b58, more, req, log) {
      DropsReplay(b58, more, req, s, log);
    } else {
      LiveIsEnough(b58, more, req, s, log);
    }
  }

  lemma DropsReplay(b58: Base58, more: Extension, req: SubscribeRequest, s: Forwarder.State, log: seq<SubscribeUpdate>)
    requires ShowsWhatItReads(s) && s.start == |log| && log <= s.log && OwesReplay(b58, more, req, log)
    ensures !OwedIsShown(b58, more, req, s)
  {
    var k: nat :| k < |log| && Owed(b58, more, req, log, |log|, k);
    assert log[k] == s.log[k];
    assert Owed(b58, more, req, s.log, s.start, k);
    NothingBeforeStart(s, k);
  }

  lemma LiveIsEnough(b58: Base58, more: Extension, req: SubscribeRequest, s: Forwarder.State, log: seq<SubscribeUpdate>)
    requires RoutedToMux(FromRequest(b58, req)) && s.filters == FromRequest(b58, req)
    requires ShowsWhatItReads(s) && s.start == |log| && log <= s.log && !OwesReplay(b58, more, req, log)
    ensures OwedIsShown(b58, more, req, s)
  {
    forall k: nat | k < s.served && !Missed(s.losses, k) && Owed(b58, more, req, s.log, s.start, k)
      ensures k in ShownPositions(s)
    {
      if k < |log| {
        assert log[k] == s.log[k];
        assert Owed(b58, more, req, log, |log|, k);
        assert false;
      }
      ShownIfAsked(b58, more, req, s, k);
    }
  }

  lemma NothingBeforeStart(s: Forwarder.State, k: nat)
    requires ShowsWhatItReads(s) && k < s.start
    ensures k < s.served && k !in ShownPositions(s) && !Missed(s.losses, k)
  {
    LossesWithin(s.start, s.losses, s.served);
    KeptAtExact(Visible(s.filters, s.log), s.start, s.served, s.losses, k);
  }

  lemma KeptOnce(filters: CompiledFilters, log: seq<SubscribeUpdate>, start: nat, end: nat, losses: seq<Forwarder.Loss>)
    requires end <= |log| && Forwarder.Ordered(start, losses, end) && NoKeyTwice(log)
    ensures NoKeyTwice(Forwarder.Kept(filters, log, start, end, losses))
  {
    KeptFollowsLog(filters, log, start, end, losses);
    var us, at := Forwarder.Kept(filters, log, start, end, losses), KeptAt(Visible(filters, log), start, end, losses);
    forall i, j | 0 <= i < j < |us| && ComputeDedupKey(us[i]).Some?
      ensures ComputeDedupKey(us[i]) != ComputeDedupKey(us[j])
    {
      SameKey(us[i], log[at[i]]);
      SameKey(us[j], log[at[j]]);
    }
  }

  lemma {:induction false} MessagesAt(sent: seq<Pipeline.Broadcast>, i: nat)
    requires i < |sent|
    ensures |Worker.Messages(sent)| == |sent| && Worker.Messages(sent)[i] == sent[i].msg
  {
    var n := |sent| - 1;
    if n > 0 {
      MessagesAt(sent[..n], if i < n then i else 0);
    }
  }

  /** While nothing is evicted no key is broadcast twice. */
  lemma SentOnce(ttl: nat, known: set<string>, es: seq<Pipeline.Event>)
    requires Pipeline.Pop !in es
    ensures NoKeyTwice(UpdatesOf(Pipeline.Exec(Pipeline.Init(ttl, known), es).sent))
  {
    var s := Pipeline.Exec(Pipeline.Init(ttl, known), es);
    Worker.BroadcastsAreFirsts(ttl, known, es);
    Worker.FirstsOnce(s.raw);
    var all := Worker.Messages(s.sent) + Worker.InFlight(s);
    forall i, j | 0 <= i < j < |s.sent| && ComputeDedupKey(s.sent[i].msg.update).Some?
      ensures ComputeDedupKey(s.sent[i].msg.update) != ComputeDedupKey(s.sent[j].msg.update)
    {
      MessagesAt(s.sent, i);
      MessagesAt(s.sent, j);
      assert all[i] == s.sent[i].msg && all[j] == s.sent[j].msg;
    }
  }

  // ---------------------------------------------------------------------------------------------
  // With a single upstream
  // ---------------------------------------------------------------------------------------------

  /** What a node sends the multiplexer of all it produces. */
  ghost function MuxStream(b58: Base58, more: Extension, produced: seq<Payload>): (ups: Replay.Upstream)
    ensures forall p :: p in ups <==> p in produced && AsksFor(b58, more, MuxSubscribeRequest(None), p)
  {
    if produced == [] then []
    else
      var n := |produced| - 1;
      assert produced == produced[..n] + [produced[n]];
      var ups := MuxStream(b58, more, produced[..n]);
      if AsksFor(b58, more, MuxSubscribeRequest(None), produced[n]) then ups + [produced[n]] else ups
  }

  lemma {:induction false} CarriedSomewhere(ups: Replay.Upstream, us: seq<SubscribeUpdate>, positions: seq<nat>, j: nat)
    requires Replay.Carries(ups, us, positions) && j < |positions|
    ensures positions[j] < |ups| && exists k :: 0 <= k < |us| && us[k].payload == Some(ups[positions[j]])
  {
    var u, n := us[|us| - 1], |positions| - 1;
    if Replay.IsControl(u) {
      CarriedSomewhere(ups, us[..|us| - 1], positions, j);
    } else if j < n {
      CarriedSomewhere(ups, us[..|us| - 1], positions[..n], j);
    }
  }

  /** The payload is in the log, and wherever the client read it outside its losses, it was shown. */
  ghost predicate LoggedAndShown(p: Payload, s: Forwarder.State) {
    && (exists k :: 0 <= k < |s.log| && s.log[k].payload == Some(p))
    && (forall k: nat :: s.start <= k < s.served && k < |s.log| && !Missed(s.losses, k) && s.log[k].payload == Some(p) ==>
          exists u :: u in Forwarder.Delivered(s.items) && u.payload == Some(p))
  }

  /** Position i of the upstream lies between the first delivery and some later one. */
  ghost predicate Passed(delivered: seq<nat>, i: nat) {
    exists b :: 0 <= b < |delivered| && delivered[0] <= i <= delivered[b]
  }

  /**
   From the node's production to one client, over every sequence of upstream attempts and every schedule of the
   client: an update the client asks for either is an interslot status, or is in the multiplexer's stream; and
   there, between the first delivery and any later one, it is late, or in a gap that follows a rejected replay,
   or some update before it shows no processed slot, or it is in the broadcast log and shown to the client
   outside its recorded losses. From the first observed processed slot on the third case is gone.
   */
  lemma SingleModeComplete(b58: Base58, more: Extension, req: SubscribeRequest, produced: seq<Payload>,
                           attempts: seq<Single.Attempt>,
                           capacity: nat, limit: nat, log: seq<SubscribeUpdate>, fs: seq<Forwarder.Event>, p: Payload)
    requires RoutedToMux(FromRequest(b58, req)) && p in produced && AsksFor(b58, more, req, p)
    requires var l := Single.Exec(MuxStream(b58, more, produced), Single.Start(true), attempts);
             Forwarder.Exec(Forwarder.Subscribe(capacity, limit, FromRequest(b58, req), log), fs).log == l.broadcast
    ensures var ups := MuxStream(b58, more, produced);
            var l := Single.Exec(ups, Single.Start(true), attempts);
            var c := l.cover;
            var s := Forwarder.Exec(Forwarder.Subscribe(capacity, limit, FromRequest(b58, req), log), fs);
            && (p in ups <==> !Interslot(p))
            && (forall g :: g in c.gaps ==> 0 < g.attempt <= |l.verdicts| && l.verdicts[g.attempt - 1])
            && (forall i :: 0 <= i < |ups| && ups[i] == p && Passed(c.delivered, i) ==>
                  || Replay.Late(ups, false, i) || Replay.InGap(c.gaps, i) || Replay.Exposed(ups, false, None, i)
                  || LoggedAndShown(p, s))
            && (forall i :: 0 <= i < |ups| && ups[i] == p && Replay.Spanned(ups, false, c.delivered, i) ==>
                  Replay.Late(ups, false, i) || Replay.InGap(c.gaps, i) || LoggedAndShown(p, s))
  {
    MuxAsksToo(b58, more, req, None, p);
    var ups := MuxStream(b58, more, produced);
    var l := Single.Exec(ups, Single.Start(true), attempts);
    var s := Forwarder.Exec(Forwarder.Subscribe(capacity, limit, FromRequest(b58, req), log), fs);
    Single.ReplayLosesNothing(ups, attempts);
    forall i | 0 <= i < |ups| && ups[i] == p && i in l.cover.delivered ensures LoggedAndShown(p, s) {
      DeliveredReachesClient(b58, more, req, ups, l.cover.delivered, capacity, limit, log, fs, i);
    }
    forall i | 0 <= i < |ups| && Passed(l.cover.delivered, i) && i !in l.cover.delivered
      ensures Replay.Skips(ups, None, l.cover.delivered, i)
    {
      PassedIsSkipped(ups, l.cover.delivered, i);
    }
  }

  lemma PassedIsSkipped(ups: Replay.Upstream, delivered: seq<nat>, i: nat)
    requires i < |ups| && Passed(delivered, i) && i !in delivered
    ensures Replay.Skips(ups, None, delivered, i)
  {
    var b :| 0 <= b < |delivered| && delivered[0] <= i <= delivered[b];
    assert delivered[0] in delivered && delivered[b] in delivered;
  }

  lemma DeliveredReachesClient(b58: Base58, more: Extension, req: SubscribeRequest, ups: Replay.Upstream, delivered: seq<nat>,
                               capacity: nat, limit: nat, log: seq<SubscribeUpdate>, fs: seq<Forwarder.Event>, i: nat)
    requires RoutedToMux(FromRequest(b58, req)) && i in delivered && i < |ups| && AsksFor(b58, more, req, ups[i])
    requires Replay.Carries(ups, Forwarder.Exec(Forwarder.Subscribe(capacity, limit, FromRequest(b58, req), log), fs).log, delivered)
    ensures LoggedAndShown(ups[i], Forwarder.Exec(Forwarder.Subscribe(capacity, limit, FromRequest(b58, req), log), fs))
  {
    var s := Forwarder.Exec(Forwarder.Subscribe(capacity, limit, FromRequest(b58, req), log), fs);
    var j :| 0 <= j < |delivered| && delivered[j] == i;
    CarriedSomewhere(ups, s.log, delivered, j);
    ClientReads(capacity, limit, FromRequest(b58, req), log, fs);
    forall k: nat | s.start <= k < s.served && k < |s.log| && !Missed(s.losses, k) && s.log[k].payload == Some(ups[i])
      ensures exists u :: u in Forwarder.Delivered(s.items) && u.payload == Some(ups[i])
    {
      ShownIfAsked(b58, more, req, s, k);
    }
  }

  // ---------------------------------------------------------------------------------------------
  // With several regions
  // ---------------------------------------------------------------------------------------------

  /** The log entries that stand for message m: itself, or another delivery under its key. */
  ghost predicate StandsFor(p: Pipeline.State, k: nat, m: Pipeline.Raw) {
    k < |p.sent| && Pipeline.Covers(p.sent[k].msg, m)
  }

  /** What is decided by the key alone: everything but transactions, whose content counts, and footers, whose certificates do. */
  predicate DecidedByKey(u: SubscribeUpdate) {
    u.payload.Some? && !u.payload.value.TransactionUpdate? && !u.payload.value.BlockFooterUpdate?
  }

  lemma SameKeySameInterest(b58: Base58, more: Extension, req: SubscribeRequest, u: SubscribeUpdate, v: SubscribeUpdate)
    requires DecidedByKey(u) && ComputeDedupKey(u).Some? && ComputeDedupKey(u) == ComputeDedupKey(v)
    ensures v.payload.Some?
    ensures AsksFor(b58, more, req, u.payload.value) <==> AsksFor(b58, more, req, v.payload.value)
  {
    KeysIdentifyItems(u, v);
  }

  /** Client interest in log entry k, directly or through the message it stands for. */
  ghost predicate Interested(b58: Base58, more: Extension, req: SubscribeRequest, entry: SubscribeUpdate, m: Pipeline.Raw) {
    || (entry.payload.Some? && AsksFor(b58, more, req, entry.payload.value))
    || (DecidedByKey(m.update) && AsksFor(b58, more, req, m.update.payload.value))
  }

  lemma InterestCarriesOver(b58: Base58, more: Extension, req: SubscribeRequest, entry: Pipeline.Raw, m: Pipeline.Raw)
    requires Pipeline.Covers(entry, m) && Interested(b58, more, req, entry.update, m)
    ensures entry.update.payload.Some? && AsksFor(b58, more, req, entry.update.payload.value)
  {
    if entry != m && DecidedByKey(m.update) && AsksFor(b58, more, req, m.update.payload.value) {
      SameKeySameInterest(b58, more, req, m.update, entry.update);
    }
  }

  /**
   In every run of regions, evictor and client: each message received, pongs aside, has an entry that stands for
   it in the log once the worker is idle; and every such entry the client is interested in is shown to it, from
   its subscription on and up to where it has been served, outside the recorded losses.
   */
  lemma MultiModeComplete(ttl: nat, known: set<string>, es: seq<Pipeline.Event>, b58: Base58, more: Extension, req: SubscribeRequest,
                          capacity: nat, limit: nat, log: seq<SubscribeUpdate>, fs: seq<Forwarder.Event>, m: Pipeline.Raw)
    requires RoutedToMux(FromRequest(b58, req))
    requires var p := Pipeline.Exec(Pipeline.Init(ttl, known), es);
             var s := Forwarder.Exec(Forwarder.Subscribe(capacity, limit, FromRequest(b58, req), log), fs);
             s.log == UpdatesOf(p.sent) && p.worker.Idle? && m in p.raw && !IsPong(m.update)
    ensures var p := Pipeline.Exec(Pipeline.Init(ttl, known), es);
            var s := Forwarder.Exec(Forwarder.Subscribe(capacity, limit, FromRequest(b58, req), log), fs);
            && (exists k: nat :: StandsFor(p, k, m))
            && (forall k: nat | StandsFor(p, k, m) && |log| <= k < s.served && !Missed(s.losses, k)
                                && Interested(b58, more, req, s.log[k], m) ::
                  exists u :: u in Forwarder.Delivered(s.items) && u.payload == s.log[k].payload)
  {
    var p := Pipeline.Exec(Pipeline.Init(ttl, known), es);
    var s := Forwarder.Exec(Forwarder.Subscribe(capacity, limit, FromRequest(b58, req), log), fs);
    Pipeline.NothingUnaccounted(ttl, known, es, m);
    var i :| 0 <= i < |p.sent| && Pipeline.Covers(p.sent[i].msg, m);
    assert StandsFor(p, i, m);
    ClientReads(capacity, limit, FromRequest(b58, req), log, fs);
    forall k: nat | StandsFor(p, k, m) && |log| <= k < s.served && !Missed(s.losses, k)
                    && Interested(b58, more, req, s.log[k], m)
      ensures exists u :: u in Forwarder.Delivered(s.items) && u.payload == s.log[k].payload
    {
      InterestCarriesOver(b58, more, req, p.sent[k].msg, m);
      ShownIfAsked(b58, more, req, s, k);
    }
  }
}
