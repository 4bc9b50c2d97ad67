/**
 One node's managed channel: get, reconnect and invalidate by any number of tasks, interleaved at every
 atomic access, with tasks that may be dropped while they await. An event that is not enabled leaves the
 state unchanged.
 */
module ChannelPool {
  import opened Prelude

  datatype Pc =
    | Loading                            // get: about to load the channel slot
    | Racing                             // reconnect: about to compare-exchange the flag
    | Connecting                         // endpoint.connect() in flight
    | Connected(channel: nat)            // connected, not stored yet
    | Stored(channel: nat)               // stored, flag not cleared yet
    | Refused                            // connect failed, flag not cleared yet
    | Notifying(result: Option<nat>)     // flag cleared, waiters not notified yet
    | Losing                             // lost the race, not listening yet
    | Listening                          // waiting for the notification or the timeout
    | Woken                              // notified, about to load the channel slot
    | Returned(result: Option<nat>)      // None is an error status
    | Gone                               // dropped by its caller

  datatype State = State(
    slot: Option<nat>,
    connecting: bool,
    tasks: seq<Pc>,
    // history
    made: set<nat>,                      // channels that came from a successful connect
    holder: Option<nat>,                 // the task between its compare-exchange and its clearing store
    orphaned: bool)                      // a task was dropped while it held the flag

  datatype Event =
    | Get | Reconnect
    | Load(id: nat) | Race(id: nat)
    | Answer(id: nat, channel: Option<nat>)
    | Store(id: nat) | Clear(id: nat) | Notify(id: nat)
    | Listen(id: nat) | Timeout(id: nat) | Reload(id: nat)
    | Drop(id: nat)
    | Invalidate

  const START: State := State(None, false, [], {}, None, false)

  function Put(s: State, id: nat, pc: Pc): State
    requires id < |s.tasks|
  {
    s.(tasks := s.tasks[id := pc])
  }

  function Wake(pc: Pc): Pc {
    if pc.Listening? then Woken else pc
  }

  function NotifyWaiters(tasks: seq<Pc>): seq<Pc> {
    seq(|tasks|, i requires 0 <= i < |tasks| => Wake(tasks[i]))
  }

  function Act(s: State, e: Event, id: nat): State
    requires id < |s.tasks|
  {
    var pc := s.tasks[id];
    match e
    case Load(_) =>
      if pc.Loading? then Put(s, id, if s.slot.Some? then Returned(s.slot) else Racing) else s
    case Race(_) =>
      if !pc.Racing? then s
      else if s.connecting then Put(s, id, Losing)
      else Put(s, id, Connecting).(connecting := true, holder := Some(id))
    case Answer(_, channel) =>
      if !pc.Connecting? then s
      else if channel.Some? then Put(s, id, Connected(channel.value)).(made := s.made + {channel.value})
      else Put(s, id, Refused)
    case Store(_) => if pc.Connected? then Put(s, id, Stored(pc.channel)).(slot := Some(pc.channel)) else s
    case Clear(_) =>
      if pc.Stored? then Put(s, id, Notifying(Some(pc.channel))).(connecting := false, holder := None)
      else if pc.Refused? then Put(s, id, Notifying(None)).(connecting := false, holder := None)
      else s
    case Notify(_) =>
      if pc.Notifying? then s.(tasks := NotifyWaiters(s.tasks)[id := Returned(pc.result)]) else s
    case Listen(_) => if pc.Losing? then Put(s, id, Listening) else s
    case Timeout(_) => if pc.Listening? then Put(s, id, Returned(None)) else s
    case Reload(_) => if pc.Woken? then Put(s, id, Returned(s.slot)) else s
    case Drop(_) =>   // only at an await
      if pc.Connecting? then Put(s, id, Gone).(holder := None, orphaned := true)
      else if pc.Listening? then Put(s, id, Gone)
      else s
    case _ => s
  }

  function Next(s: State, e: Event): State {
    match e
    case Get => s.(tasks := s.tasks + [Loading])
    case Reconnect => s.(tasks := s.tasks + [Racing])
    case Invalidate => s.(slot := None)
    case _ => if e.id < |s.tasks| then Act(s, e, e.id) else s
  }

  function Exec(s: State, es: seq<Event>): State {
    if es == [] then s else Next(Exec(s, es[..|es| - 1]), es[|es| - 1])
  }

  // ---------------------------------------------------------------------------------------------
  // Single flight
  // ---------------------------------------------------------------------------------------------

  predicate Holds(pc: Pc) {
    pc.Connecting? || pc.Connected? || pc.Stored? || pc.Refused?
  }

  ghost predicate FlagInv(s: State) {
    && (forall i :: 0 <= i < |s.tasks| ==> (Holds(s.tasks[i]) <==> s.holder == Some(i)))
    && (s.holder.Some? ==> s.holder.value < |s.tasks|)
    && (s.connecting <==> s.holder.Some? || s.orphaned)
    && !(s.holder.Some? && s.orphaned)
  }

  ghost predicate Made(s: State, r: Option<nat>) {
    r.Some? ==> r.value in s.made
  }

  ghost predicate TaskMade(s: State, pc: Pc) {
    match pc
    case Connected(c) => c in s.made
    case Stored(c) => c in s.made
    case Notifying(r) => Made(s, r)
    case Returned(r) => Made(s, r)
    case _ => true
  }

  ghost predicate ChannelInv(s: State) {
    Made(s, s.slot) && forall i :: 0 <= i < |s.tasks| ==> TaskMade(s, s.tasks[i])
  }

  lemma FlagStep(s: State, e: Event)
    requires FlagInv(s)
    ensures FlagInv(Next(s, e))
  {
  }

  lemma ActChannel(s: State, e: Event, id: nat, i: nat)
    requires id < |s.tasks| && ChannelInv(s) && i < |s.tasks|
    ensures |Act(s, e, id).tasks| == |s.tasks| && TaskMade(Act(s, e, id), Act(s, e, id).tasks[i])
  {
    assert TaskMade(s, s.tasks[id]) && TaskMade(s, s.tasks[i]);
  }

  lemma ChannelStep(s: State, e: Event)
    requires ChannelInv(s)
    ensures ChannelInv(Next(s, e))
  {
    if !e.Get? && !e.Reconnect? && !e.Invalidate? && e.id < |s.tasks| {
      forall i: nat | i < |s.tasks| { ActChannel(s, e, e.id, i); }
      assert TaskMade(s, s.tasks[e.id]);
    }
  }

  lemma {:induction false} RunInv(es: seq<Event>)
    ensures FlagInv(Exec(START, es)) && ChannelInv(Exec(START, es))
  {
    if es != [] {
      RunInv(es[..|es| - 1]);
      FlagStep(Exec(START, es[..|es| - 1]), es[|es| - 1]);
      ChannelStep(Exec(START, es[..|es| - 1]), es[|es| - 1]);
    }
  }

  /** At most one connect is in flight, it holds the flag, and every channel returned was really connected. */
  lemma SingleFlight(es: seq<Event>, i: nat, j: nat)
    requires i < |Exec(START, es).tasks| && j < |Exec(START, es).tasks|
    ensures var s := Exec(START, es);
            && (s.tasks[i].Connecting? && s.tasks[j].Connecting? ==> i == j)
            && (s.tasks[i].Connecting? ==> s.connecting)
            && (s.tasks[i].Returned? && s.tasks[i].result.Some? ==> s.tasks[i].result.value in s.made)
            && (s.slot.Some? ==> s.slot.value in s.made)
  {
    RunInv(es);
  }

  /** The flag is set with no connect behind it exactly after a connecting task was dropped. */
  lemma FlagWithoutConnect(es: seq<Event>)
    ensures var s := Exec(START, es);
            s.orphaned <==> s.connecting && forall i :: 0 <= i < |s.tasks| ==> !Holds(s.tasks[i])
  {
    RunInv(es);
  }

  // ---------------------------------------------------------------------------------------------
  // What a call leads to
  // ---------------------------------------------------------------------------------------------

  lemma {:induction false} ExecConcat(s: State, es: seq<Event>, fs: seq<Event>)
    ensures Exec(s, es + fs) == Exec(Exec(s, es), fs)
  {
    if fs == [] {
      assert es + fs == es;
    } else {
      var n := |fs| - 1;
      ExecConcat(s, es, fs[..n]);
      assert (es + fs)[..|es + fs| - 1] == es + fs[..n];
    }
  }

  lemma ExecTwo(s: State, e: Event, f: Event)
    ensures Exec(s, [e, f]) == Next(Next(s, e), f)
  {
    assert [e, f][..1] == [e] && [e][..0] == [];
    assert Exec(s, [e]) == Next(Exec(s, []), e);
  }

  /** A get with a filled slot returns that channel and touches nothing; with an empty one it goes on to reconnect. */
  lemma GetLoads(s: State, id: nat)
    requires id == |s.tasks|
    ensures Exec(s, [Get, Load(id)]) ==
            s.(tasks := s.tasks + [if s.slot.Some? then Returned(s.slot) else Racing])
  {
    ExecTwo(s, Get, Load(id));
    assert (s.tasks + [Loading])[id := Returned(s.slot)] == s.tasks + [Returned(s.slot)];
    assert (s.tasks + [Loading])[id := Racing] == s.tasks + [Racing];
  }

  /** An invalidated channel is never returned again by a get that starts later, unless it is connected anew. */
  lemma InvalidateEmpties(s: State, id: nat)
    requires id == |s.tasks|
    ensures Exec(s, [Invalidate] + [Get, Load(id)]) == s.(slot := None, tasks := s.tasks + [Racing])
  {
    ExecConcat(s, [Invalidate], [Get, Load(id)]);
    assert [Invalidate][..0] == [];
    GetLoads(s.(slot := None), id);
  }

  /** The state of all tasks once task `id` has returned and the listeners were told. */
  ghost predicate Settled(s: State, id: nat, result: Option<nat>, t: State) {
    && id < |s.tasks| == |t.tasks| && t.tasks[id] == Returned(result) && !t.connecting && t.holder.None?
    && t.orphaned == s.orphaned
    && forall i :: 0 <= i < |s.tasks| && i != id ==> t.tasks[i] == if s.tasks[i].Listening? then Woken else s.tasks[i]
  }

  lemma Finish(s: State, id: nat)
    requires id < |s.tasks| && (s.tasks[id].Stored? || s.tasks[id].Refused?)
    ensures var r := if s.tasks[id].Stored? then Some(s.tasks[id].channel) else None;
            var t := Exec(s, [Clear(id), Notify(id)]);
            Settled(s, id, r, t) && t.slot == s.slot && t.made == s.made
  {
    ExecTwo(s, Clear(id), Notify(id));
  }

  lemma WinRace(s: State, id: nat, answer: Option<nat>)
    requires id < |s.tasks| && s.tasks[id].Racing? && !s.connecting
    ensures var t := Exec(s, [Race(id), Answer(id, answer)]);
            t == s.(tasks := s.tasks[id := if answer.Some? then Connected(answer.value) else Refused], connecting := true,
                    holder := Some(id), made := s.made + (if answer.Some? then {answer.value} else {}))
  {
    ExecTwo(s, Race(id), Answer(id, answer));
    assert s.tasks[id := Connecting][id := Refused] == s.tasks[id := Refused];
    if answer.Some? {
      assert s.tasks[id := Connecting][id := Connected(answer.value)] == s.tasks[id := Connected(answer.value)];
    }
  }

  /** With the flag free, a reconnect returns what its connect brought; a channel is stored, and all listeners are told. */
  lemma ReconnectReturns(s: State, id: nat, answer: Option<nat>) returns (es: seq<Event>)
    requires id < |s.tasks| && s.tasks[id].Racing? && !s.connecting
    ensures var t := Exec(s, es);
            Settled(s, id, answer, t) && t.slot == if answer.Some? then answer else s.slot
  {
    var opening, closing := [Race(id), Answer(id, answer)], [Clear(id), Notify(id)];
    WinRace(s, id, answer);
    var a := Exec(s, opening);
    if answer.Some? {
      var b := Next(a, Store(id));
      assert b.tasks == s.tasks[id := Stored(answer.value)];
      Finish(b, id);
      ExecConcat(a, [Store(id)], closing);
      assert [Store(id)][..0] == [];
      ExecConcat(s, opening, [Store(id)] + closing);
      es := opening + ([Store(id)] + closing);
    } else {
      Finish(a, id);
      ExecConcat(s, opening, closing);
      es := opening + closing;
    }
  }

  /** With the flag taken, a reconnect listens; it returns the slot once notified, or an error when the wait is over. */
  lemma LoserListens(s: State, id: nat)
    requires id < |s.tasks|
    ensures s.tasks[id].Racing? && s.connecting ==>
              Exec(s, [Race(id), Listen(id)]) == s.(tasks := s.tasks[id := Listening])
    ensures s.tasks[id].Woken? ==> Next(s, Reload(id)) == s.(tasks := s.tasks[id := Returned(s.slot)])
    ensures s.tasks[id].Listening? ==> Next(s, Timeout(id)) == s.(tasks := s.tasks[id := Returned(None)])
    ensures s.tasks[id].Listening? ==> Next(s, Drop(id)) == s.(tasks := s.tasks[id := Gone])
  {
    ExecTwo(s, Race(id), Listen(id));
    assert s.tasks[id := Losing][id := Listening] == s.tasks[id := Listening];
  }

  // ---------------------------------------------------------------------------------------------
  // What a dropped connector leaves behind
  // ---------------------------------------------------------------------------------------------

  /** The flag is orphaned, the slot is empty, and no task from `first` on has a channel or can get one. */
  ghost predicate Stuck(s: State, first: nat) {
    && FlagInv(s) && s.orphaned && s.slot.None?
    && first <= |s.tasks|
    && forall i :: first <= i < |s.tasks| ==>
         match s.tasks[i]
         case Returned(r) => r.None?
         case Notifying(_) => false
         case _ => true
  }

  lemma StuckStep(s: State, e: Event, first: nat)
    requires Stuck(s, first)
    ensures Stuck(Next(s, e), first)
  {
    FlagStep(s, e);
  }

  /**
   Once a task has been dropped while connecting and the slot is empty, the node is never connected again:
   no connect starts, and no later get or reconnect ever returns a channel.
   */
  lemma {:induction false} OrphanedFlagIsForever(es: seq<Event>, fs: seq<Event>)
    requires Exec(START, es).orphaned && Exec(START, es).slot.None?
    ensures var s, t := Exec(START, es), Exec(Exec(START, es), fs);
            && |s.tasks| <= |t.tasks| && t.slot.None?
            && (forall i :: 0 <= i < |t.tasks| ==> !t.tasks[i].Connecting?)
            && forall i :: |s.tasks| <= i < |t.tasks| && t.tasks[i].Returned? ==> t.tasks[i].result.None?
  {
    RunInv(es);
    StuckForever(Exec(START, es), fs);
  }

  lemma {:induction false} StuckForever(s: State, fs: seq<Event>)
    requires FlagInv(s) && s.orphaned && s.slot.None?
    ensures Stuck(Exec(s, fs), |s.tasks|)
  {
    if fs != [] {
      StuckForever(s, fs[..|fs| - 1]);
      StuckStep(Exec(s, fs[..|fs| - 1]), fs[|fs| - 1], |s.tasks|);
    }
  }

  /** Such a state is four steps away: get, empty slot, win the race, be dropped. */
  lemma OrphanReachable()
    ensures var s := Exec(START, [Get, Load(0), Race(0), Drop(0)]);
            s.orphaned && s.connecting && s.slot.None?
  {
    assert [Get][..0] == [] && [Get, Load(0)][..1] == [Get];
    assert [Get, Load(0), Race(0)][..2] == [Get, Load(0)];
    assert [Get, Load(0), Race(0), Drop(0)][..3] == [Get, Load(0), Race(0)];
    assert Exec(START, []) == START;
    assert Exec(START, [Get]).tasks == [Loading];
    assert Exec(START, [Get, Load(0)]).tasks == [Racing];
    assert Exec(START, [Get, Load(0), Race(0)]).tasks == [Connecting];
  }
}
