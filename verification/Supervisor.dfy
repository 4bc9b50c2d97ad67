/**
 Subscribe supervisors at the grain of their individual atomic steps: admission, the two increments, the
 wait for a termination signal, the drain of the join set, and the three closing counter updates. Any
 number of them interleave over shared counters; an event that is not enabled leaves the state unchanged.
 */
module Supervisor {
  import opened Prelude

  const MAX_STREAMS_PER_IP: nat := 500

  datatype Pc =
    | Admitted        // passed the stream limit check, not started
    | Abandoned       // subscribe failed before start
    | IpCounted       // per-IP counter incremented, global not yet
    | Waiting         // for the handle to drop or the token to be cancelled
    | Draining        // token cancelled, children in their grace period
    | Aborting        // grace over, remaining children aborted
    | Drained         // join set empty
    | IpReleased      // per-IP counter decremented, global not yet
    | Released        // global counter decremented, drop not yet counted
    | Finished

  datatype Task = Task(
    counter: nat,     // which per-IP counter it holds
    pc: Pc,
    children: nat,    // tasks in the join set
    exited: nat,      // those of them that have finished but are not joined yet
    dropped: bool,    // the response stream's handle is gone
    cancelled: bool,  // the token was cancelled from outside
    // history
    spawned: nat,
    joined: nat,      // children that ended by themselves
    killed: nat)      // children still there when the grace period ended

  /** IP number i has its gRPC counter at i and its aRPC counter at ips + i; only the former has a limit. */
  datatype State = State(
    ips: nat,
    perIp: seq<nat>,
    active: nat,
    drops: nat,
    aborted: nat,
    tasks: seq<Task>)

  datatype Event =
    | Admit(counter: nat, children: nat)
    | Abandon(id: nat)
    | StartIp(id: nat) | StartGlobal(id: nat)
    | ChildExit(id: nat)
    | DropHandle(id: nat) | ExternalCancel(id: nat)
    | Signalled(id: nat) | JoinNext(id: nat) | GraceOver(id: nat)
    | DecIp(id: nat) | DecGlobal(id: nat) | CountDrop(id: nat)

  function Init(ips: nat): State {
    State(ips, seq(2 * ips, _ => 0), 0, 0, 0, [])
  }

  /** fetch_sub wraps around. */
  function Sub1(x: nat): nat {
    if x == 0 then U64 - 1 else x - 1
  }

  function Put(s: State, id: nat, t: Task): State
    requires id < |s.tasks|
  {
    s.(tasks := s.tasks[id := t])
  }

  function Join(t: Task): Task {
    if t.children == 0 then t.(pc := Drained)
    else if t.exited > 0 then t.(children := t.children - 1, exited := t.exited - 1,
                                 joined := t.joined + (if t.pc.Aborting? then 0 else 1))
    else if t.pc.Aborting? then t.(children := t.children - 1)
    else t
  }

  /** The steps of one existing task. */
  function Act(s: State, e: Event, id: nat): State
    requires id < |s.tasks|
  {
    var t := s.tasks[id];
    if t.counter >= |s.perIp| then s
    else match e
      case Abandon(_) => if t.pc.Admitted? then Put(s, id, t.(pc := Abandoned)) else s
      case StartIp(_) =>
        if t.pc.Admitted?
        then Put(s, id, t.(pc := IpCounted)).(perIp := s.perIp[t.counter := s.perIp[t.counter] + 1]) else s
      case StartGlobal(_) =>
        if t.pc.IpCounted? then Put(s, id, t.(pc := Waiting)).(active := s.active + 1) else s
      case ChildExit(_) => if t.exited < t.children then Put(s, id, t.(exited := t.exited + 1)) else s
      case DropHandle(_) =>
        if t.pc.Admitted? || t.pc.Abandoned? || t.pc.IpCounted? then s else Put(s, id, t.(dropped := true))
      case ExternalCancel(_) => Put(s, id, t.(cancelled := true))
      case Signalled(_) =>
        if t.pc.Waiting? && (t.dropped || t.cancelled) then Put(s, id, t.(pc := Draining)) else s
      case JoinNext(_) => if t.pc.Draining? || t.pc.Aborting? then Put(s, id, Join(t)) else s
      case GraceOver(_) =>
        if !t.pc.Draining? then s
        else if t.children > 0 then Put(s, id, t.(pc := Aborting, killed := t.children)).(aborted := s.aborted + t.children)
        else Put(s, id, t.(pc := Drained))
      case DecIp(_) =>
        if t.pc.Drained?
        then Put(s, id, t.(pc := IpReleased)).(perIp := s.perIp[t.counter := Sub1(s.perIp[t.counter])]) else s
      case DecGlobal(_) =>
        if t.pc.IpReleased? then Put(s, id, t.(pc := Released)).(active := Sub1(s.active)) else s
      case CountDrop(_) =>
        if t.pc.Released? then Put(s, id, t.(pc := Finished)).(drops := s.drops + 1) else s
      case Admit(_, _) => s
  }

  function Next(s: State, e: Event): State {
    if e.Admit? then
      if e.counter < |s.perIp| && (e.counter >= s.ips || s.perIp[e.counter] < MAX_STREAMS_PER_IP)
      then s.(tasks := s.tasks + [Task(e.counter, Admitted, e.children, 0, false, false, e.children, 0, 0)])
      else s
    else if e.id < |s.tasks| then Act(s, e, e.id)
    else s
  }

  function Exec(s: State, es: seq<Event>): State {
    if es == [] then s else Next(Exec(s, es[..|es| - 1]), es[|es| - 1])
  }

  // ---------------------------------------------------------------------------------------------
  // Counting tasks
  // ---------------------------------------------------------------------------------------------

  datatype Measure =
    | OnIp(ip: nat) | Counted | Active | Dropped | Started
    | Pending(ip: nat) | MidIncrement | MidDecrement | MidDrop | Killed

  predicate HoldsIp(pc: Pc) {
    pc.IpCounted? || pc.Waiting? || pc.Draining? || pc.Aborting? || pc.Drained?
  }

  function Weight(m: Measure, t: Task): nat {
    if m.Killed? then t.killed else if Is(m, t) then 1 else 0
  }

  predicate Is(m: Measure, t: Task) {
    match m
    case OnIp(ip) => t.counter == ip && HoldsIp(t.pc)
    case Counted => HoldsIp(t.pc)
    case Active => t.pc.Waiting? || t.pc.Draining? || t.pc.Aborting? || t.pc.Drained? || t.pc.IpReleased?
    case Dropped => t.pc.Finished?
    case Started => !t.pc.Admitted? && !t.pc.Abandoned?
    case Pending(ip) => t.counter == ip && t.pc.Admitted?
    case MidIncrement => t.pc.IpCounted?
    case MidDecrement => t.pc.IpReleased?
    case MidDrop => t.pc.Released?
    case Killed => t.killed > 0
  }

  function Tally(m: Measure, ts: seq<Task>): nat {
    if ts == [] then 0 else Tally(m, ts[..|ts| - 1]) + Weight(m, ts[|ts| - 1])
  }

  function Sum(xs: seq<nat>): nat {
    if xs == [] then 0 else Sum(xs[..|xs| - 1]) + xs[|xs| - 1]
  }

  lemma {:induction false} TallyUpdate(m: Measure, ts: seq<Task>, i: nat, t: Task)
    requires i < |ts|
    ensures Tally(m, ts[i := t]) == Tally(m, ts) - Weight(m, ts[i]) + Weight(m, t)
    ensures Tally(m, ts) >= Weight(m, ts[i])
  {
    var n := |ts| - 1;
    if i == n {
      assert ts[i := t][..n] == ts[..n];
    } else {
      assert ts[i := t][..n] == ts[..n][i := t];
      TallyUpdate(m, ts[..n], i, t);
    }
  }

  lemma TallySnoc(m: Measure, ts: seq<Task>, t: Task)
    ensures Tally(m, ts + [t]) == Tally(m, ts) + Weight(m, t)
  {
    assert (ts + [t])[..|ts|] == ts;
  }

  lemma {:induction false} SumUpdate(xs: seq<nat>, i: nat, x: nat)
    requires i < |xs|
    ensures Sum(xs[i := x]) == Sum(xs) - xs[i] + x
  {
    var n := |xs| - 1;
    if i == n {
      assert xs[i := x][..n] == xs[..n];
    } else {
      assert xs[i := x][..n] == xs[..n][i := x];
      SumUpdate(xs[..n], i, x);
    }
  }

  lemma {:induction false} SumZeros(n: nat)
    ensures Sum(seq(n, _ => 0)) == 0
  {
    if n > 0 {
      assert seq(n, _ => 0)[..n - 1] == seq(n - 1, _ => 0);
      SumZeros(n - 1);
    }
  }

  /** Task by task, holding a per-IP count and being active differ only in the middle of an update. */
  lemma {:induction false} TallyIdentities(ts: seq<Task>)
    ensures Tally(Counted, ts) + Tally(MidDecrement, ts) == Tally(Active, ts) + Tally(MidIncrement, ts)
    ensures Tally(Started, ts) ==
            Tally(Active, ts) + Tally(Dropped, ts) + Tally(MidIncrement, ts) + Tally(MidDrop, ts)
  {
    if ts != [] {
      TallyIdentities(ts[..|ts| - 1]);
    }
  }

  // ---------------------------------------------------------------------------------------------
  // Conservation
  // ---------------------------------------------------------------------------------------------

  ghost predicate CounterInv(s: State) {
    && (forall ip :: 0 <= ip < |s.perIp| ==> s.perIp[ip] == Tally(OnIp(ip), s.tasks))
    && Sum(s.perIp) == Tally(Counted, s.tasks)
    && s.active == Tally(Active, s.tasks)
    && s.drops == Tally(Dropped, s.tasks)
    && s.aborted == Tally(Killed, s.tasks)
  }

  /** A task leaves Waiting only on a signal, and releases its counters only with an empty join set. */
  ghost predicate TaskOk(t: Task, counters: nat) {
    && t.exited <= t.children
    && t.counter < counters
    && (Rank(t.pc) >= 4 ==> t.dropped || t.cancelled)
    && (Rank(t.pc) >= 6 ==> t.children == 0)
    && (Rank(t.pc) < 5 ==> t.killed == 0)
    && (if t.killed == 0 && !t.pc.Aborting? then t.spawned == t.joined + t.children else t.spawned == t.joined + t.killed)
  }

  ghost predicate TaskInv(s: State) {
    forall i :: 0 <= i < |s.tasks| ==> TaskOk(s.tasks[i], |s.perIp|)
  }

  lemma PutKeeps(s: State, id: nat, t: Task, s': State)
    requires CounterInv(s) && id < |s.tasks| && s.tasks[id].counter == t.counter < |s.perIp|
    requires s'.tasks == s.tasks[id := t]
    requires |s'.perIp| == |s.perIp| && s'.perIp == s.perIp[t.counter := s'.perIp[t.counter]]
    requires s'.perIp[t.counter] + Weight(Counted, s.tasks[id]) == s.perIp[t.counter] + Weight(Counted, t)
    requires s'.active == s.active - Weight(Active, s.tasks[id]) + Weight(Active, t)
    requires s'.drops == s.drops - Weight(Dropped, s.tasks[id]) + Weight(Dropped, t)
    requires s'.aborted == s.aborted - Weight(Killed, s.tasks[id]) + Weight(Killed, t)
    ensures CounterInv(s')
  {
    forall ip | 0 <= ip < |s.perIp| ensures s'.perIp[ip] == Tally(OnIp(ip), s'.tasks) {
      TallyUpdate(OnIp(ip), s.tasks, id, t);
    }
    TallyUpdate(Counted, s.tasks, id, t);
    TallyUpdate(Active, s.tasks, id, t);
    TallyUpdate(Dropped, s.tasks, id, t);
    TallyUpdate(Killed, s.tasks, id, t);
    SumUpdate(s.perIp, t.counter, s'.perIp[t.counter]);
  }

  /** No counter is ever decremented from zero. */
  lemma NoUnderflow(s: State, id: nat)
    requires CounterInv(s) && id < |s.tasks| && s.tasks[id].counter < |s.perIp|
    ensures HoldsIp(s.tasks[id].pc) ==> s.perIp[s.tasks[id].counter] > 0
    ensures Weight(Active, s.tasks[id]) == 1 ==> s.active > 0
  {
    TallyUpdate(OnIp(s.tasks[id].counter), s.tasks, id, s.tasks[id]);
    TallyUpdate(Active, s.tasks, id, s.tasks[id]);
  }

  lemma AdmitKeeps(s: State, t: Task)
    requires CounterInv(s) && t.pc.Admitted? && t.killed == 0
    ensures CounterInv(s.(tasks := s.tasks + [t]))
  {
    forall m: Measure ensures Tally(m, s.tasks + [t]) == Tally(m, s.tasks) + Weight(m, t) {
      TallySnoc(m, s.tasks, t);
    }
  }

  lemma ActKeeps(s: State, e: Event, id: nat)
    requires CounterInv(s) && TaskInv(s) && id < |s.tasks|
    ensures CounterInv(Act(s, e, id))
  {
    var s' := Act(s, e, id);
    NoUnderflow(s, id);
    if s' != s {
      PutKeeps(s, id, s'.tasks[id], s');
    }
  }

  lemma CounterStep(s: State, e: Event)
    requires CounterInv(s) && TaskInv(s)
    ensures CounterInv(Next(s, e))
  {
    if e.Admit? {
      AdmitKeeps(s, Task(e.counter, Admitted, e.children, 0, false, false, e.children, 0, 0));
    } else if e.id < |s.tasks| {
      ActKeeps(s, e, e.id);
    }
  }

  lemma ActOk(s: State, e: Event, id: nat)
    requires id < |s.tasks| && TaskOk(s.tasks[id], |s.perIp|)
    ensures var s' := Act(s, e, id);
            && |s'.perIp| == |s.perIp| && s'.ips == s.ips && |s'.tasks| == |s.tasks| && TaskOk(s'.tasks[id], |s.perIp|)
            && s'.tasks == s.tasks[id := s'.tasks[id]]
  {
  }

  lemma TaskStep(s: State, e: Event)
    requires TaskInv(s)
    ensures TaskInv(Next(s, e)) && |Next(s, e).perIp| == |s.perIp| && Next(s, e).ips == s.ips
  {
    if !e.Admit? && e.id < |s.tasks| {
      ActOk(s, e, e.id);
    }
  }

  ghost predicate Inv(s: State, ips: nat) {
    CounterInv(s) && TaskInv(s) && s.ips == ips && |s.perIp| == 2 * ips
  }

  lemma InvStep(s: State, e: Event, ips: nat)
    requires Inv(s, ips)
    ensures Inv(Next(s, e), ips)
  {
    assert CounterInv(Next(s, e)) by { CounterStep(s, e); }
    TaskStep(s, e);
  }

  lemma {:induction false} RunInv(ips: nat, es: seq<Event>)
    ensures Inv(Exec(Init(ips), es), ips)
  {
    if es == [] {
      SumZeros(2 * ips);
    } else {
      RunInv(ips, es[..|es| - 1]);
      InvStep(Exec(Init(ips), es[..|es| - 1]), es[|es| - 1], ips);
    }
  }

  /**
   Under every interleaving of gRPC and aRPC supervisors: each per-IP counter is the number of that IP's supervisors holding it, the sum
   of them exceeds the global counter by exactly the supervisors caught between the two increments and
   falls short by those between the two decrements, and every start is accounted for.
   */
  lemma Conservation(ips: nat, es: seq<Event>)
    ensures var s := Exec(Init(ips), es);
            && |s.perIp| == 2 * ips && (forall ip :: 0 <= ip < 2 * ips ==> s.perIp[ip] == Tally(OnIp(ip), s.tasks))
            && Sum(s.perIp) - s.active == Tally(MidIncrement, s.tasks) - Tally(MidDecrement, s.tasks)
            && Tally(Started, s.tasks) == s.active + s.drops + Tally(MidIncrement, s.tasks) + Tally(MidDrop, s.tasks)
  {
    RunInv(ips, es);
    TallyIdentities(Exec(Init(ips), es).tasks);
  }

  /** No supervisor is in the middle of a counter update. */
  ghost predicate AtRest(s: State) {
    forall i :: 0 <= i < |s.tasks| ==>
      !s.tasks[i].pc.IpCounted? && !s.tasks[i].pc.IpReleased? && !s.tasks[i].pc.Released?
  }

  lemma {:induction false} AtRestTallies(ts: seq<Task>)
    requires forall i :: 0 <= i < |ts| ==> !ts[i].pc.IpCounted? && !ts[i].pc.IpReleased? && !ts[i].pc.Released?
    ensures Tally(MidIncrement, ts) == Tally(MidDecrement, ts) == Tally(MidDrop, ts) == 0
  {
    if ts != [] {
      AtRestTallies(ts[..|ts| - 1]);
    }
  }

  /** At rest the global counter is the sum of the per-IP ones, and started = active + drops. */
  lemma ConservationAtRest(ips: nat, es: seq<Event>)
    requires AtRest(Exec(Init(ips), es))
    ensures var s := Exec(Init(ips), es);
            Sum(s.perIp) == s.active && Tally(Started, s.tasks) == s.active + s.drops
  {
    Conservation(ips, es);
    AtRestTallies(Exec(Init(ips), es).tasks);
  }

  lemma DecrementSafe(s: State, ips: nat, id: nat)
    requires Inv(s, ips) && id < |s.tasks|
    ensures var t := s.tasks[id];
            && (t.pc.Drained? ==> t.counter < |s.perIp| && s.perIp[t.counter] > 0 && t.children == 0 && (t.dropped || t.cancelled))
            && (t.pc.IpReleased? ==> s.active > 0 && t.children == 0 && (t.dropped || t.cancelled))
  {
    assert TaskOk(s.tasks[id], |s.perIp|);
    NoUnderflow(s, id);
  }

  /** No decrement ever meets a zero counter, and it always finds an empty join set and a signal given. */
  lemma DecrementsAreSafe(ips: nat, es: seq<Event>, id: nat)
    requires id < |Exec(Init(ips), es).tasks|
    ensures var s := Exec(Init(ips), es);
            var t := s.tasks[id];
            && (t.pc.Drained? ==> t.counter < |s.perIp| && s.perIp[t.counter] > 0 && t.children == 0 && (t.dropped || t.cancelled))
            && (t.pc.IpReleased? ==> s.active > 0 && t.children == 0 && (t.dropped || t.cancelled))
  {
    RunInv(ips, es);
    DecrementSafe(Exec(Init(ips), es), ips, id);
  }

  /** Every child of a finished supervisor ended by itself or was counted as aborted. */
  lemma ChildrenAccountedFor(ips: nat, es: seq<Event>, id: nat)
    requires id < |Exec(Init(ips), es).tasks|
    ensures var s := Exec(Init(ips), es);
            var t := s.tasks[id];
            && s.aborted == Tally(Killed, s.tasks)
            && (t.pc.Finished? ==> t.spawned == t.joined + t.killed)
  {
    RunInv(ips, es);
    var s := Exec(Init(ips), es);
    assert TaskOk(s.tasks[id], |s.perIp|);
    AllChildrenGone(s.tasks[id], |s.perIp|);
  }

  lemma AllChildrenGone(t: Task, counters: nat)
    requires TaskOk(t, counters)
    ensures t.pc.Finished? ==> t.spawned == t.joined + t.killed
  {
  }

  // ---------------------------------------------------------------------------------------------
  // One life per supervisor
  // ---------------------------------------------------------------------------------------------

  function Rank(pc: Pc): nat {
    match pc
    case Admitted => 0
    case Abandoned => 1
    case IpCounted => 2
    case Waiting => 3
    case Draining => 4
    case Aborting => 5
    case Drained => 6
    case IpReleased => 7
    case Released => 8
    case Finished => 9
  }

  lemma RankStep(s: State, e: Event, id: nat)
    requires id < |s.tasks|
    ensures id < |Next(s, e).tasks| && Rank(Next(s, e).tasks[id].pc) >= Rank(s.tasks[id].pc)
  {
  }

  /** A supervisor never goes back, so it passes each of its counter updates at most once. */
  lemma {:induction false} NeverGoesBack(s: State, es: seq<Event>, id: nat)
    requires id < |s.tasks|
    ensures id < |Exec(s, es).tasks| && Rank(Exec(s, es).tasks[id].pc) >= Rank(s.tasks[id].pc)
  {
    if es != [] {
      NeverGoesBack(s, es[..|es| - 1], id);
      RankStep(Exec(s, es[..|es| - 1]), es[|es| - 1], id);
    }
  }

  ghost predicate Unsignalled(t: Task) {
    Rank(t.pc) <= 3 && !t.dropped && !t.cancelled
  }

  lemma UnsignalledStep(s: State, e: Event, id: nat)
    requires id < |s.tasks| && Unsignalled(s.tasks[id])
    requires e != DropHandle(id) && e != ExternalCancel(id)
    ensures id < |Next(s, e).tasks| && Unsignalled(Next(s, e).tasks[id])
  {
  }

  /** Children finishing is no termination signal: without a drop or a cancel a supervisor keeps waiting. */
  lemma {:induction false} ChildrenDoNotEndIt(s: State, es: seq<Event>, id: nat)
    requires id < |s.tasks| && Unsignalled(s.tasks[id])
    requires DropHandle(id) !in es && ExternalCancel(id) !in es
    ensures id < |Exec(s, es).tasks| && Unsignalled(Exec(s, es).tasks[id])
  {
    if es != [] {
      var n := |es| - 1;
      ChildrenDoNotEndIt(s, es[..n], id);
      assert es[n] in es;
      UnsignalledStep(Exec(s, es[..n]), es[n], id);
    }
  }

  // ---------------------------------------------------------------------------------------------
  // A whole life
  // ---------------------------------------------------------------------------------------------

  lemma {:induction false} ExecConcat(s: State, es: seq<Event>, fs: seq<Event>)
    ensures Exec(s, es + fs) == Exec(Exec(s, es), fs)
  {
    if fs == [] {
      assert es + fs == es;
    } else {
      var n := |fs| - 1;
      ExecConcat(s, es, fs[..n]);
      assert (es + fs)[..|es + fs| - 1] == es + fs[..n];
    }
  }

  lemma ExecOne(s: State, e: Event)
    ensures Exec(s, [e]) == Next(s, e)
  {
    assert [e][..0] == [];
  }

  lemma PutPut(s: State, id: nat, t: Task, u: Task)
    requires id < |s.tasks|
    ensures Put(Put(s, id, t), id, u) == Put(s, id, u)
  {
    assert s.tasks[id := t][id := u] == s.tasks[id := u];
  }

  lemma PutSame(s: State, id: nat)
    requires id < |s.tasks|
    ensures Put(s, id, s.tasks[id]) == s
  {
    assert s.tasks[id := s.tasks[id]] == s.tasks;
  }

  lemma JoinStep(s: State, id: nat, t: Task)
    requires id < |s.tasks| && t.counter < |s.perIp| && (t.pc.Draining? || t.pc.Aborting?)
    ensures Next(Put(s, id, t), JoinNext(id)) == Put(s, id, Join(t))
  {
    PutPut(s, id, t, Join(t));
  }

  lemma JoinAgain(s: State, id: nat, p: State, es: seq<Event>, u: Task)
    requires id < |s.tasks| && u.counter < |s.perIp| && (u.pc.Draining? || u.pc.Aborting?) && Exec(p, es) == Put(s, id, u)
    ensures Exec(p, es + [JoinNext(id)]) == Put(s, id, Join(u))
  {
    assert (es + [JoinNext(id)])[..|es|] == es;
    JoinStep(s, id, u);
  }

  /** n children that ended by themselves are joined within the grace period. */
  lemma {:induction false} JoinsExited(s: State, id: nat, t: Task, n: nat) returns (es: seq<Event>)
    requires id < |s.tasks| && t.counter < |s.perIp| && t.pc.Draining? && n <= t.exited <= t.children
    ensures Exec(Put(s, id, t), es) == Put(s, id, WithJoined(t, n))
    ensures forall e :: e in es ==> e == JoinNext(id)
  {
    es := [];
    if n > 0 {
      es := JoinsExited(s, id, t, n - 1);
      JoinOneMore(t, n - 1);
      JoinAgain(s, id, Put(s, id, t), es, WithJoined(t, n - 1));
      es := es + [JoinNext(id)];
    }
  }

  function WithJoined(t: Task, n: nat): Task
    requires n <= t.exited <= t.children
  {
    t.(children := t.children - n, exited := t.exited - n, joined := t.joined + n)
  }

  lemma JoinOneMore(t: Task, n: nat)
    requires t.pc.Draining? && n < t.exited <= t.children
    ensures Join(WithJoined(t, n)) == WithJoined(t, n + 1)
  {
  }

  /** After the abort n of the rest are joined, whatever state they are in. */
  lemma {:induction false} JoinsAborted(s: State, id: nat, t: Task, n: nat) returns (es: seq<Event>, u: Task)
    requires id < |s.tasks| && t.counter < |s.perIp| && t.pc.Aborting? && t.exited <= t.children && n <= t.children
    ensures Exec(Put(s, id, t), es) == Put(s, id, u)
    ensures u == t.(children := t.children - n, exited := u.exited) && u.exited <= u.children
    ensures forall e :: e in es ==> e == JoinNext(id)
  {
    es, u := [], t;
    if n > 0 {
      es, u := JoinsAborted(s, id, t, n - 1);
      JoinAgain(s, id, Put(s, id, t), es, u);
      u := JoinAborting(u);
      es := es + [JoinNext(id)];
    }
  }

  lemma JoinAborting(t: Task) returns (u: Task)
    requires t.pc.Aborting? && t.children > 0 && t.exited <= t.children
    ensures u == Join(t) == t.(children := t.children - 1, exited := u.exited) && u.exited <= u.children
  {
    u := Join(t);
  }

  /** The grace period ends: the children still there are counted, aborted and joined. */
  lemma AbortDrains(s: State, id: nat, t: Task) returns (es: seq<Event>, u: Task)
    requires id < |s.tasks| && t.counter < |s.perIp| && t.pc.Draining? && t.exited <= t.children
    ensures forall e :: e in es ==> e == GraceOver(id) || e == JoinNext(id)
    ensures Exec(Put(s, id, t), es) == Put(s, id, u).(aborted := s.aborted + t.children)
    ensures u.pc.Drained? && u.counter == t.counter && u.children == 0
  {
    var p := Put(s, id, t);
    es := [GraceOver(id)];
    ExecOne(p, GraceOver(id));
    if t.children == 0 {
      u := t.(pc := Drained);
      PutPut(s, id, t, u);
    } else {
      var g, k := GraceAborts(s, id, t);
      var joins;
      joins, u := AbortedDrains(g, id, k);
      ExecConcat(p, es, joins);
      es := es + joins;
    }
  }

  lemma GraceAborts(s: State, id: nat, t: Task) returns (g: State, k: Task)
    requires id < |s.tasks| && t.counter < |s.perIp| && t.pc.Draining? && t.children > 0
    ensures g == s.(aborted := s.aborted + t.children) && k == t.(pc := Aborting, killed := t.children)
    ensures Next(Put(s, id, t), GraceOver(id)) == Put(g, id, k)
  {
    g, k := s.(aborted := s.aborted + t.children), t.(pc := Aborting, killed := t.children);
    PutPut(s, id, t, k);
  }

  lemma AbortedDrains(g: State, id: nat, k: Task) returns (es: seq<Event>, u: Task)
    requires id < |g.tasks| && k.counter < |g.perIp| && k.pc.Aborting? && k.exited <= k.children
    ensures Exec(Put(g, id, k), es) == Put(g, id, u)
    ensures u.pc.Drained? && u.counter == k.counter && u.children == 0
    ensures forall e :: e in es ==> e == JoinNext(id)
  {
    es, u := JoinsAborted(g, id, k, k.children);
    JoinAgain(g, id, Put(g, id, k), es, u);
    es, u := es + [JoinNext(id)], Join(u);
  }

  /** The three closing updates. */
  lemma Releases(s: State, id: nat, t: Task)
    requires id < |s.tasks| && t.counter < |s.perIp| && t.pc.Drained? && s.perIp[t.counter] > 0 && s.active > 0
    ensures Exec(Put(s, id, t), [DecIp(id), DecGlobal(id), CountDrop(id)]) ==
            Put(s, id, t.(pc := Finished)).(perIp := s.perIp[t.counter := s.perIp[t.counter] - 1],
                                            active := s.active - 1, drops := s.drops + 1)
  {
    var p := Put(s, id, t);
    var a := Next(p, DecIp(id));
    ReleasesIp(s, id, t);
    var b := Next(a, DecGlobal(id));
    ReleasesGlobal(s, id, t, a);
    ExecOne(p, DecIp(id));
    assert [DecIp(id), DecGlobal(id)][..1] == [DecIp(id)];
    assert Exec(p, [DecIp(id), DecGlobal(id)]) == b;
    assert [DecIp(id), DecGlobal(id), CountDrop(id)][..2] == [DecIp(id), DecGlobal(id)];
    PutPut(s, id, t.(pc := Released), t.(pc := Finished));
  }

  lemma ReleasesIp(s: State, id: nat, t: Task)
    requires id < |s.tasks| && t.counter < |s.perIp| && t.pc.Drained? && s.perIp[t.counter] > 0
    ensures Next(Put(s, id, t), DecIp(id)) ==
            Put(s, id, t.(pc := IpReleased)).(perIp := s.perIp[t.counter := s.perIp[t.counter] - 1])
  {
    PutPut(s, id, t, t.(pc := IpReleased));
  }

  lemma ReleasesGlobal(s: State, id: nat, t: Task, a: State)
    requires id < |s.tasks| && t.counter < |s.perIp| && s.active > 0 && s.perIp[t.counter] > 0
    requires a == Put(s, id, t.(pc := IpReleased)).(perIp := s.perIp[t.counter := s.perIp[t.counter] - 1])
    ensures Next(a, DecGlobal(id)) == Put(s, id, t.(pc := Released)).(perIp := a.perIp, active := s.active - 1)
  {
    PutPut(s, id, t.(pc := IpReleased), t.(pc := Released));
  }

  /** `u` is `s` with supervisor `id` finished: its counters given back, its drop counted, its aborted children counted. */
  ghost predicate FinishedFrom(s: State, id: nat, killed: nat, u: State)
    requires id < |s.tasks| && s.tasks[id].counter < |s.perIp|
  {
    var c := s.tasks[id].counter;
    && s.perIp[c] > 0 && s.active > 0
    && |u.tasks| == |s.tasks| && u.tasks[id].pc.Finished? && u.tasks == s.tasks[id := u.tasks[id]]
    && u.perIp == s.perIp[c := s.perIp[c] - 1] && u.active == s.active - 1
    && u.drops == s.drops + 1 && u.aborted == s.aborted + killed
  }

  /**
   From every reachable state, a supervisor that is waiting and has been dropped or cancelled finishes by its own
   steps. Of its finished children any n may be joined within the grace period; the others are counted as aborted.
   */
  lemma Finishes(ips: nat, before: seq<Event>, id: nat, n: nat) returns (es: seq<Event>)
    requires var s := Exec(Init(ips), before);
             && id < |s.tasks| && s.tasks[id].pc.Waiting? && (s.tasks[id].dropped || s.tasks[id].cancelled)
             && n <= s.tasks[id].exited
    ensures forall e :: e in es ==> e in [Signalled(id), JoinNext(id), GraceOver(id), DecIp(id), DecGlobal(id), CountDrop(id)]
    ensures var s := Exec(Init(ips), before);
            && s.tasks[id].counter < |s.perIp|
            && s.tasks[id].exited <= s.tasks[id].children
            && FinishedFrom(s, id, s.tasks[id].children - n, Exec(s, es))
  {
    var s := Exec(Init(ips), before);
    RunInv(ips, before);
    assert TaskOk(s.tasks[id], |s.perIp|);
    NoUnderflow(s, id);
    es := FinishesFrom(s, id, n);
  }

  lemma FinishesFrom(s: State, id: nat, n: nat) returns (es: seq<Event>)
    requires id < |s.tasks| && s.tasks[id].pc.Waiting? && (s.tasks[id].dropped || s.tasks[id].cancelled)
    requires n <= s.tasks[id].exited <= s.tasks[id].children && s.tasks[id].counter < |s.perIp|
    requires s.perIp[s.tasks[id].counter] > 0 && s.active > 0
    ensures forall e :: e in es ==> e in [Signalled(id), JoinNext(id), GraceOver(id), DecIp(id), DecGlobal(id), CountDrop(id)]
    ensures FinishedFrom(s, id, s.tasks[id].children - n, Exec(s, es))
  {
    var t := s.tasks[id];
    var drains, u := Drains(s, id, n);
    var g := s.(aborted := s.aborted + (t.children - n));
    Releases(g, id, u);
    var closing := [DecIp(id), DecGlobal(id), CountDrop(id)];
    assert Exec(s, drains) == Put(g, id, u);
    ExecConcat(s, drains, closing);
    es := drains + closing;
  }

  /** From the signal to an empty join set. */
  lemma Drains(s: State, id: nat, n: nat) returns (es: seq<Event>, u: Task)
    requires id < |s.tasks| && s.tasks[id].pc.Waiting? && (s.tasks[id].dropped || s.tasks[id].cancelled)
    requires n <= s.tasks[id].exited <= s.tasks[id].children && s.tasks[id].counter < |s.perIp|
    ensures forall e :: e in es ==> e == Signalled(id) || e == JoinNext(id) || e == GraceOver(id)
    ensures Exec(s, es) == Put(s, id, u).(aborted := s.aborted + (s.tasks[id].children - n))
    ensures u.pc.Drained? && u.counter == s.tasks[id].counter && u.children == 0
  {
    var t := s.tasks[id];
    var d := t.(pc := Draining);
    ExecOne(s, Signalled(id));
    assert Exec(s, [Signalled(id)]) == Put(s, id, d);
    var joins := JoinsExited(s, id, d, n);
    var j := WithJoined(d, n);
    ExecConcat(s, [Signalled(id)], joins);
    var aborts;
    aborts, u := AbortDrains(s, id, j);
    ExecConcat(s, [Signalled(id)] + joins, aborts);
    es := [Signalled(id)] + joins + aborts;
  }

  /** A subscribe is admitted exactly below the limit of 500, aRPC always; started, it counts once on each counter. */
  lemma Begins(s: State, counter: nat, children: nat, id: nat)
    requires counter < |s.perIp| && id == |s.tasks|
    ensures var a := Next(s, Admit(counter, children));
            && (counter < s.ips && s.perIp[counter] >= 500 ==> a == s)
            && (counter >= s.ips || s.perIp[counter] < 500 ==>
                  var w := Exec(a, [StartIp(id), StartGlobal(id)]);
                  && a.perIp == s.perIp && a.active == s.active && |w.tasks| == |s.tasks| + 1 && w.tasks[..id] == s.tasks
                  && w.tasks[id] == Task(counter, Waiting, children, 0, false, false, children, 0, 0)
                  && w.perIp == s.perIp[counter := s.perIp[counter] + 1] && w.active == s.active + 1
                  && w.drops == s.drops && w.aborted == s.aborted
                  && Next(a, Abandon(id)) == a.(tasks := a.tasks[id := a.tasks[id].(pc := Abandoned)]))
  {
    var a := Next(s, Admit(counter, children));
    assert [StartIp(id), StartGlobal(id)][..1] == [StartIp(id)];
    ExecOne(a, StartIp(id));
  }

  /** The two signals and a child's end, as the environment gives them to a waiting supervisor. */
  lemma Signals(s: State, id: nat)
    requires id < |s.tasks| && s.tasks[id].counter < |s.perIp| && s.tasks[id].pc.Waiting?
    ensures var t := s.tasks[id];
            && Next(s, DropHandle(id)) == s.(tasks := s.tasks[id := t.(dropped := true)])
            && Next(s, ExternalCancel(id)) == s.(tasks := s.tasks[id := t.(cancelled := true)])
            && (t.exited < t.children ==> Next(s, ChildExit(id)) == s.(tasks := s.tasks[id := t.(exited := t.exited + 1)]))
  {
  }

  // ---------------------------------------------------------------------------------------------
  // The stream limit per IP
  // ---------------------------------------------------------------------------------------------

  /** At no point are more than m subscribes of the IP between the limit check and their start. */
  ghost predicate Throttled(s: State, es: seq<Event>, ip: nat, m: nat) {
    && Tally(Pending(ip), Exec(s, es).tasks) <= m
    && (es != [] ==> Throttled(s, es[..|es| - 1], ip, m))
  }

  lemma ActBound(s: State, e: Event, id: nat, ip: nat)
    requires CounterInv(s) && TaskInv(s) && ip < |s.perIp| && id < |s.tasks|
    ensures var s' := Act(s, e, id);
            && |s'.perIp| == |s.perIp| && |s'.tasks| == |s.tasks|
            && s'.perIp[ip] + Weight(Pending(ip), s'.tasks[id]) <= s.perIp[ip] + Weight(Pending(ip), s.tasks[id])
  {
    NoUnderflow(s, id);
  }

  lemma BoundStep(s: State, e: Event, ip: nat, m: nat)
    requires CounterInv(s) && TaskInv(s) && ip < |s.perIp| && ip < s.ips
    requires s.perIp[ip] + Tally(Pending(ip), s.tasks) <= MAX_STREAMS_PER_IP - 1 + m
    requires Tally(Pending(ip), Next(s, e).tasks) <= m
    ensures |Next(s, e).perIp| == |s.perIp|
    ensures Next(s, e).perIp[ip] + Tally(Pending(ip), Next(s, e).tasks) <= MAX_STREAMS_PER_IP - 1 + m
  {
    if e.Admit? {
      TallySnoc(Pending(ip), s.tasks, Task(e.counter, Admitted, e.children, 0, false, false, e.children, 0, 0));
    } else if e.id < |s.tasks| {
      ActBound(s, e, e.id, ip);
      ActOk(s, e, e.id);
      TallyUpdate(Pending(ip), s.tasks, e.id, Act(s, e, e.id).tasks[e.id]);
    }
  }

  /** Check and increment are separate steps, so the real bound is 499 plus the subscribes in between. */
  lemma {:induction false} StreamBound(ips: nat, es: seq<Event>, ip: nat, m: nat)
    requires ip < ips && Throttled(Init(ips), es, ip, m)
    ensures var s := Exec(Init(ips), es);
            ip < |s.perIp| && s.perIp[ip] + Tally(Pending(ip), s.tasks) <= 499 + m
  {
    RunInv(ips, es);
    if es != [] {
      StreamBound(ips, es[..|es| - 1], ip, m);
      RunInv(ips, es[..|es| - 1]);
      BoundStep(Exec(Init(ips), es[..|es| - 1]), es[|es| - 1], ip, m);
    }
  }

  /** `counted` supervisors of IP 0 started one by one, then `pending` admitted ones. */
  ghost predicate Filled(s: State, counted: nat, pending: nat) {
    && s.ips == 1 && s.perIp == [counted, 0]
    && |s.tasks| == counted + pending
    && Tally(Pending(0), s.tasks) == pending
    && forall i :: counted <= i < |s.tasks| ==> s.tasks[i].counter == 0 && s.tasks[i].pc.Admitted?
  }

  lemma AdmitsOne(s: State, counted: nat, pending: nat)
    requires Filled(s, counted, pending) && counted < MAX_STREAMS_PER_IP
    ensures Filled(Next(s, Admit(0, 0)), counted, pending + 1)
  {
    TallySnoc(Pending(0), s.tasks, Task(0, Admitted, 0, 0, false, false, 0, 0, 0));
  }

  lemma StartsOne(s: State, counted: nat, pending: nat)
    requires Filled(s, counted, pending) && 0 < pending
    ensures Filled(Next(s, StartIp(counted)), counted + 1, pending - 1)
  {
    var t := s.tasks[counted].(pc := IpCounted);
    assert Next(s, StartIp(counted)).tasks == s.tasks[counted := t];
    TallyUpdate(Pending(0), s.tasks, counted, t);
    assert Next(s, StartIp(counted)).perIp == [counted + 1, 0];
  }

  /** A throttled run of IP 0 that ends so. */
  ghost predicate Fills(es: seq<Event>, counted: nat, pending: nat, m: nat) {
    Throttled(Init(1), es, 0, m) && Filled(Exec(Init(1), es), counted, pending)
  }

  lemma ExecSnoc(es: seq<Event>, e: Event)
    ensures Exec(Init(1), es + [e]) == Next(Exec(Init(1), es), e)
  {
    assert (es + [e])[..|es|] == es;
  }

  lemma ThrottledSnoc(es: seq<Event>, e: Event, m: nat)
    requires Throttled(Init(1), es, 0, m) && Tally(Pending(0), Exec(Init(1), es + [e]).tasks) <= m
    ensures Throttled(Init(1), es + [e], 0, m)
  {
    assert (es + [e])[..|es|] == es;
  }

  lemma AdmitNext(es: seq<Event>, counted: nat, pending: nat, m: nat)
    requires Fills(es, counted, pending, m) && counted < MAX_STREAMS_PER_IP && pending < m
    ensures Fills(es + [Admit(0, 0)], counted, pending + 1, m)
  {
    AdmitsOne(Exec(Init(1), es), counted, pending);
    ExecSnoc(es, Admit(0, 0));
    ThrottledSnoc(es, Admit(0, 0), m);
  }

  lemma StartNext(es: seq<Event>, counted: nat, pending: nat, m: nat)
    requires Fills(es, counted, pending, m) && 0 < pending <= m
    ensures Fills(es + [StartIp(counted)], counted + 1, pending - 1, m)
  {
    StartsOne(Exec(Init(1), es), counted, pending);
    ExecSnoc(es, StartIp(counted));
    ThrottledSnoc(es, StartIp(counted), m);
  }

  lemma {:induction false} FillUp(counted: nat, m: nat) returns (es: seq<Event>)
    requires counted < MAX_STREAMS_PER_IP && m > 0
    ensures Fills(es, counted, 0, m)
  {
    if counted == 0 {
      es := [];
      FillNone(m);
    } else {
      es := FillUp(counted - 1, m);
      es := FillOne(es, counted - 1, m);
    }
  }

  lemma FillNone(m: nat)
    ensures Fills([], 0, 0, m)
  {
    assert Init(1).perIp == [0, 0];
  }

  lemma FillOne(es: seq<Event>, counted: nat, m: nat) returns (fs: seq<Event>)
    requires Fills(es, counted, 0, m) && counted < MAX_STREAMS_PER_IP && m > 0
    ensures Fills(fs, counted + 1, 0, m)
  {
    AdmitNext(es, counted, 0, m);
    fs := es + [Admit(0, 0)];
    StartNext(fs, counted, 1, m);
    fs := fs + [StartIp(counted)];
  }

  lemma {:induction false} AdmitMany(es: seq<Event>, counted: nat, pending: nat, m: nat) returns (fs: seq<Event>)
    requires Fills(es, counted, pending, m) && counted < MAX_STREAMS_PER_IP && pending <= m
    ensures Fills(fs, counted, m, m)
    decreases m - pending
  {
    fs := es;
    if pending < m {
      AdmitNext(es, counted, pending, m);
      fs := AdmitMany(es + [Admit(0, 0)], counted, pending + 1, m);
    }
  }

  lemma {:induction false} StartMany(es: seq<Event>, counted: nat, pending: nat, m: nat) returns (fs: seq<Event>)
    requires Fills(es, counted, pending, m) && pending <= m
    ensures Fills(fs, counted + pending, 0, m)
    decreases pending
  {
    fs := es;
    if pending > 0 {
      StartNext(es, counted, pending, m);
      fs := StartMany(es + [StartIp(counted)], counted + 1, pending - 1, m);
    }
  }

  /** The bound is attained for every m: with m subscribes in between, 499 + m streams can be active. */
  lemma StreamBoundAttained(m: nat)
    requires m > 0
    ensures exists es :: Throttled(Init(1), es, 0, m) && Exec(Init(1), es).perIp == [499 + m, 0]
  {
    var es := FillUp(MAX_STREAMS_PER_IP - 1, m);
    es := AdmitMany(es, MAX_STREAMS_PER_IP - 1, 0, m);
    es := StartMany(es, MAX_STREAMS_PER_IP - 1, m, m);
  }
}
