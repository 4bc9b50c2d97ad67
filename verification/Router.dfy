/** Choosing and trying nodes: priority failover, round robin for heavy calls, and fan-out of transactions. */
module Router {
  import opened Prelude

  datatype Node = Node(id: string, priority: nat, healthy: bool)

  type Response = Bytes

  /** What each attempt on a node would answer; the attempt itself is I/O. */
  type Upstreams = Node -> Result<Response, string>

  function HealthyNodes(nodes: seq<Node>): (r: seq<Node>)
    ensures forall n :: n in r <==> n in nodes && n.healthy
  {
    if nodes == [] then []
    else
      var n := |nodes| - 1;
      assert nodes == nodes[..n] + [nodes[n]];
      if nodes[n].healthy then HealthyNodes(nodes[..n]) + [nodes[n]] else HealthyNodes(nodes[..n])
  }

  /** In configuration order, each as often as it is listed: the healthy nodes are those at the healthy positions. */
  lemma {:induction false} HealthyInOrder(nodes: seq<Node>) returns (at: seq<nat>)
    ensures PositionsOf(nodes, HealthyNodes(nodes), at)
  {
    at := [];
    if nodes != [] {
      var n := |nodes| - 1;
      at := HealthyInOrder(nodes[..n]);
      PositionsSnoc(nodes[..n], HealthyNodes(nodes[..n]), at, nodes[n]);
      assert nodes == nodes[..n] + [nodes[n]];
      if nodes[n].healthy {
        at := at + [n];
      }
    }
  }

  ghost predicate PositionsOf(nodes: seq<Node>, healthy: seq<Node>, at: seq<nat>) {
    && |at| == |healthy|
    && (forall i, j :: 0 <= i < j < |at| ==> at[i] < at[j])
    && (forall i :: 0 <= i < |at| ==> at[i] < |nodes| && healthy[i] == nodes[at[i]])
    && (forall k: nat :: k in at <==> k < |nodes| && nodes[k].healthy)
  }

  lemma PositionsSnoc(nodes: seq<Node>, healthy: seq<Node>, at: seq<nat>, n: Node)
    requires PositionsOf(nodes, healthy, at)
    ensures n.healthy ==> PositionsOf(nodes + [n], healthy + [n], at + [|nodes|])
    ensures !n.healthy ==> PositionsOf(nodes + [n], healthy, at)
  {
    assert forall k: nat :: k < |nodes| ==> (nodes + [n])[k] == nodes[k];
    assert forall k: nat :: k in at + [|nodes|] <==> k in at || k == |nodes|;
  }

  // ---------------------------------------------------------------------------------------------
  // Trying nodes in order
  // ---------------------------------------------------------------------------------------------

  /** The first success in order, or the last error. */
  function FirstSuccess(order: seq<Node>, ask: Upstreams, error: string): Result<Response, string> {
    if order == [] then Err(error)
    else match ask(order[0])
      case Ok(resp) => Ok(resp)
      case Err(e) => FirstSuccess(order[1..], ask, e)
  }

  /** How many nodes of the order are tried. */
  function Tried(order: seq<Node>, ask: Upstreams): (n: nat)
    ensures n <= |order|
  {
    if order == [] then 0 else if ask(order[0]).Ok? then 1 else 1 + Tried(order[1..], ask)
  }

  lemma {:induction false} FailsOnlyAfterAll(order: seq<Node>, ask: Upstreams, error: string)
    ensures FirstSuccess(order, ask, error).Ok? <==> exists i :: 0 <= i < |order| && ask(order[i]).Ok?
    ensures FirstSuccess(order, ask, error).Err? ==> Tried(order, ask) == |order|
    ensures FirstSuccess(order, ask, error).Ok? ==>
              var k := Tried(order, ask) - 1;
              && 0 <= k && ask(order[k]) == FirstSuccess(order, ask, error)
              && forall i :: 0 <= i < k ==> ask(order[i]).Err?
    ensures FirstSuccess(order, ask, error).Err? ==>
              FirstSuccess(order, ask, error) == if order == [] then Err(error) else ask(order[|order| - 1])
  {
    if order != [] && ask(order[0]).Err? {
      var rest := order[1..];
      FailsOnlyAfterAll(rest, ask, ask(order[0]).error);
      if i :| 0 <= i < |order| && ask(order[i]).Ok? {
        assert rest[i - 1] == order[i];
      }
      if FirstSuccess(order, ask, error).Ok? {
        var k := Tried(rest, ask) - 1;
        assert order[k + 1] == rest[k];
        assert forall i :: 1 <= i <= k ==> order[i] == rest[i - 1];
      }
    }
  }

  // ---------------------------------------------------------------------------------------------
  // Read calls: priority order
  // ---------------------------------------------------------------------------------------------

  /** min_by_key keeps the first of several minima. */
  function PickReadNode(nodes: seq<Node>): Option<Node> {
    MinByPriority(HealthyNodes(nodes))
  }

  function MinByPriority(nodes: seq<Node>): Option<Node> {
    if nodes == [] then None
    else
      var rest := MinByPriority(nodes[1..]);
      if rest.Some? && rest.value.priority < nodes[0].priority then rest else Some(nodes[0])
  }

  function Insert(n: Node, sorted: seq<Node>): seq<Node> {
    if sorted == [] || n.priority <= sorted[0].priority then [n] + sorted
    else [sorted[0]] + Insert(n, sorted[1..])
  }

  /** sort_by_key: a stable sort. */
  function SortByPriority(nodes: seq<Node>): seq<Node> {
    if nodes == [] then [] else Insert(nodes[0], SortByPriority(nodes[1..]))
  }

  ghost predicate Sorted(nodes: seq<Node>) {
    forall i, j :: 0 <= i < j < |nodes| ==> nodes[i].priority <= nodes[j].priority
  }

  function OfPriority(p: nat, nodes: seq<Node>): seq<Node> {
    if nodes == [] then []
    else (if nodes[0].priority == p then [nodes[0]] else []) + OfPriority(p, nodes[1..])
  }

  lemma {:induction false} InsertPermutes(n: Node, sorted: seq<Node>)
    ensures multiset(Insert(n, sorted)) == multiset(sorted) + multiset{n}
  {
    if sorted != [] && n.priority > sorted[0].priority {
      assert sorted == [sorted[0]] + sorted[1..];
      InsertPermutes(n, sorted[1..]);
    }
  }

  lemma {:induction false} InsertSorts(n: Node, sorted: seq<Node>)
    requires Sorted(sorted)
    ensures Sorted(Insert(n, sorted))
  {
    if sorted != [] && n.priority > sorted[0].priority {
      var head, rest := sorted[0], sorted[1..];
      InsertSorts(n, rest);
      InsertPermutes(n, rest);
      forall x | x in Insert(n, rest) ensures head.priority <= x.priority {
        assert x in multiset(Insert(n, rest));
        if x != n {
          assert x in multiset(rest);
          var i :| 0 <= i < |rest| && rest[i] == x;
          assert sorted[i + 1] == x;
        }
      }
    }
  }

  lemma OfPriorityCons(p: nat, n: Node, rest: seq<Node>)
    ensures OfPriority(p, [n] + rest) == (if n.priority == p then [n] else []) + OfPriority(p, rest)
  {
    assert ([n] + rest)[1..] == rest;
  }

  lemma {:induction false} InsertIsStable(n: Node, sorted: seq<Node>, p: nat)
    requires Sorted(sorted)
    ensures OfPriority(p, Insert(n, sorted)) == (if n.priority == p then [n] else []) + OfPriority(p, sorted)
  {
    if sorted == [] || n.priority <= sorted[0].priority {
      OfPriorityCons(p, n, sorted);
    } else {
      var head, rest := sorted[0], sorted[1..];
      InsertIsStable(n, rest, p);
      OfPriorityCons(p, head, Insert(n, rest));
      assert sorted == [head] + rest;
      OfPriorityCons(p, head, rest);
    }
  }

  /** The order of attempts: a permutation of the healthy nodes, sorted, ties in configuration order. */
  lemma {:induction false} SortIsStable(nodes: seq<Node>, p: nat)
    ensures Sorted(SortByPriority(nodes))
    ensures multiset(SortByPriority(nodes)) == multiset(nodes)
    ensures OfPriority(p, SortByPriority(nodes)) == OfPriority(p, nodes)
  {
    if nodes != [] {
      SortIsStable(nodes[1..], p);
      InsertPermutes(nodes[0], SortByPriority(nodes[1..]));
      InsertSorts(nodes[0], SortByPriority(nodes[1..]));
      InsertIsStable(nodes[0], SortByPriority(nodes[1..]), p);
      assert nodes == [nodes[0]] + nodes[1..];
    }
  }

  /** The node a read call tries first is the one pick_read_node returns. */
  lemma {:induction false} FirstTriedIsPicked(nodes: seq<Node>)
    ensures nodes == [] <==> SortByPriority(nodes) == []
    ensures nodes != [] ==> MinByPriority(nodes) == Some(SortByPriority(nodes)[0])
  {
    if nodes != [] {
      FirstTriedIsPicked(nodes[1..]);
    }
  }

  method ForwardReadRpc(nodes: seq<Node>, ask: Upstreams) returns (r: Result<Response, string>, attempts: seq<Node>)
    ensures var order := SortByPriority(HealthyNodes(nodes));
            && r == (if order == [] then Err("No healthy nodes") else FirstSuccess(order, ask, ""))
            && attempts == order[..Tried(order, ask)]
    ensures attempts != [] ==> PickReadNode(nodes) == Some(attempts[0])
  {
    var healthy := HealthyNodes(nodes);
    FirstTriedIsPicked(healthy);
    attempts := [];
    if healthy == [] {
      return Err("No healthy nodes"), attempts;
    }
    healthy := SortByPriority(healthy);
    var lastErr := "";
    assert healthy[0..] == healthy;
    for i := 0 to |healthy|
      invariant attempts == healthy[..i]
      invariant FirstSuccess(healthy, ask, "") == FirstSuccess(healthy[i..], ask, lastErr)
      invariant Tried(healthy, ask) == i + Tried(healthy[i..], ask)
    {
      assert healthy[i..][1..] == healthy[i + 1..];
      assert healthy[..i] + [healthy[i]] == healthy[..i + 1];
      attempts := attempts + [healthy[i]];
      match ask(healthy[i])
      case Ok(resp) => return Ok(resp), attempts;
      case Err(e) => lastErr := e;
    }
    return Err(lastErr), attempts;
  }

  // ---------------------------------------------------------------------------------------------
  // Heavy calls: round robin
  // ---------------------------------------------------------------------------------------------

  /** All nodes in cyclic order from `start`. */
  function Cycle(nodes: seq<Node>, start: nat): seq<Node>
    requires start < |nodes| || nodes == []
  {
    if nodes == [] then [] else nodes[start..] + nodes[..start]
  }

  class RoundRobin {
    var counter: nat

    method ForwardHeavyRpc(nodes: seq<Node>, ask: Upstreams)
      returns (r: Result<Response, string>, attempts: seq<Node>)
      requires counter < U64
      modifies this
      ensures var healthy := HealthyNodes(nodes);
              if healthy == [] then
                counter == old(counter) && attempts == [] && r == Err("No healthy nodes for heavy RPC")
              else
                var order := Cycle(healthy, old(counter) % |healthy|);
                && counter == (old(counter) + 1) % U64
                && r == FirstSuccess(order, ask, "")
                && attempts == order[..Tried(order, ask)]
    {
      var healthy := HealthyNodes(nodes);
      attempts := [];
      if healthy == [] {
        return Err("No healthy nodes for heavy RPC"), attempts;
      }
      var start := counter % |healthy|;
      counter := (counter + 1) % U64;
      r, attempts := TryFrom(healthy, start, ask);
    }

    /** The node that call number c tries first. */
    method FirstTried(nodes: seq<Node>, ask: Upstreams, ghost healthy: seq<Node>, ghost begin: nat, ghost c: nat) returns (first: Node)
      requires counter == Counted(begin, c) && healthy == HealthyNodes(nodes) && healthy != []
      modifies this
      ensures counter == Counted(begin, c + 1)
      ensures first == healthy[Turn(begin, c, |healthy|)]
    {
      CycleAt(healthy, counter % |healthy|, 0);
      QuotRem(counter % |healthy|, |healthy|, 0, counter % |healthy|);
      CounterStep(begin, c);
      var _, attempts := ForwardHeavyRpc(nodes, ask);
      first := attempts[0];
    }

    /** Consecutive heavy calls over the same nodes, each with its own answers; who is tried first in each? */
    method ForwardHeavyCalls(nodes: seq<Node>, asks: seq<Upstreams>) returns (firsts: seq<Node>)
      requires counter < U64
      modifies this
      ensures var healthy := HealthyNodes(nodes);
              if healthy == [] then firsts == [] && counter == old(counter)
              else
                && firsts == FirstChoices(healthy, old(counter), |asks|)
                && counter == (old(counter) + |asks|) % U64
                && (NoSkew(old(counter), |asks|, |healthy|) ==>
                      forall x :: FairTo(healthy, firsts, x))
    {
      var healthy := HealthyNodes(nodes);
      firsts := [];
      if healthy == [] {
        for c := 0 to |asks|
          invariant counter == old(counter)
        {
          var _, _ := ForwardHeavyRpc(nodes, asks[c]);
        }
        return;
      }
      firsts := AllFirsts(nodes, asks, healthy);
      if NoSkew(old(counter), |asks|, |healthy|) {
        FairToAll(healthy, old(counter), |asks|);
      }
    }

    method AllFirsts(nodes: seq<Node>, asks: seq<Upstreams>, ghost healthy: seq<Node>) returns (firsts: seq<Node>)
      requires counter < U64 && healthy == HealthyNodes(nodes) && healthy != []
      modifies this
      ensures firsts == FirstChoices(healthy, old(counter), |asks|) && counter == (old(counter) + |asks|) % U64
    {
      firsts := [];
      ghost var begin := counter;
      NoCallsYet(begin);
      for c := 0 to |asks|
        invariant counter == Counted(begin, c)
        invariant firsts == FirstChoices(healthy, begin, c)
      {
        var first := FirstTried(nodes, asks[c], healthy, begin, c);
        ChoicesSnoc(healthy, begin, c);
        firsts := firsts + [first];
      }
    }
  }

  method TryFrom(healthy: seq<Node>, start: nat, ask: Upstreams)
    returns (r: Result<Response, string>, attempts: seq<Node>)
    requires start < |healthy|
    ensures var order := Cycle(healthy, start);
            r == FirstSuccess(order, ask, "") && attempts == order[..Tried(order, ask)]
  {
    var n := |healthy|;
    ghost var order := Cycle(healthy, start);
    assert |order| == n;
    attempts := [];
    var lastErr := "";
    for i := 0 to n
      invariant attempts == order[..i]
      invariant FirstSuccess(order, ask, "") == FirstSuccess(order[i..], ask, lastErr)
      invariant Tried(order, ask) == i + Tried(order[i..], ask)
    {
      var node := healthy[(start + i) % n];
      CycleAt(healthy, start, i);
      assert order[i..][1..] == order[i + 1..];
      attempts := attempts + [node];
      match ask(node)
      case Ok(resp) => return Ok(resp), attempts;
      case Err(e) => lastErr := e;
    }
    return Err(lastErr), attempts;
  }

  lemma CycleAt(nodes: seq<Node>, start: nat, i: nat)
    requires start < |nodes| && i < |nodes|
    ensures |Cycle(nodes, start)| == |nodes|
    ensures Cycle(nodes, start)[i] == nodes[(start + i) % |nodes|]
  {
    if start + i < |nodes| {
      QuotRem(start + i, |nodes|, 0, start + i);
    } else {
      QuotRem(start + i, |nodes|, 1, start + i - |nodes|);
    }
  }

  /** The order tries every node exactly as often as it is listed. */
  lemma CycleIsPermutation(nodes: seq<Node>, start: nat)
    requires start < |nodes|
    ensures multiset(Cycle(nodes, start)) == multiset(nodes)
  {
    assert nodes == nodes[..start] + nodes[start..];
  }

  /** How many of the calls numbered counter, counter + 1, ..., counter + calls - 1 start at position p of n. */
  function Starts(counter: nat, calls: nat, n: nat, p: nat): nat
    requires n > 0
  {
    if calls == 0 then 0
    else Starts(counter, calls - 1, n, p) + (if (counter + calls - 1) % n == p then 1 else 0)
  }

  /** Any n consecutive calls start once at each position. */
  lemma {:induction false} StartsInPart(counter: nat, calls: nat, n: nat, p: nat)
    requires 0 <= p < n && calls <= n
    ensures Starts(counter, calls, n, p) == if (p + n - counter % n) % n < calls then 1 else 0
  {
    if calls > 0 {
      StartsInPart(counter, calls - 1, n, p);
      HitsOnce(counter, calls - 1, n, p);
    }
  }

  lemma ModOfSum(counter: nat, k: nat, n: nat)
    requires k < n
    ensures var c := counter % n;
            (counter + k) % n == if c + k < n then c + k else c + k - n
  {
    var q, c := counter / n, counter % n;
    assert counter == q * n + c;
    if c + k < n {
      QuotRem(counter + k, n, q, c + k);
    } else {
      assert (q + 1) * n == q * n + n;
      QuotRem(counter + k, n, q + 1, c + k - n);
    }
  }

  lemma ModOfDifference(p: nat, c: nat, n: nat)
    requires p < n && c < n
    ensures (p + n - c) % n == if p >= c then p - c else p + n - c
  {
    if p >= c {
      QuotRem(p + n - c, n, 1, p - c);
    } else {
      QuotRem(p + n - c, n, 0, p + n - c);
    }
  }

  lemma HitsOnce(counter: nat, k: nat, n: nat, p: nat)
    requires p < n && k < n
    ensures (counter + k) % n == p <==> (p + n - counter % n) % n == k
  {
    Remainder(counter, n);
    ModOfSum(counter, k, n);
    ModOfDifference(p, counter % n, n);
  }

  lemma {:induction false} StartsSplit(counter: nat, first: nat, rest: nat, n: nat, p: nat)
    requires n > 0
    ensures Starts(counter, first + rest, n, p) == Starts(counter, first, n, p) + Starts(counter + first, rest, n, p)
  {
    if rest > 0 {
      StartsSplit(counter, first, rest - 1, n, p);
      assert counter + (first + rest) - 1 == (counter + first) + rest - 1;
    }
  }

  lemma DivShift(x: nat, n: nat)
    requires n > 0
    ensures (x + n) / n == x / n + 1
  {
    var q := x / n;
    assert x == q * n + x % n && (q + 1) * n == q * n + n;
    QuotRem(x + n, n, q + 1, x % n);
  }

  lemma FullTurn(counter: nat, n: nat, p: nat)
    requires p < n
    ensures Starts(counter, n, n, p) == 1
  {
    StartsInPart(counter, n, n, p);
    Remainder(p + n - counter % n, n);
  }

  lemma Remainder(x: nat, n: nat)
    requires n > 0
    ensures 0 <= x % n < n
  {
  }

  lemma PartTurn(counter: nat, calls: nat, n: nat, p: nat)
    requires p < n && calls < n
    ensures calls / n <= Starts(counter, calls, n, p) <= (calls + n - 1) / n
  {
    StartsInPart(counter, calls, n, p);
    Remainder(p + n - counter % n, n);
    QuotRem(calls, n, 0, calls);
    if calls == 0 {
      QuotRem(n - 1, n, 0, n - 1);
    } else {
      QuotRem(calls + n - 1, n, 1, calls - 1);
    }
  }

  lemma OneMoreTurn(calls: nat, n: nat, m: nat)
    requires 0 < n <= calls && (calls - n) / n <= m <= (calls - n + n - 1) / n
    ensures calls / n <= m + 1 <= (calls + n - 1) / n
  {
    assert calls / n == (calls - n) / n + 1 by {
      DivShift(calls - n, n);
      assert calls - n + n == calls;
    }
    assert (calls + n - 1) / n == (calls - 1) / n + 1 by {
      DivShift(calls - 1, n);
      assert calls - 1 + n == calls + n - 1;
    }
    assert calls - n + n - 1 == calls - 1;
  }

  ghost predicate Fair(calls: nat, n: nat, m: nat)
    requires n > 0
  {
    calls / n <= m <= (calls + n - 1) / n
  }

  lemma TurnAndRest(counter: nat, calls: nat, n: nat, p: nat)
    requires p < n <= calls
    ensures Starts(counter, calls, n, p) == 1 + Starts(counter + n, calls - n, n, p)
  {
    StartsSplit(counter, n, calls - n, n, p);
    FullTurn(counter, n, p);
  }

  /** An unbounded counter starts floor(calls/n) or ceil(calls/n) times at each position. */
  lemma {:induction false} EvenTurns(counter: nat, calls: nat, n: nat, p: nat)
    requires p < n
    ensures Fair(calls, n, Starts(counter, calls, n, p))
    decreases calls
  {
    if calls < n {
      PartTurn(counter, calls, n, p);
    } else {
      EvenTurns(counter + n, calls - n, n, p);
      TurnAndRest(counter, calls, n, p);
      OneMoreTurn(calls, n, Starts(counter + n, calls - n, n, p));
    }
  }

  // The counter of the class, which wraps

  /** Where call number c starts. */
  function Turn(counter: nat, c: nat, n: nat): (p: nat)
    requires n > 0
    ensures p < n
  {
    (counter + c) % U64 % n
  }

  /** The node each of the calls tries first, by the wrapping counter. */
  function FirstChoices(healthy: seq<Node>, counter: nat, calls: nat): (firsts: seq<Node>)
    requires healthy != []
    ensures |firsts| == calls
  {
    if calls == 0 then []
    else FirstChoices(healthy, counter, calls - 1) + [healthy[Turn(counter, calls - 1, |healthy|)]]
  }

  /** The counter does not wrap during the calls, or wrapping keeps the turn. */
  predicate NoSkew(counter: nat, calls: nat, n: nat)
    requires n > 0
  {
    counter + calls <= U64 || U64 % n == 0
  }

  /** A node that is listed m times is first choice between m * floor(k/n) and m * ceil(k/n) times. */
  ghost predicate FairTo(healthy: seq<Node>, firsts: seq<Node>, x: Node)
    requires healthy != []
  {
    var n, k, m := |healthy|, |firsts|, multiset(healthy)[x];
    Shares(m, k / n, (k + n - 1) / n, multiset(firsts)[x])
  }

  /** The counter after c calls. */
  function Counted(counter: nat, c: nat): (r: nat)
    ensures r < U64
  {
    (counter + c) % U64
  }

  lemma NoCallsYet(counter: nat)
    requires counter < U64
    ensures Counted(counter, 0) == counter
  {
    QuotRem(counter, U64, 0, counter);
  }

  lemma CounterStep(counter: nat, c: nat)
    ensures (Counted(counter, c) + 1) % U64 == Counted(counter, c + 1)
  {
    var q, r := (counter + c) / U64, (counter + c) % U64;
    assert counter + c == q * U64 + r;
    if r + 1 < U64 {
      QuotRem(counter + (c + 1), U64, q, r + 1);
    } else {
      assert (q + 1) * U64 == q * U64 + U64;
      QuotRem(counter + (c + 1), U64, q + 1, 0);
    }
  }

  lemma ChoicesSnoc(healthy: seq<Node>, counter: nat, c: nat)
    requires healthy != []
    ensures FirstChoices(healthy, counter, c + 1) ==
            FirstChoices(healthy, counter, c) + [healthy[Turn(counter, c, |healthy|)]]
  {
  }

  /** How many of the calls the wrapping counter starts at position p of n. */
  function WrappedStarts(counter: nat, calls: nat, n: nat, p: nat): nat
    requires n > 0
  {
    if calls == 0 then 0
    else WrappedStarts(counter, calls - 1, n, p) + (if Turn(counter, calls - 1, n) == p then 1 else 0)
  }

  /** A modulus that divides the range of the counter does not notice the wrap. */
  lemma WrapKeepsTurn(x: nat, n: nat)
    requires n > 0 && (x < U64 || U64 % n == 0)
    ensures x % U64 % n == x % n
  {
    if x < U64 {
      QuotRem(x, U64, 0, x);
    } else {
      var q, r, d := x / U64, x % U64, U64 / n;
      assert x == q * U64 + r && U64 == d * n && r == (r / n) * n + r % n;
      Regroup(q, d, r / n, n);
      QuotRem(x, n, q * d + r / n, r % n);
    }
  }

  lemma Regroup(q: nat, d: nat, e: nat, n: nat)
    ensures q * (d * n) + e * n == (q * d + e) * n
  {
  }

  lemma {:induction false} WrapDoesNotShow(counter: nat, calls: nat, n: nat, p: nat)
    requires n > 0 && NoSkew(counter, calls, n)
    ensures WrappedStarts(counter, calls, n, p) == Starts(counter, calls, n, p)
  {
    if calls > 0 {
      WrapDoesNotShow(counter, calls - 1, n, p);
      WrapKeepsTurn(counter + calls - 1, n);
    }
  }

  /** The first choices that fall on node x at a position before q. */
  function ChosenBefore(healthy: seq<Node>, counter: nat, calls: nat, x: Node, q: nat): nat
    requires q <= |healthy|
  {
    if q == 0 then 0
    else ChosenBefore(healthy, counter, calls, x, q - 1)
         + (if healthy[q - 1] == x then WrappedStarts(counter, calls, |healthy|, q - 1) else 0)
  }

  lemma {:induction false} OneMoreCall(healthy: seq<Node>, counter: nat, calls: nat, x: Node, q: nat)
    requires healthy != [] && q <= |healthy|
    ensures var p := Turn(counter, calls, |healthy|);
            ChosenBefore(healthy, counter, calls + 1, x, q) ==
            ChosenBefore(healthy, counter, calls, x, q) + (if p < q && healthy[p] == x then 1 else 0)
  {
    if q > 0 {
      OneMoreCall(healthy, counter, calls, x, q - 1);
    }
  }

  lemma {:induction false} NoCalls(healthy: seq<Node>, counter: nat, x: Node, q: nat)
    requires q <= |healthy|
    ensures ChosenBefore(healthy, counter, 0, x, q) == 0
  {
    if q > 0 {
      NoCalls(healthy, counter, x, q - 1);
    }
  }

  lemma OneMoreElement(xs: seq<Node>, y: Node, x: Node)
    ensures multiset(xs + [y])[x] == multiset(xs)[x] + (if x == y then 1 else 0)
  {
  }

  lemma {:induction false} ChoicesCounted(healthy: seq<Node>, counter: nat, calls: nat, x: Node)
    requires healthy != []
    ensures multiset(FirstChoices(healthy, counter, calls))[x] == ChosenBefore(healthy, counter, calls, x, |healthy|)
  {
    if calls == 0 {
      NoCalls(healthy, counter, x, |healthy|);
    } else {
      var c := calls - 1;
      ChoicesCounted(healthy, counter, c, x);
      OneMoreCall(healthy, counter, c, x, |healthy|);
      ChoicesSnoc(healthy, counter, c);
      OneMoreElement(FirstChoices(healthy, counter, c), healthy[Turn(counter, c, |healthy|)], x);
    }
  }

  lemma {:induction false} SharesAdd(healthy: seq<Node>, counter: nat, calls: nat, x: Node, q: nat, lo: nat, hi: nat)
    requires healthy != [] && q <= |healthy|
    requires forall p :: 0 <= p < |healthy| ==> lo <= WrappedStarts(counter, calls, |healthy|, p) <= hi
    ensures Shares(multiset(healthy[..q])[x], lo, hi, ChosenBefore(healthy, counter, calls, x, q))
  {
    if q > 0 {
      SharesAdd(healthy, counter, calls, x, q - 1, lo, hi);
      assert healthy[..q] == healthy[..q - 1] + [healthy[q - 1]];
      OneMoreElement(healthy[..q - 1], healthy[q - 1], x);
      OneMoreShare(multiset(healthy[..q - 1])[x], lo, hi, ChosenBefore(healthy, counter, calls, x, q - 1),
                   WrappedStarts(counter, calls, |healthy|, q - 1));
    }
  }

  ghost predicate Shares(m: nat, lo: nat, hi: nat, chosen: nat) {
    m * lo <= chosen <= m * hi
  }

  lemma OneMoreShare(m: nat, lo: nat, hi: nat, chosen: nat, more: nat)
    requires Shares(m, lo, hi, chosen) && lo <= more <= hi
    ensures Shares(m + 1, lo, hi, chosen + more)
  {
    assert (m + 1) * lo == m * lo + lo && (m + 1) * hi == m * hi + hi;
  }

  /** Over any number of calls with a fixed healthy list and no skew, every node gets its fair share of first choices. */
  lemma FairShare(healthy: seq<Node>, counter: nat, calls: nat, x: Node)
    requires healthy != [] && NoSkew(counter, calls, |healthy|)
    ensures FairTo(healthy, FirstChoices(healthy, counter, calls), x)
  {
    var n := |healthy|;
    AllPositionsFair(n, counter, calls);
    ShareOf(healthy, counter, calls, x, calls / n, (calls + n - 1) / n);
  }

  lemma FairToAll(healthy: seq<Node>, counter: nat, calls: nat)
    requires healthy != [] && NoSkew(counter, calls, |healthy|)
    ensures forall x :: FairTo(healthy, FirstChoices(healthy, counter, calls), x)
  {
    forall x ensures FairTo(healthy, FirstChoices(healthy, counter, calls), x) {
      FairShare(healthy, counter, calls, x);
    }
  }

  lemma ShareOf(healthy: seq<Node>, counter: nat, calls: nat, x: Node, lo: nat, hi: nat)
    requires healthy != []
    requires forall p :: 0 <= p < |healthy| ==> lo <= WrappedStarts(counter, calls, |healthy|, p) <= hi
    ensures Shares(multiset(healthy)[x], lo, hi, multiset(FirstChoices(healthy, counter, calls))[x])
  {
    ChoicesCounted(healthy, counter, calls, x);
    SharesAdd(healthy, counter, calls, x, |healthy|, lo, hi);
    assert healthy[..|healthy|] == healthy;
  }

  lemma AllPositionsFair(n: nat, counter: nat, calls: nat)
    requires n > 0 && NoSkew(counter, calls, n)
    ensures forall p :: 0 <= p < n ==> calls / n <= WrappedStarts(counter, calls, n, p) <= (calls + n - 1) / n
  {
    forall p | 0 <= p < n ensures calls / n <= WrappedStarts(counter, calls, n, p) <= (calls + n - 1) / n {
      NoSkewIsFair(n, counter, calls, p);
    }
  }

  ghost predicate AlwaysFair(n: nat)
    requires n > 0
  {
    forall counter: nat, calls: nat, p: nat ::
      counter < U64 && p < n ==> FairAt(n, counter, calls, p)
  }

  ghost predicate FairAt(n: nat, counter: nat, calls: nat, p: nat)
    requires n > 0
  {
    Fair(calls, n, WrappedStarts(counter, calls, n, p))
  }

  lemma {:induction false} StartsGrow(counter: nat, first: nat, calls: nat, n: nat, p: nat)
    requires n > 0 && first <= calls
    ensures WrappedStarts(counter, first, n, p) <= WrappedStarts(counter, calls, n, p)
  {
    if first < calls {
      StartsGrow(counter, first, calls - 1, n, p);
    }
  }

  /** Otherwise the wrap cuts a round short: its first node is first choice again too soon. */
  lemma SkewAtWrap(n: nat)
    requires n > 0 && U64 % n != 0
    ensures var r := U64 % n; 0 < r && r + 1 <= n && !FairAt(n, U64 - r, r + 1, 0)
  {
    var r, q := U64 % n, U64 / n;
    assert U64 == q * n + r;
    QuotRem(U64 - r, n, q, 0);
    QuotRem(U64 - r, U64, 0, U64 - r);
    assert WrappedStarts(U64 - r, 1, n, 0) == 1;
    StartsGrow(U64 - r, 1, r, n, 0);
    QuotRem(0, n, 0, 0);
    assert WrappedStarts(U64 - r, r + 1, n, 0) == WrappedStarts(U64 - r, r, n, 0) + 1;
    QuotRem(r + n, n, 1, r);
  }

  /** Across wraps the rotation stays fair exactly for the sizes that divide the counter's range. */
  lemma FairAcrossWrapIff(n: nat)
    requires n > 0
    ensures AlwaysFair(n) <==> U64 % n == 0
  {
    if U64 % n == 0 {
      FairIfDivides(n);
    } else {
      UnfairUnlessDivides(n);
    }
  }

  lemma FairIfDivides(n: nat)
    requires n > 0 && U64 % n == 0
    ensures AlwaysFair(n)
  {
    forall counter: nat, calls: nat, p: nat | counter < U64 && p < n ensures FairAt(n, counter, calls, p) {
      NoSkewIsFair(n, counter, calls, p);
    }
  }

  lemma UnfairUnlessDivides(n: nat)
    requires n > 0 && U64 % n != 0
    ensures !AlwaysFair(n)
  {
    SkewAtWrap(n);
  }

  lemma NoSkewIsFair(n: nat, counter: nat, calls: nat, p: nat)
    requires p < n && NoSkew(counter, calls, n)
    ensures FairAt(n, counter, calls, p)
  {
    WrapDoesNotShow(counter, calls, n, p);
    EvenTurns(counter, calls, n, p);
  }

  // ---------------------------------------------------------------------------------------------
  // Transactions: fan-out
  // ---------------------------------------------------------------------------------------------

  lemma SomeTargetSucceeds(nodes: seq<Node>, eligible: set<string>, ask: Upstreams, finishing: seq<Node>)
    requires multiset(finishing) == multiset(Targets(nodes, eligible))
    ensures FirstSuccess(finishing, ask, "").Ok? <==>
            exists n :: n in nodes && n.healthy && n.id in eligible && ask(n).Ok?
  {
    TargetsExact(nodes, eligible);
    FailsOnlyAfterAll(finishing, ask, "");
    assert forall n :: n in finishing <==> n in multiset(finishing);
    assert forall n :: n in Targets(nodes, eligible) <==> n in multiset(Targets(nodes, eligible));
  }

  /** Answers come back in whatever order the targets finish; the first success wins. */
  method FanOutSendTx(nodes: seq<Node>, eligible: set<string>, ask: Upstreams, finishing: seq<Node>)
    returns (r: Result<Response, string>)
    requires multiset(finishing) == multiset(Targets(nodes, eligible))
    ensures r.Ok? <==> exists n :: n in nodes && n.healthy && n.id in eligible && ask(n).Ok?
    ensures finishing == [] ==> r == Err("No healthy nodes for sendTransaction")
    ensures finishing != [] ==> r == FirstSuccess(finishing, ask, "")
  {
    SomeTargetSucceeds(nodes, eligible, ask, finishing);
    if finishing == [] {
      return Err("No healthy nodes for sendTransaction");
    }
    r := FirstAnswer(finishing, ask);
  }

  method FirstAnswer(finishing: seq<Node>, ask: Upstreams) returns (r: Result<Response, string>)
    requires finishing != []
    ensures r == FirstSuccess(finishing, ask, "")
  {
    var lastErr := None;
    for i := 0 to |finishing|
      invariant lastErr.None? <==> i == 0
      invariant FirstSuccess(finishing, ask, "") ==
                FirstSuccess(finishing[i..], ask, if lastErr.Some? then lastErr.value else "")
    {
      assert finishing[i..][1..] == finishing[i + 1..];
      match ask(finishing[i])
      case Ok(resp) => return Ok(resp);
      case Err(e) => lastErr := Some(e);
    }
    return Err(lastErr.value);
  }

  function Targets(nodes: seq<Node>, eligible: set<string>): seq<Node> {
    if nodes == [] then []
    else (if nodes[0].id in eligible && nodes[0].healthy then [nodes[0]] else []) + Targets(nodes[1..], eligible)
  }

  lemma {:induction false} TargetsExact(nodes: seq<Node>, eligible: set<string>)
    ensures forall n :: n in Targets(nodes, eligible) <==> n in nodes && n.healthy && n.id in eligible
  {
    if nodes != [] {
      TargetsExact(nodes[1..], eligible);
      assert nodes == [nodes[0]] + nodes[1..];
    }
  }
}
