/** Parent-link gap detection over a bounded window of recently processed slots. */
module SlotTracker {
  import opened Prelude

  const WINDOW: nat := 2048
  const PROCESSED: int := 0

  datatype Observation = Observation(slot: nat, parent: Option<nat>, status: int)

  datatype Tracker = Tracker(lastSlot: nat, gaps: nat, recent: seq<nat>)

  const EMPTY: Tracker := Tracker(0, 0, [])

  /** The report `observe` makes about a processed slot's parent. */
  function Report(recent: seq<nat>, parent: Option<nat>): Option<nat> {
    if parent.Some? && recent != [] && parent.value >= recent[0] && parent.value !in recent then parent else None
  }

  function Remember(recent: seq<nat>, slot: nat): seq<nat> {
    if slot in recent then recent
    else if |recent| + 1 > WINDOW then (recent + [slot])[1..]
    else recent + [slot]
  }

  function Reported(t: Tracker, o: Observation): Option<nat> {
    if o.status != PROCESSED then None else Report(t.recent, o.parent)
  }

  function After(t: Tracker, o: Observation): Tracker {
    if o.status != PROCESSED then t
    else Tracker(
           if o.slot > t.lastSlot then o.slot else t.lastSlot,
           t.gaps + (if Report(t.recent, o.parent).Some? then 1 else 0),
           Remember(t.recent, o.slot))
  }

  class SlotTracker {
    var lastSlot: nat
    var gaps: nat
    var recent: seq<nat>

    ghost function View(): Tracker
      reads this
    {
      Tracker(lastSlot, gaps, recent)
    }

    constructor ()
      ensures View() == EMPTY
    {
      lastSlot, gaps, recent := 0, 0, [];
    }

    method Observe(slot: nat, parent: Option<nat>, status: int) returns (missing: Option<nat>)
      modifies this
      ensures View() == After(old(View()), Observation(slot, parent, status))
      ensures missing == Reported(old(View()), Observation(slot, parent, status))
    {
      if status != PROCESSED {
        return None;
      }
      missing := None;
      if parent.Some? && recent != [] {
        var p, oldest := parent.value, recent[0];
        if p >= oldest && p !in recent {
          missing := Some(p);
        }
      }
      if slot !in recent {
        recent := recent + [slot];
        if |recent| > WINDOW {
          recent := recent[1..];
        }
      }
      if slot > lastSlot {
        lastSlot := slot;
      }
      if missing.Some? {
        gaps := gaps + 1;
      }
    }
  }

  // ---------------------------------------------------------------------------------------------
  // Whole histories
  // ---------------------------------------------------------------------------------------------

  function Run(h: seq<Observation>): Tracker {
    if h == [] then EMPTY else After(Run(h[..|h| - 1]), h[|h| - 1])
  }

  ghost predicate Observed(h: seq<Observation>, slot: nat) {
    exists i :: 0 <= i < |h| && h[i].status == PROCESSED && h[i].slot == slot
  }

  /** How many observations of the history were answered with a missing parent. */
  function Reports(h: seq<Observation>): nat {
    if h == [] then 0
    else Reports(h[..|h| - 1]) + (if Reported(Run(h[..|h| - 1]), h[|h| - 1]).Some? then 1 else 0)
  }

  ghost predicate Distinct(xs: seq<nat>) {
    forall i, j :: 0 <= i < j < |xs| ==> xs[i] != xs[j]
  }

  /** In every history the window is duplicate-free and bounded and the counters mean what they say. */
  lemma {:induction false} RunInv(h: seq<Observation>)
    ensures var t := Run(h);
            && Distinct(t.recent) && |t.recent| <= WINDOW
            && (forall x :: x in t.recent ==> Observed(h, x))
            && (forall x: nat :: Observed(h, x) ==> x <= t.lastSlot)
            && (t.lastSlot == 0 || Observed(h, t.lastSlot))
            && t.gaps == Reports(h)
  {
    if h != [] {
      var before, o := h[..|h| - 1], h[|h| - 1];
      RunInv(before);
      ObservedSnoc(before, o);
      assert before + [o] == h;
    }
  }

  lemma ObservedSnoc(h: seq<Observation>, o: Observation)
    ensures forall x: nat :: Observed(h + [o], x) <==> Observed(h, x) || (o.status == PROCESSED && x == o.slot)
  {
    forall x | Observed(h, x) ensures Observed(h + [o], x) {
      var i :| 0 <= i < |h| && h[i].status == PROCESSED && h[i].slot == x;
      assert (h + [o])[i] == h[i];
    }
    assert (h + [o])[|h|] == o;
  }

  /** Every slot the window has forgotten lies below its front. */
  ghost predicate Faithful(h: seq<Observation>) {
    forall x: nat :: Observed(h, x) && x !in Run(h).recent ==> Run(h).recent != [] && x < Run(h).recent[0]
  }

  /** Each processed slot repeats one in the window or exceeds every earlier one. */
  ghost predicate Orderly(h: seq<Observation>) {
    h != [] ==>
      var before, o := h[..|h| - 1], h[|h| - 1];
      && Orderly(before)
      && (o.status == PROCESSED ==> o.slot in Run(before).recent || forall x: nat :: Observed(before, x) ==> x < o.slot)
  }

  ghost predicate Ascending(xs: seq<nat>) {
    forall i, j :: 0 <= i < j < |xs| ==> xs[i] < xs[j]
  }

  /** Remembering a new highest slot forgets at most the lowest one. */
  lemma RememberHighest(recent: seq<nat>, slot: nat)
    requires Ascending(recent) && forall x :: x in recent ==> x < slot
    ensures var now := Remember(recent, slot);
            && Ascending(now) && slot in now
            && forall x :: x < slot && (x in recent || (recent != [] && x < recent[0])) && x !in now ==> x < now[0]
  {
    var longer, now := recent + [slot], Remember(recent, slot);
    assert Ascending(longer) by {
      assert forall i :: 0 <= i < |recent| ==> recent[i] in recent;
    }
    assert now == longer || (recent != [] && now == longer[1..]);
    assert now[|now| - 1] == slot;
    forall x | x < slot && (x in recent || (recent != [] && x < recent[0])) && x !in now ensures x < now[0] {
      if x in recent {
        var i :| 0 <= i < |recent| && recent[i] == x;
        assert longer[i] == x && now == longer[1..];
        assert i == 0;
      }
    }
  }

  lemma {:induction false} OrderlyIsFaithful(h: seq<Observation>)
    requires Orderly(h)
    ensures Faithful(h) && Ascending(Run(h).recent)
  {
    if h != [] {
      var before, o := h[..|h| - 1], h[|h| - 1];
      OrderlyIsFaithful(before);
      ObservedSnoc(before, o);
      assert before + [o] == h;
      RunInv(before);
      var prev := Run(before).recent;
      if o.status == PROCESSED && o.slot !in prev {
        RememberHighest(prev, o.slot);
      }
    }
  }

  /**
   A history makes the gap detector exact for every possible next parent if and only if the window is
   faithful: what it forgot lies below its front.
   */
  lemma ExactIffFaithful(h: seq<Observation>)
    requires Run(h).recent != []
    ensures Faithful(h) <==>
            forall p: nat :: Report(Run(h).recent, Some(p)) == Some(p) <==>
                             p >= Run(h).recent[0] && !Observed(h, p)
  {
    RunInv(h);
    if !Faithful(h) {
      var x :| Observed(h, x) && x !in Run(h).recent && x >= Run(h).recent[0];
      assert Report(Run(h).recent, Some(x)) == Some(x);
    }
  }

  /** With orderly arrivals, a parent is reported exactly when it is in range and never was received. */
  lemma GapsAreReal(h: seq<Observation>, o: Observation, p: nat)
    requires Orderly(h) && o.status == PROCESSED && o.parent == Some(p)
    ensures Reported(Run(h), o) == Some(p) <==>
            Run(h).recent != [] && p >= Run(h).recent[0] && !Observed(h, p)
  {
    OrderlyIsFaithful(h);
    if Run(h).recent != [] {
      ExactIffFaithful(h);
      assert Report(Run(h).recent, Some(p)) == Some(p) <==> p >= Run(h).recent[0] && !Observed(h, p);
    }
  }

  /** Slots that come in ascending order are remembered as the last 2048 of them. */
  lemma {:induction false} WindowExact(slots: seq<nat>)
    requires Ascending(slots)
    ensures Run(SeenAll(slots)).recent == if |slots| <= 2048 then slots else slots[|slots| - 2048..]
  {
    if slots != [] {
      var n := |slots| - 1;
      WindowExact(slots[..n]);
      var h := SeenAll(slots);
      assert h[..|h| - 1] == SeenAll(slots[..n]) && h[|h| - 1] == Seen(slots[n]);
      var recent := Run(SeenAll(slots[..n])).recent;
      assert slots[n] !in recent;
      RememberLast(slots, recent);
      assert Run(h).recent == Remember(recent, slots[n]);
    }
  }

  lemma RememberLast(slots: seq<nat>, recent: seq<nat>)
    requires slots != [] && slots[|slots| - 1] !in recent
    requires var n := |slots| - 1; recent == if n <= 2048 then slots[..n] else slots[n - 2048..n]
    ensures Remember(recent, slots[|slots| - 1]) == if |slots| <= 2048 then slots else slots[|slots| - 2048..]
  {
    var n := |slots| - 1;
    assert slots[..n] + [slots[n]] == slots;
    if n >= 2048 {
      assert (recent + [slots[n]])[1..] == slots[|slots| - 2048..];
    }
  }

  function SeenAll(slots: seq<nat>): (h: seq<Observation>)
    ensures |h| == |slots|
  {
    if slots == [] then [] else SeenAll(slots[..|slots| - 1]) + [Seen(slots[|slots| - 1])]
  }

  function Seen(slot: nat): Observation {
    Observation(slot, None, PROCESSED)
  }

  /** A slot far ahead, then the slots 1, 2, ... n. */
  function Climb(ahead: nat, n: nat): seq<Observation> {
    if n == 0 then [Seen(ahead)] else Climb(ahead, n - 1) + [Seen(n)]
  }

  function UpTo(n: nat): (xs: seq<nat>)
    ensures |xs| == n && forall x :: x in xs <==> 1 <= x <= n
    ensures n > 0 ==> xs[0] == 1
  {
    if n == 0 then [] else UpTo(n - 1) + [n]
  }

  lemma {:induction false} ClimbWindow(ahead: nat, n: nat)
    requires n < WINDOW <= ahead
    ensures Run(Climb(ahead, n)).recent == [ahead] + UpTo(n)
  {
    var h := Climb(ahead, n);
    if n == 0 {
      assert h[..0] == [];
      assert Run([]) == EMPTY;
    } else {
      ClimbWindow(ahead, n - 1);
      assert h[..|h| - 1] == Climb(ahead, n - 1) && h[|h| - 1] == Seen(n);
    }
  }

  /** Arrival order matters: a slot that arrived too early is forgotten first, and then reported missing. */
  lemma EarlyArrivalReportedMissing(ahead: nat)
    requires ahead > WINDOW
    ensures var h := Climb(ahead, WINDOW);
            Observed(h, ahead) && Reported(Run(h), Observation(ahead + 1, Some(ahead), PROCESSED)) == Some(ahead)
  {
    var h := Climb(ahead, WINDOW);
    ClimbWindow(ahead, WINDOW - 1);
    assert h[..|h| - 1] == Climb(ahead, WINDOW - 1) && h[|h| - 1] == Seen(WINDOW);
    assert Run(h).recent == UpTo(WINDOW);
    ClimbStart(ahead, WINDOW);
  }

  lemma {:induction false} ClimbStart(ahead: nat, n: nat)
    ensures |Climb(ahead, n)| > 0 && Climb(ahead, n)[0] == Seen(ahead)
    ensures Observed(Climb(ahead, n), ahead)
  {
    if n > 0 {
      ClimbStart(ahead, n - 1);
    }
  }
}
