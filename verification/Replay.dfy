/**
 What both reconnect controllers rely on: the upstream's contract for `from_slot`, the classification of
 a rejected replay, and the bookkeeping of which upstream updates have been delivered.
 */
module Replay {
  import opened Prelude
  import opened Geyser

  // ---------------------------------------------------------------------------------------------
  // The upstream
  // ---------------------------------------------------------------------------------------------

  /** The updates one upstream emits over a whole run; pings and pongs belong to a connection, not to it. */
  type Upstream = ups: seq<Payload> | forall i :: 0 <= i < |ups| ==> !ups[i].Ping? && !ups[i].Pong? witness []

  function SlotAt(ups: Upstream, i: nat): nat
    requires i < |ups|
  {
    ups[i].slot
  }

  ghost predicate NondecreasingSlots(ups: Upstream) {
    forall i, j :: 0 <= i < j < |ups| ==> SlotAt(ups, i) <= SlotAt(ups, j)
  }

  /** A stream opened at live position `head` carries what comes after, and with from_slot also all older updates of slot >= it. */
  predicate Sent(ups: Upstream, fromSlot: Option<nat>, head: nat, i: nat)
    requires i < |ups|
  {
    i >= head || (fromSlot.Some? && SlotAt(ups, i) >= fromSlot.value)
  }

  function Positions(ups: Upstream, fromSlot: Option<nat>, head: nat, i: nat): seq<nat>
    decreases |ups| - i
  {
    if i >= |ups| then []
    else
      var rest := Positions(ups, fromSlot, head, i + 1);
      if Sent(ups, fromSlot, head, i) then [i] + rest else rest
  }

  predicate Within(ups: Upstream, ps: seq<nat>) {
    forall k :: 0 <= k < |ps| ==> ps[k] < |ups|
  }

  predicate Contiguous(ps: seq<nat>) {
    forall k :: 0 <= k < |ps| ==> ps[k] == ps[0] + k
  }

  lemma {:induction false} PositionsBounds(ups: Upstream, fromSlot: Option<nat>, head: nat, i: nat)
    ensures Within(ups, Positions(ups, fromSlot, head, i))
    ensures forall k :: 0 <= k < |Positions(ups, fromSlot, head, i)| ==> i <= Positions(ups, fromSlot, head, i)[k]
    decreases |ups| - i
  {
    if i < |ups| {
      PositionsBounds(ups, fromSlot, head, i + 1);
    }
  }

  lemma SentUpward(ups: Upstream, fromSlot: Option<nat>, head: nat, i: nat)
    requires NondecreasingSlots(ups) && i + 1 < |ups| && Sent(ups, fromSlot, head, i)
    ensures Sent(ups, fromSlot, head, i + 1)
  {
    assert SlotAt(ups, i) <= SlotAt(ups, i + 1);
  }

  lemma {:induction false} AllFrom(ups: Upstream, fromSlot: Option<nat>, head: nat, i: nat)
    requires NondecreasingSlots(ups) && i < |ups| && Sent(ups, fromSlot, head, i)
    ensures var ps := Positions(ups, fromSlot, head, i);
            |ps| == |ups| - i && forall k :: 0 <= k < |ps| ==> ps[k] == i + k
    decreases |ups| - i
  {
    if i + 1 < |ups| {
      SentUpward(ups, fromSlot, head, i);
      AllFrom(ups, fromSlot, head, i + 1);
    }
  }

  /** In slot order a replayed stream is one contiguous segment that starts at or before every requested update. */
  lemma {:induction false} ReplayIsContiguous(ups: Upstream, fromSlot: Option<nat>, head: nat, i: nat, j: nat)
    requires NondecreasingSlots(ups)
    ensures Contiguous(Positions(ups, fromSlot, head, i))
    ensures i <= j < |ups| && Sent(ups, fromSlot, head, j) ==>
              Positions(ups, fromSlot, head, i) != [] && Positions(ups, fromSlot, head, i)[0] <= j
    decreases |ups| - i
  {
    if i >= |ups| {
      assert Positions(ups, fromSlot, head, i) == [];
    } else if Sent(ups, fromSlot, head, i) {
      AllFrom(ups, fromSlot, head, i);
    } else {
      ReplayIsContiguous(ups, fromSlot, head, i + 1, j);
    }
  }

  // ---------------------------------------------------------------------------------------------
  // Rejections
  // ---------------------------------------------------------------------------------------------

  datatype Code = InvalidArgument | OutOfRange | FailedPrecondition | Unavailable | OtherCode

  datatype Status = Status(code: Code, message: string)

  function Lower(s: string): string {
    seq(|s|, i requires 0 <= i < |s| => if 'A' <= s[i] <= 'Z' then s[i] - 'A' + 'a' else s[i])
  }

  predicate Contains(s: string, needle: string) {
    needle <= s || (s != [] && Contains(s[1..], needle))
  }

  predicate IsReplayRejection(s: Status) {
    s.code.InvalidArgument? || s.code.OutOfRange? || s.code.FailedPrecondition? || Contains(Lower(s.message), "from_slot")
  }

  /** The same letter in either case. */
  predicate SameLetter(a: char, lower: char) {
    a == lower || ('a' <= lower <= 'z' && 'A' <= a <= 'Z' && a - 'A' == lower - 'a')
  }

  /** The text occurs at position i, in whatever case. */
  ghost predicate OccursAt(s: string, text: string, i: nat) {
    i + |text| <= |s| && forall k :: 0 <= k < |text| ==> SameLetter(s[i + k], text[k])
  }

  ghost predicate IsLower(text: string) {
    forall k :: 0 <= k < |text| ==> !('A' <= text[k] <= 'Z')
  }

  lemma LowerAt(c: char, lower: char)
    requires !('A' <= lower <= 'Z')
    ensures SameLetter(c, lower) <==> (if 'A' <= c <= 'Z' then c - 'A' + 'a' else c) == lower
  {
  }

  lemma PrefixOfLower(s: string, text: string)
    requires IsLower(text)
    ensures text <= Lower(s) <==> OccursAt(s, text, 0)
  {
    forall k | 0 <= k < |text| && k < |s| ensures SameLetter(s[k], text[k]) <==> Lower(s)[k] == text[k] {
      LowerAt(s[k], text[k]);
    }
  }

  lemma {:induction false} ContainsIsOccurrence(s: string, text: string)
    requires IsLower(text)
    ensures Contains(Lower(s), text) <==> exists i: nat :: OccursAt(s, text, i)
  {
    PrefixOfLower(s, text);
    if s != [] {
      assert Lower(s)[1..] == Lower(s[1..]);
      ContainsIsOccurrence(s[1..], text);
      if i: nat :| OccursAt(s[1..], text, i) {
        assert OccursAt(s, text, i + 1);
      }
      if i: nat :| OccursAt(s, text, i) {
        assert i > 0 ==> OccursAt(s[1..], text, i - 1);
      }
    }
  }

  /** A rejection of a replay: one of three codes, or a message that speaks of from_slot, in whatever case. */
  lemma RejectionMeans(s: Status)
    ensures IsReplayRejection(s) <==>
            || s.code in {InvalidArgument, OutOfRange, FailedPrecondition}
            || exists i: nat :: OccursAt(s.message, "from_slot", i)
  {
    ContainsIsOccurrence(s.message, "from_slot");
  }

  // ---------------------------------------------------------------------------------------------
  // Coverage
  // ---------------------------------------------------------------------------------------------

  /** The updates, none of them late, that the stream opened by attempt number `attempt` passed over. */
  datatype Gap = Gap(lost: set<nat>, attempt: nat)

  datatype Cover = Cover(
    delivered: seq<nat>,        // upstream positions, in delivery order
    anchor: Option<nat>,        // the first delivered position that moved the last seen slot
    furthest: nat,              // one past the highest position delivered since
    gaps: seq<Gap>)

  const NOTHING: Cover := Cover([], None, 0, [])

  /** Which slot updates move a controller's last seen slot: every status, or processed ones only. */
  predicate Tracks(anyStatus: bool, p: Payload) {
    p.SlotUpdate? && (anyStatus || p.status == 0)
  }

  function Advance(anyStatus: bool, last: nat, p: Payload): nat {
    if Tracks(anyStatus, p) && p.slot > last then p.slot else last
  }

  predicate Anchors(ups: Upstream, anyStatus: bool, i: nat)
    requires i < |ups|
  {
    Tracks(anyStatus, ups[i]) && ups[i].slot > 0
  }

  /** An update that comes after the last seen slot can already be past its own. */
  predicate Late(ups: Upstream, anyStatus: bool, i: nat)
    requires i < |ups|
  {
    exists j :: 0 <= j < i && Tracks(anyStatus, ups[j]) && SlotAt(ups, j) > SlotAt(ups, i)
  }

  lemma OrderedIsNeverLate(ups: Upstream, anyStatus: bool, i: nat)
    requires NondecreasingSlots(ups) && i < |ups|
    ensures !Late(ups, anyStatus, i)
  {
  }

  function PassedOver(ups: Upstream, anyStatus: bool, c: Cover, ps: seq<nat>): set<nat> {
    set i | c.furthest <= i < |ups| && i !in ps && !Late(ups, anyStatus, i)
  }

  /** A stream begins that carries the positions `ps`. */
  function Open(ups: Upstream, anyStatus: bool, c: Cover, ps: seq<nat>, attempt: nat): Cover {
    var lost := PassedOver(ups, anyStatus, c, ps);
    if c.anchor.Some? && lost != {} then c.(gaps := c.gaps + [Gap(lost, attempt)]) else c
  }

  function Deliver(ups: Upstream, anyStatus: bool, c: Cover, i: nat): Cover
    requires i < |ups|
  {
    var c := c.(delivered := c.delivered + [i]);
    if c.anchor.Some? then c.(furthest := if i + 1 > c.furthest then i + 1 else c.furthest)
    else if Anchors(ups, anyStatus, i) then c.(anchor := Some(i), furthest := i + 1)
    else c
  }

  ghost predicate InGap(gaps: seq<Gap>, i: nat) {
    exists g :: g in gaps && i in g.lost
  }

  ghost predicate Excused(ups: Upstream, anyStatus: bool, gaps: seq<Gap>, i: nat)
    requires i < |ups|
  {
    InGap(gaps, i) || Late(ups, anyStatus, i)
  }

  /** Between the anchor and the furthest delivered position only late updates and those in gaps are missing. */
  ghost predicate Covered(ups: Upstream, anyStatus: bool, c: Cover) {
    && c.furthest <= |ups|
    && (c.anchor.Some? ==>
          forall i :: c.anchor.value <= i < c.furthest ==> i in c.delivered || Excused(ups, anyStatus, c.gaps, i))
  }

  /** The last seen slot is that of an update before `furthest`. */
  ghost predicate Grounded(ups: Upstream, anyStatus: bool, c: Cover, last: nat) {
    && (last > 0 <==> c.anchor.Some?)
    && (c.anchor.Some? ==>
          c.furthest <= |ups| && exists j :: 0 <= j < c.furthest && Tracks(anyStatus, ups[j]) && ups[j].slot == last)
  }

  ghost predicate CoverInv(ups: Upstream, anyStatus: bool, c: Cover, last: nat) {
    Covered(ups, anyStatus, c) && Grounded(ups, anyStatus, c, last)
  }

  // An open stream

  ghost predicate Ascending(ps: seq<nat>) {
    forall k, l :: 0 <= k < l < |ps| ==> ps[k] < ps[l]
  }

  /** Positions ascend, and whatever a stream skips after one of its updates has an older slot than that one. */
  ghost predicate SkipsOnlyOlder(ups: Upstream, ps: seq<nat>) {
    && Within(ups, ps)
    && Ascending(ps)
    && forall k, i :: 0 <= k < |ps| && ps[k] < i < |ups| && i !in ps ==> SlotAt(ups, i) < SlotAt(ups, ps[k])
  }

  /** The stream has delivered its first `next` updates, and what it skips beyond `furthest` is excused. */
  ghost predicate Joined(ups: Upstream, anyStatus: bool, c: Cover, ps: seq<nat>, next: nat) {
    && SkipsOnlyOlder(ups, ps)
    && next <= |ps|
    && (forall k :: 0 <= k < next ==> ps[k] in c.delivered)
    && (c.anchor.Some? ==>
          forall i :: c.furthest <= i < |ups| && i !in ps ==> Excused(ups, anyStatus, c.gaps, i))
  }

  /** A stream carries exactly the positions the upstream sends, in order. */
  lemma PositionsExact(ups: Upstream, fromSlot: Option<nat>, head: nat, i: nat)
    ensures var ps := Positions(ups, fromSlot, head, i);
            && (forall x :: x in ps <==> i <= x < |ups| && Sent(ups, fromSlot, head, x))
            && Ascending(ps)
  {
    PositionsMembers(ups, fromSlot, head, i);
    PositionsAscend(ups, fromSlot, head, i);
  }

  lemma {:induction false} PositionsMembers(ups: Upstream, fromSlot: Option<nat>, head: nat, i: nat)
    ensures forall x :: x in Positions(ups, fromSlot, head, i) <==> i <= x < |ups| && Sent(ups, fromSlot, head, x)
    decreases |ups| - i
  {
    if i < |ups| {
      PositionsMembers(ups, fromSlot, head, i + 1);
    } else {
      assert Positions(ups, fromSlot, head, i) == [];
    }
  }

  lemma {:induction false} PositionsAscend(ups: Upstream, fromSlot: Option<nat>, head: nat, i: nat)
    ensures Ascending(Positions(ups, fromSlot, head, i))
    decreases |ups| - i
  {
    if i < |ups| {
      PositionsAscend(ups, fromSlot, head, i + 1);
      PositionsBounds(ups, fromSlot, head, i + 1);
      AscendingCons(i, Positions(ups, fromSlot, head, i + 1));
    }
  }

  lemma AscendingCons(i: nat, ps: seq<nat>)
    requires Ascending(ps) && forall k :: 0 <= k < |ps| ==> i < ps[k]
    ensures Ascending([i] + ps)
  {
  }

  lemma PositionOf(ups: Upstream, fromSlot: Option<nat>, head: nat, i: nat) returns (k: nat)
    requires head <= i < |ups|
    ensures var ps := Positions(ups, fromSlot, head, 0);
            && k < |ps| && ps[k] == i && Within(ups, ps)
            && forall m :: 0 <= m < k ==> ps[m] < i
  {
    PositionsExact(ups, fromSlot, head, 0);
    PositionsBounds(ups, fromSlot, head, 0);
    var ps := Positions(ups, fromSlot, head, 0);
    assert i in ps;
    k :| 0 <= k < |ps| && ps[k] == i;
  }

  lemma StreamSkipsOnlyOlder(ups: Upstream, fromSlot: Option<nat>, head: nat)
    ensures SkipsOnlyOlder(ups, Positions(ups, fromSlot, head, 0))
  {
    PositionsExact(ups, fromSlot, head, 0);
    var ps := Positions(ups, fromSlot, head, 0);
    forall k, i | 0 <= k < |ps| && ps[k] < i < |ups| && i !in ps ensures SlotAt(ups, i) < SlotAt(ups, ps[k]) {
      assert ps[k] in ps;
      assert Sent(ups, fromSlot, head, ps[k]) && !Sent(ups, fromSlot, head, i);
    }
    forall k | 0 <= k < |ps| ensures ps[k] < |ups| {
      assert ps[k] in ps;
    }
  }

  lemma GapKept(gaps: seq<Gap>, g: Gap, i: nat)
    requires InGap(gaps, i)
    ensures InGap(gaps + [g], i)
  {
    var h :| h in gaps && i in h.lost;
    assert h in gaps + [g];
  }

  lemma ExcusedByGap(ups: Upstream, anyStatus: bool, c: Cover, ps: seq<nat>, attempt: nat, i: nat)
    requires c.anchor.Some? && c.furthest <= i < |ups| && i !in ps
    ensures Excused(ups, anyStatus, Open(ups, anyStatus, c, ps, attempt).gaps, i)
  {
    var lost := PassedOver(ups, anyStatus, c, ps);
    if !Late(ups, anyStatus, i) {
      assert i in lost;
      assert Gap(lost, attempt) in c.gaps + [Gap(lost, attempt)];
    }
  }

  lemma OpenKeeps(ups: Upstream, anyStatus: bool, c: Cover, last: nat, fromSlot: Option<nat>, head: nat, attempt: nat)
    requires CoverInv(ups, anyStatus, c, last)
    ensures var ps := Positions(ups, fromSlot, head, 0);
            var d := Open(ups, anyStatus, c, ps, attempt);
            CoverInv(ups, anyStatus, d, last) && Joined(ups, anyStatus, d, ps, 0)
  {
    var ps := Positions(ups, fromSlot, head, 0);
    var d := Open(ups, anyStatus, c, ps, attempt);
    StreamSkipsOnlyOlder(ups, fromSlot, head);
    forall i | InGap(c.gaps, i) ensures InGap(d.gaps, i) {
      GapKept(c.gaps, Gap(PassedOver(ups, anyStatus, c, ps), attempt), i);
    }
    forall i | c.anchor.Some? && c.furthest <= i < |ups| && i !in ps ensures Excused(ups, anyStatus, d.gaps, i) {
      ExcusedByGap(ups, anyStatus, c, ps, attempt, i);
    }
  }

  lemma DeliverGrounds(ups: Upstream, anyStatus: bool, c: Cover, last: nat, i: nat)
    requires i < |ups| && Grounded(ups, anyStatus, c, last)
    ensures Grounded(ups, anyStatus, Deliver(ups, anyStatus, c, i), Advance(anyStatus, last, ups[i]))
  {
    var d := Deliver(ups, anyStatus, c, i);
    if d.anchor.Some? && Advance(anyStatus, last, ups[i]) == last {
      var j :| 0 <= j < c.furthest && Tracks(anyStatus, ups[j]) && ups[j].slot == last;
    }
  }

  /** What an ascending stream leaves between `furthest` and its next update was delivered by it or is excused. */
  lemma DeliverCovers(ups: Upstream, anyStatus: bool, c: Cover, ps: seq<nat>, next: nat)
    requires Covered(ups, anyStatus, c) && Joined(ups, anyStatus, c, ps, next) && next < |ps|
    ensures Covered(ups, anyStatus, Deliver(ups, anyStatus, c, ps[next]))
  {
    var i := ps[next];
    var d := Deliver(ups, anyStatus, c, i);
    assert d.delivered[|c.delivered|] == i;
    if c.anchor.Some? {
      forall x | c.anchor.value <= x < d.furthest ensures x in d.delivered || Excused(ups, anyStatus, d.gaps, x) {
        if c.furthest <= x && x in ps {
          var k :| 0 <= k < |ps| && ps[k] == x;
          assert k <= next;
        }
      }
    }
  }

  lemma DeliverJoins(ups: Upstream, anyStatus: bool, c: Cover, ps: seq<nat>, next: nat)
    requires Joined(ups, anyStatus, c, ps, next) && next < |ps|
    ensures Joined(ups, anyStatus, Deliver(ups, anyStatus, c, ps[next]), ps, next + 1)
  {
    var d := Deliver(ups, anyStatus, c, ps[next]);
    assert d.delivered[|c.delivered|] == ps[next];
    forall x | d.anchor.Some? && d.furthest <= x < |ups| && x !in ps ensures Excused(ups, anyStatus, d.gaps, x) {
      if c.anchor.None? {
        assert SlotAt(ups, x) < SlotAt(ups, ps[next]);
      }
    }
  }

  lemma DeliverKeeps(ups: Upstream, anyStatus: bool, c: Cover, last: nat, ps: seq<nat>, next: nat)
    requires CoverInv(ups, anyStatus, c, last) && Joined(ups, anyStatus, c, ps, next) && next < |ps|
    ensures CoverInv(ups, anyStatus, Deliver(ups, anyStatus, c, ps[next]), Advance(anyStatus, last, ups[ps[next]]))
    ensures Joined(ups, anyStatus, Deliver(ups, anyStatus, c, ps[next]), ps, next + 1)
  {
    DeliverGrounds(ups, anyStatus, c, last, ps[next]);
    DeliverCovers(ups, anyStatus, c, ps, next);
    DeliverJoins(ups, anyStatus, c, ps, next);
  }

  /** A replay from the last seen slot inclusively passes over late updates only: it opens no gap. */
  lemma ReplayRejoins(ups: Upstream, anyStatus: bool, c: Cover, last: nat, head: nat, attempt: nat)
    requires CoverInv(ups, anyStatus, c, last) && last > 0
    ensures Open(ups, anyStatus, c, Positions(ups, Some(last), head, 0), attempt) == c
  {
    PositionsExact(ups, Some(last), head, 0);
    var j :| 0 <= j < c.furthest && Tracks(anyStatus, ups[j]) && ups[j].slot == last;
    var ps := Positions(ups, Some(last), head, 0);
    forall i | c.furthest <= i < |ups| && i !in ps ensures Late(ups, anyStatus, i) {
      assert SlotAt(ups, j) > SlotAt(ups, i);
    }
  }

  /**
   A replay from the slot after the last seen one opens a gap exactly when the upstream has already sent
   another update of that last slot, beyond what was delivered, that is not late.
   */
  lemma ExclusiveReplayLoses(ups: Upstream, anyStatus: bool, c: Cover, last: nat, head: nat, attempt: nat)
    requires CoverInv(ups, anyStatus, c, last) && last > 0
    ensures Open(ups, anyStatus, c, Positions(ups, Some(last + 1), head, 0), attempt) != c <==>
            exists i :: c.furthest <= i < |ups| && i < head && SlotAt(ups, i) == last && !Late(ups, anyStatus, i)
  {
    PositionsExact(ups, Some(last + 1), head, 0);
    var j :| 0 <= j < c.furthest && Tracks(anyStatus, ups[j]) && ups[j].slot == last;
    var ps := Positions(ups, Some(last + 1), head, 0);
    var lost := PassedOver(ups, anyStatus, c, ps);
    if i :| c.furthest <= i < |ups| && i < head && SlotAt(ups, i) == last && !Late(ups, anyStatus, i) {
      assert i in lost;
    }
    if lost != {} {
      var i :| i in lost;
      assert !Sent(ups, Some(last + 1), head, i);
      assert SlotAt(ups, i) == SlotAt(ups, j);
      assert |Open(ups, anyStatus, c, ps, attempt).gaps| == |c.gaps| + 1;
    }
  }

  // What the consumer of a stream receives

  predicate IsControl(u: SubscribeUpdate) {
    u.payload.Some? && (u.payload.value.Ping? || u.payload.value.Pong?)
  }

  /** The updates other than pings and pongs are the upstream's at the given positions, in order. */
  ghost predicate Carries(ups: Upstream, us: seq<SubscribeUpdate>, positions: seq<nat>) {
    if us == [] then positions == []
    else
      var u, n := us[|us| - 1], |positions| - 1;
      if IsControl(u) then
        Carries(ups, us[..|us| - 1], positions)
      else
        && n >= 0 && positions[n] < |ups| && u.payload == Some(ups[positions[n]])
        && Carries(ups, us[..|us| - 1], positions[..n])
  }

  lemma CarriesSnoc(ups: Upstream, us: seq<SubscribeUpdate>, positions: seq<nat>, u: SubscribeUpdate, i: nat)
    requires Carries(ups, us, positions)
    ensures IsControl(u) ==> Carries(ups, us + [u], positions)
    ensures i < |ups| && u.payload == Some(ups[i]) ==> Carries(ups, us + [u], positions + [i])
  {
    assert (us + [u])[..|us|] == us;
    assert (positions + [i])[..|positions|] == positions;
  }

  // The anchor, read off the delivery order alone

  /** Index of the first delivery that moved the last seen slot, or the number of deliveries. */
  ghost function AnchorIndex(ups: Upstream, anyStatus: bool, delivered: seq<nat>): (k: nat)
    ensures k <= |delivered|
  {
    if delivered == [] then 0
    else
      var n := |delivered| - 1;
      var k := AnchorIndex(ups, anyStatus, delivered[..n]);
      if k < n then k
      else if delivered[n] < |ups| && Anchors(ups, anyStatus, delivered[n]) then n
      else n + 1
  }

  ghost predicate AnchorMeans(ups: Upstream, anyStatus: bool, c: Cover) {
    var k := AnchorIndex(ups, anyStatus, c.delivered);
    && (c.anchor.Some? <==> k < |c.delivered|)
    && (c.anchor.Some? ==> c.anchor.value == c.delivered[k])
    && (c.anchor.Some? ==> forall j :: k <= j < |c.delivered| ==> c.delivered[j] < c.furthest)
    && (c.anchor.Some? ==> c.furthest > 0 && c.furthest - 1 in c.delivered)
  }

  lemma AnchorIndexSnoc(ups: Upstream, anyStatus: bool, delivered: seq<nat>, i: nat)
    requires i < |ups|
    ensures var k := AnchorIndex(ups, anyStatus, delivered);
            AnchorIndex(ups, anyStatus, delivered + [i]) ==
            if k < |delivered| then k else if Anchors(ups, anyStatus, i) then |delivered| else |delivered| + 1
  {
    assert (delivered + [i])[..|delivered|] == delivered;
  }

  lemma DeliverAnchors(ups: Upstream, anyStatus: bool, c: Cover, i: nat)
    requires i < |ups| && AnchorMeans(ups, anyStatus, c)
    ensures AnchorMeans(ups, anyStatus, Deliver(ups, anyStatus, c, i))
  {
    AnchorIndexSnoc(ups, anyStatus, c.delivered, i);
  }

  lemma {:induction false} AnchoredBy(ups: Upstream, anyStatus: bool, delivered: seq<nat>, n: nat)
    requires n < |delivered| && delivered[n] < |ups| && Anchors(ups, anyStatus, delivered[n])
    ensures AnchorIndex(ups, anyStatus, delivered) <= n
  {
    if n < |delivered| - 1 {
      AnchoredBy(ups, anyStatus, delivered[..|delivered| - 1], n);
    }
  }

  /** Position `i` lies between the first observed slot and some later delivery. */
  ghost predicate Spanned(ups: Upstream, anyStatus: bool, delivered: seq<nat>, i: nat) {
    var k := AnchorIndex(ups, anyStatus, delivered);
    exists j :: k <= j < |delivered| && delivered[k] <= i <= delivered[j]
  }

  /** Every update from the first observed slot up to any later delivery was delivered, is late, or lies in a gap. */
  ghost predicate LosesNothingOutsideGaps(ups: Upstream, anyStatus: bool, c: Cover) {
    forall i :: 0 <= i && Spanned(ups, anyStatus, c.delivered, i) ==>
      i in c.delivered || (i < |ups| && (InGap(c.gaps, i) || Late(ups, anyStatus, i)))
  }

  lemma CoverageExact(ups: Upstream, anyStatus: bool, c: Cover, last: nat)
    requires CoverInv(ups, anyStatus, c, last) && AnchorMeans(ups, anyStatus, c)
    ensures LosesNothingOutsideGaps(ups, anyStatus, c)
  {
    forall i | 0 <= i && Spanned(ups, anyStatus, c.delivered, i)
      ensures i in c.delivered || (i < |ups| && (InGap(c.gaps, i) || Late(ups, anyStatus, i)))
    {
      var k := AnchorIndex(ups, anyStatus, c.delivered);
      var j :| k <= j < |c.delivered| && c.delivered[k] <= i <= c.delivered[j];
      assert c.anchor.value <= i < c.furthest;
    }
  }

  // ---------------------------------------------------------------------------------------------
  // From the first delivery on
  // ---------------------------------------------------------------------------------------------

  /** The subscription's own from_slot asks for this update. */
  predicate Requested(ups: Upstream, fromSlot: Option<nat>, i: nat)
    requires i < |ups|
  {
    fromSlot.Some? && SlotAt(ups, i) >= fromSlot.value
  }

  /** Passed over: something before it (or its own request) and something after it came, but not it. */
  ghost predicate Skips(ups: Upstream, fromSlot: Option<nat>, delivered: seq<nat>, i: nat) {
    && i < |ups| && delivered != [] && i !in delivered
    && (delivered[0] < i || Requested(ups, fromSlot, i))
    && exists b :: 0 <= b < |delivered| && delivered[b] > i
  }

  /**
   A stream can begin with an earlier update that shows no slot, die there, and leave nothing to replay from:
   the next one is opened with the subscription's own from_slot, which does not ask for this update.
   */
  ghost predicate Exposed(ups: Upstream, anyStatus: bool, fromSlot: Option<nat>, i: nat)
    requires i < |ups|
  {
    && !Requested(ups, fromSlot, i)
    && exists j :: 0 <= j < i && !Anchors(ups, anyStatus, j) && NoneRequested(ups, fromSlot, j)
  }

  ghost predicate NoneRequested(ups: Upstream, fromSlot: Option<nat>, j: nat)
    requires j <= |ups|
  {
    forall x :: 0 <= x < j ==> !Requested(ups, fromSlot, x)
  }

  /** No update the subscription's from_slot asks for comes before the first delivery. */
  ghost predicate FirstHeld(ups: Upstream, fromSlot: Option<nat>, delivered: seq<nat>, open: bool, ps: seq<nat>) {
    && (delivered != [] ==> delivered[0] < |ups| && NoneRequested(ups, fromSlot, delivered[0]))
    && (open && delivered == [] && ps != [] ==> ps[0] < |ups| && NoneRequested(ups, fromSlot, ps[0]))
  }

  /** A requested update that is not late has come, or nothing beyond it has and the open stream carries it. */
  ghost predicate Held(ups: Upstream, anyStatus: bool, fromSlot: Option<nat>, delivered: seq<nat>, open: bool, ps: seq<nat>, i: nat) {
    i < |ups| && Requested(ups, fromSlot, i) && !Late(ups, anyStatus, i) && i !in delivered ==>
      (forall y :: y in delivered ==> y < i) && (open ==> i in ps)
  }

  lemma HeldDeliver(ups: Upstream, anyStatus: bool, fromSlot: Option<nat>, delivered: seq<nat>, ps: seq<nat>, next: nat, i: nat)
    requires SkipsOnlyOlder(ups, ps) && next < |ps| && forall k :: 0 <= k < next ==> ps[k] in delivered
    requires FirstHeld(ups, fromSlot, delivered, true, ps) && Held(ups, anyStatus, fromSlot, delivered, true, ps, i)
    ensures FirstHeld(ups, fromSlot, delivered + [ps[next]], true, ps)
    ensures Held(ups, anyStatus, fromSlot, delivered + [ps[next]], true, ps, i)
  {
    assert next > 0 ==> ps[0] in delivered;
    var more := delivered + [ps[next]];
    assert more[|delivered|] == ps[next];
    assert forall y :: y in delivered ==> y in more;
    if i in ps && i !in more {
      var k :| 0 <= k < |ps| && ps[k] == i;
      assert next < k;
    }
  }

  lemma FirstIsLeast(ups: Upstream, fromSlot: Option<nat>, head: nat)
    ensures var ps := Positions(ups, fromSlot, head, 0);
            ps != [] ==> ps[0] < |ups| && NoneRequested(ups, fromSlot, ps[0])
  {
    PositionsExact(ups, fromSlot, head, 0);
    var ps := Positions(ups, fromSlot, head, 0);
    if ps != [] {
      assert ps[0] in ps;
      assert forall k :: 0 <= k < |ps| ==> ps[0] <= ps[k];
      forall x | 0 <= x < ps[0] ensures !Requested(ups, fromSlot, x) {
        assert x !in ps;
      }
    }
  }

  /** A stream opened with the replay slot, or with the subscription's own from_slot when there is none. */
  lemma HeldOpen(ups: Upstream, anyStatus: bool, fromSlot: Option<nat>, c: Cover, last: nat, replayFrom: Option<nat>, head: nat, i: nat)
    requires CoverInv(ups, anyStatus, c, last) && AnchorMeans(ups, anyStatus, c)
    requires replayFrom.Some? ==> replayFrom.value == last > 0
    requires FirstHeld(ups, fromSlot, c.delivered, false, []) && Held(ups, anyStatus, fromSlot, c.delivered, false, [], i)
    ensures var ps := Positions(ups, if replayFrom.Some? then replayFrom else fromSlot, head, 0);
            FirstHeld(ups, fromSlot, c.delivered, true, ps) && Held(ups, anyStatus, fromSlot, c.delivered, true, ps, i)
  {
    var asked := if replayFrom.Some? then replayFrom else fromSlot;
    FirstIsLeast(ups, asked, head);
    PositionsExact(ups, asked, head, 0);
    if i < |ups| && Requested(ups, fromSlot, i) && !Late(ups, anyStatus, i) && i !in c.delivered && replayFrom.Some? {
      assert c.furthest - 1 in c.delivered;
      var j :| 0 <= j < c.furthest && Tracks(anyStatus, ups[j]) && ups[j].slot == last;
      assert SlotAt(ups, i) >= SlotAt(ups, j);
    }
  }

  /** What is passed over is late, lies in a gap, or was exposed before any slot was seen. */
  lemma SkippedMeans(ups: Upstream, anyStatus: bool, fromSlot: Option<nat>, c: Cover, last: nat, open: bool, ps: seq<nat>, i: nat)
    requires CoverInv(ups, anyStatus, c, last) && AnchorMeans(ups, anyStatus, c) && Within(ups, c.delivered)
    requires FirstHeld(ups, fromSlot, c.delivered, open, ps) && Held(ups, anyStatus, fromSlot, c.delivered, open, ps, i)
    requires Skips(ups, fromSlot, c.delivered, i)
    ensures i + 1 < |ups|
    ensures InGap(c.gaps, i) || Late(ups, anyStatus, i) || Exposed(ups, anyStatus, fromSlot, i)
  {
    var d := c.delivered;
    var b :| 0 <= b < |d| && d[b] > i;
    assert d[b] in d;
    if Anchors(ups, anyStatus, d[0]) && d[0] < i {
      AnchoredBy(ups, anyStatus, d, 0);
      assert Spanned(ups, anyStatus, d, i);
      CoverageExact(ups, anyStatus, c, last);
    }
  }

  lemma {:induction false} CarriesWithin(ups: Upstream, us: seq<SubscribeUpdate>, positions: seq<nat>)
    requires Carries(ups, us, positions)
    ensures Within(ups, positions)
  {
    if us != [] {
      var u, n := us[|us| - 1], |positions| - 1;
      CarriesWithin(ups, us[..|us| - 1], if IsControl(u) then positions else positions[..n]);
    }
  }

  lemma JumpSkips(ups: Upstream, fromSlot: Option<nat>, ps: seq<nat>, qs: seq<nat>, i: nat)
    requires i < |ups| && ps != [] && (forall m :: 0 <= m < |ps| ==> ps[m] < i)
    requires qs != [] && qs[|qs| - 1] == i + 1 && i !in qs
    ensures Skips(ups, fromSlot, ps + qs, i)
  {
    var d := ps + qs;
    assert d[|d| - 1] == i + 1 && d[0] == ps[0];
  }
}
