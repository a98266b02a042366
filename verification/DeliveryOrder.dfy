/** Order: when the sent slots of a ring are a prefix of it, exactly which events keep it
    so, and what that means for the values on the wire. */
module DeliveryOrder {
  import opened Common
  import opened Ring
  import opened Vec
  import opened Delivery
  import opened DeliveryInvariants

  /** The first inFlight slots carry the ids of the subscription's pending acks, in order,
      and no later slot has been sent. */
  ghost predicate Aligned(s: Sub, ids: seq<nat>) {
    && s.inFlight == |ids| <= |s.queue|
    && (forall i | 0 <= i < |s.queue| :: s.queue[i].id == if i < |ids| then ids[i] else 0)
    && (forall i | 0 <= i < |ids| :: ids[i] > 0)
  }

  // How many slots at the front have been sent.
  function Lead(q: seq<Slot>): (r: nat)
    ensures r <= |q| && forall i | 0 <= i < r :: q[i].id > 0
    ensures r < |q| ==> q[r].id == 0
  {
    if q == [] || q[0].id == 0 then 0 else 1 + Lead(q[1..])
  }

  /** The weaker form that also holds after evictions: the sent slots are the front of the
      ring and carry the ids of the newest pending acks. The slots of the older ones have
      been evicted, and the ring has been full since. */
  ghost predicate Trail(s: Sub, ids: seq<nat>, ring: nat) {
    var l := Lead(s.queue);
    && l <= s.inFlight == |ids| <= |s.queue|
    && (forall i | 0 <= i < |s.queue| :: s.queue[i].id == if i < l then ids[|ids| - l + i] else 0)
    && (forall i | 0 <= i < |ids| :: ids[i] > 0)
    && (l < |ids| ==> |s.queue| == ring)
  }

  lemma {:induction false} LeadIs(q: seq<Slot>, l: nat)
    requires l <= |q| && (forall i | 0 <= i < l :: q[i].id > 0) && (l < |q| ==> q[l].id == 0)
    ensures Lead(q) == l
    decreases l
  {
    if l > 0 {
      LeadIs(q[1..], l - 1);
    }
  }

  // An aligned ring is one that has lost no slot in flight.
  lemma AlignedTrails(s: Sub, ids: seq<nat>, ring: nat)
    requires Aligned(s, ids)
    ensures Trail(s, ids, ring) && Lead(s.queue) == s.inFlight
  {
    LeadIs(s.queue, |ids|);
  }

  ghost predicate AlignedAt(n: Node, p: Path) {
    p in n.subs && Aligned(n.subs[p], IdsFor(n.acks, p))
  }

  ghost predicate AllAligned(n: Node) {
    forall p | p in n.subs :: AlignedAt(n, p)
  }

  // sendQueuedMessages left nothing that fits the window.
  ghost predicate Pumped(n: Node, p: Path) {
    Live(n, p) ==> n.subs[p].inFlight == Min(n.cfg.window, |n.subs[p].queue|)
  }

  ghost predicate Ascending(ids: seq<nat>) {
    forall i, j | 0 <= i < j < |ids| :: ids[i] < ids[j]
  }

  // ---------- pumping an aligned ring ----------

  // How many slots a pump sends when every slot from the counter on is unsent.
  function Room(s: Sub, window: nat): (k: nat)
  {
    if s.inFlight < Min(window, |s.queue|) then Min(window, |s.queue|) - s.inFlight else 0
  }

  lemma PumpFills(n: Node, p: Path)
    requires p in n.subs
    requires forall i | n.subs[p].inFlight <= i < |n.subs[p].queue| :: n.subs[p].queue[i].id == 0
    ensures Pump(n, p) == Send(n, p, if Live(n, p) then Room(n.subs[p], n.cfg.window) else 0)
  {
    hide Pump, FreshAcks, SendSub;
    var k := PumpEffect(n, p);
    SentCounts(n.subs[p], n.total, k);
  }

  // What a pump leaves as it was.
  lemma SentCounts(s: Sub, total: nat, k: nat)
    requires s.inFlight + k <= Max(s.inFlight, |s.queue|)
    ensures var t := SendSub(s, total, k);
            && t.sid == s.sid && t.inFlight == s.inFlight + k && |t.queue| == |s.queue|
            && (forall j | 0 <= j < |s.queue| && j < s.inFlight :: t.queue[j] == s.queue[j])
            && (forall j | s.inFlight + k <= j < |s.queue| :: t.queue[j] == s.queue[j])
  {
    hide NextId, Msgs, Positions;
  }

  lemma SendAligned(s: Sub, ids: seq<nat>, total: nat, k: nat)
    requires Aligned(s, ids) && s.inFlight + k <= |s.queue|
    ensures Aligned(SendSub(s, total, k), ids + FreshIds(total, k))
  {
    hide NextId;
  }

  lemma PumpAligned(n: Node, p: Path)
    requires AlignedAt(n, p)
    requires n.subs[p].inFlight <= n.cfg.window
    ensures AlignedAt(Pump(n, p), p) && Pumped(Pump(n, p), p)
    ensures forall q | q in n.subs && q != p :: IdsFor(Pump(n, p).acks, q) == IdsFor(n.acks, q)
  {
    PumpFills(n, p);
    var k := if Live(n, p) then Room(n.subs[p], n.cfg.window) else 0;
    SendAligned(n.subs[p], IdsFor(n.acks, p), n.total, k);
    forall q ensures IdsFor(Send(n, p, k).acks, q) == IdsFor(n.acks, q) + (if q == p then FreshIds(n.total, k) else []) {
      IdsForAppend(n.acks, FreshAcks(p, n.total, k), q);
      IdsForFresh(p, n.total, k, q);
    }
  }

  // ---------- offering ----------

  // A push into a full ring while slots are in flight shifts them under the counter.
  predicate EvictsInFlight(n: Node, p: Path) {
    p in n.subs && |n.subs[p].queue| == n.cfg.ring && n.subs[p].inFlight > 0
  }

  /** An offer keeps the ring aligned exactly when it evicts no slot in flight, and then it
      also leaves the window full. */
  lemma OfferExact(n: Node, p: Path, msg: Message)
    requires Inv(n) && AlignedAt(n, p)
    ensures AlignedAt(Offer(n, p, msg), p) <==> !EvictsInFlight(n, p)
    ensures !EvictsInFlight(n, p) ==> Pumped(Offer(n, p, msg), p)
    ensures forall q | q in n.subs && q != p && AlignedAt(n, q) :: AlignedAt(Offer(n, p, msg), q)
  {
    hide Pump, IdsFor, Msgs, Logged;
    var m := Enqueue(n, p, msg);
    assert SubInv(n, p) && BalancedSub(n, p, [], IdsFor(n.acks, p));
    if EvictsInFlight(n, p) {
      OfferEvicts(n, p, msg);
    } else {
      EnqueueAligned(n.subs[p], IdsFor(n.acks, p), n.cfg.ring, msg);
      PumpAligned(m, p);
    }
    OfferElsewhere(n, p, msg);
  }

  lemma OfferEvicts(n: Node, p: Path, msg: Message)
    requires EvictsInFlight(n, p) && AlignedAt(n, p)
    ensures !AlignedAt(Offer(n, p, msg), p)
  {
    hide Pump, IdsFor;
    var m := Enqueue(n, p, msg);
    var i := n.subs[p].inFlight - 1;
    assert m.subs[p].queue[i].id == 0;
    var k := PumpEffect(m, p);
    assert Offer(n, p, msg).subs[p].queue[i].id == 0;
  }

  lemma EnqueueAligned(s: Sub, ids: seq<nat>, ring: nat, msg: Message)
    requires Aligned(s, ids) && |s.queue| <= ring && ring > 0 && (|s.queue| < ring || s.inFlight == 0)
    ensures Aligned(s.(queue := AfterPush(s.queue, ring, Slot(msg, 0)), offered := s.offered + [msg]), ids)
  {
  }

  lemma OfferElsewhere(n: Node, p: Path, msg: Message)
    requires p in n.subs
    ensures forall q | q in n.subs && q != p ::
              q in Offer(n, p, msg).subs && Offer(n, p, msg).subs[q] == n.subs[q] && IdsFor(Offer(n, p, msg).acks, q) == IdsFor(n.acks, q)
  {
    var m := Enqueue(n, p, msg);
    var k := PumpEffect(m, p);
    forall q | q in n.subs && q != p ensures IdsFor(Offer(n, p, msg).acks, q) == IdsFor(n.acks, q) {
      IdsForAppend(n.acks, FreshAcks(p, n.total, k), q);
      IdsForFresh(p, n.total, k, q);
    }
  }

  // ---------- acknowledging ----------

  lemma {:induction false} IdsForMember(acks: seq<PendingAck>, p: Path, j: nat)
    requires j < |acks| && acks[j].path == p
    ensures acks[j].id in IdsFor(acks, p)
  {
    if j < |acks| - 1 {
      IdsForMember(acks[..|acks| - 1], p, j);
    }
  }

  lemma IdsForPrefix(acks: seq<PendingAck>, i: nat, p: Path)
    requires i <= |acks|
    ensures IdsFor(acks[..i], p) <= IdsFor(acks, p)
  {
    assert acks == acks[..i] + acks[i..];
    IdsForAppend(acks[..i], acks[i..], p);
  }

  lemma GrownIds(n: Node, m: Node, tail: seq<PendingAck>, q: Path)
    requires Grown(n, m, tail) && forall a | a in tail :: a.path != q
    ensures IdsFor(m.acks, q) == IdsFor(n.acks, q)
  {
    IdsForAppend(n.acks, tail, q);
    NoIdsFor(tail, q);
  }

  lemma AckOneElsewhere(n: Node, i: nat, q: Path)
    requires i < |n.acks| && q in n.subs && n.acks[i].path != q
    ensures q in AckOne(n, i).subs && AckOne(n, i).subs[q] == n.subs[q]
    ensures IdsFor(AckOne(n, i).acks, q) == IdsFor(n.acks, q)
    ensures n.acks <= AckOne(n, i).acks
  {
    var tail := AckOneGrown(n, i);
    GrownIds(n, AckOne(n, i), tail, q);
    var a := n.acks[i];
    if a.path in n.subs {
      var _ := PumpEffect(Settle(n, a.path, a.id), a.path);
    }
  }

  // No entry below i can drop anything more from the ring of p.
  ghost predicate Drained(n: Node, i: nat, p: Path)
    requires i <= |n.acks| && p in n.subs
  {
    forall j | 0 <= j < i && n.acks[j].path == p :: AckedCount(n.subs[p].queue, n.acks[j].id) == 0
  }

  lemma DrainedTurn(n: Node, i: nat, p: Path)
    requires i < |n.acks| && p in n.subs && Drained(n, i + 1, p)
    requires n.acks[i].path == p ==> n.subs[p].inFlight > 0
    ensures var m := AckOne(n, i);
            && n.acks <= m.acks && p in m.subs
            && m.subs[p] == n.subs[p].(inFlight := n.subs[p].inFlight - if n.acks[i].path == p then 1 else 0)
            && IdsFor(m.acks, p) == IdsFor(n.acks, p)
            && Drained(m, i, p)
  {
    if n.acks[i].path == p {
      assert n.subs[p].queue[0..] == n.subs[p].queue;
      assert AckOne(n, i) == Settle(n, p, n.acks[i].id);
    } else {
      AckOneElsewhere(n, i, p);
    }
  }

  // The rest of the loop then only counts down.
  lemma {:induction false} DrainedLoop(n: Node, i: nat, p: Path)
    requires i <= |n.acks| && p in n.subs && Drained(n, i, p)
    requires |IdsFor(n.acks[..i], p)| <= n.subs[p].inFlight
    ensures var m := AckLoop(n, i);
            && p in m.subs
            && m.subs[p] == n.subs[p].(inFlight := n.subs[p].inFlight - |IdsFor(n.acks[..i], p)|)
            && IdsFor(m.acks, p) == IdsFor(n.acks, p)
    decreases i
  {
    hide AckOne, AckLoop, IdsFor, Drained;
    if i == 0 {
      AckLoopDone(n);
      assert n.acks[..0] == [] && IdsFor([], p) == [] by { NoIdsFor([], p); }
    } else {
      AckLoopNext(n, i);
      var m := AckOne(n, i - 1);
      IdsForNext(n.acks, i - 1, p);
      DrainedTurn(n, i - 1, p);
      assert m.acks[..i - 1] == n.acks[..i - 1];
      DrainedLoop(m, i - 1, p);
    }
  }

  // How many pending acks have lost their slot.
  function Gone(s: Sub): nat {
    if Lead(s.queue) <= s.inFlight then s.inFlight - Lead(s.queue) else 0
  }

  // How many slots go when the first r entries are retired.
  function Popped(s: Sub, r: nat): (d: nat)
    ensures d <= r && (r <= s.inFlight ==> d <= |s.queue|)
  {
    if r <= Gone(s) then 0 else r - Gone(s)
  }

  /** The turn for the newest of r retired entries: it drops all the acked slots while the
      counter still counts the other r - 1, and pumps from there, if it dropped any. */
  function Turned(s: Sub, r: nat, total: nat, k: nat): Sub
    requires Lead(s.queue) <= s.inFlight <= |s.queue| && 0 < r <= s.inFlight
    requires Popped(s, r) > 0 ==> s.inFlight - 1 + k <= Max(s.inFlight - 1, |s.queue| - Popped(s, r))
  {
    var d := Popped(s, r);
    if d == 0 then s.(inFlight := s.inFlight - 1)
    else SendSub(s.(queue := s.queue[d..], inFlight := s.inFlight - 1), total, k)
  }

  // The turns for the others only count down.
  function AckedSub(s: Sub, r: nat, total: nat, k: nat): Sub
    requires Lead(s.queue) <= s.inFlight <= |s.queue| && r <= s.inFlight
    requires Popped(s, r) > 0 ==> s.inFlight - 1 + k <= Max(s.inFlight - 1, |s.queue| - Popped(s, r))
  {
    if r == 0 then s
    else
      var t := Turned(s, r, total, k);
      t.(inFlight := t.inFlight - (r - 1))
  }

  // How many slots that turn sends.
  function AckRoom(s: Sub, r: nat, window: nat): (k: nat)
    requires Lead(s.queue) <= s.inFlight <= |s.queue| && r <= s.inFlight
    ensures Popped(s, r) > 0 ==> s.inFlight - 1 + k <= Max(s.inFlight - 1, |s.queue| - Popped(s, r))
  {
    var d := Popped(s, r);
    if d == 0 then 0 else Room(s.(queue := s.queue[d..], inFlight := s.inFlight - 1), window)
  }

  lemma TrailDrops(s: Sub, ids: seq<nat>, ring: nat, r: nat)
    requires Trail(s, ids, ring) && Ascending(ids) && 0 < r <= |ids|
    ensures AckedCount(s.queue, ids[r - 1]) == Popped(s, r)
  {
    var c, d, l := AckedCount(s.queue, ids[r - 1]), Popped(s, r), Lead(s.queue);
    assert c < |s.queue| ==> s.queue[c].id == if c < l then ids[|ids| - l + c] else 0;
    assert d < |s.queue| ==> s.queue[d].id == if d < l then ids[|ids| - l + d] else 0;
  }

  lemma FirstTurn(n: Node, i: nat, p: Path, ids: seq<nat>, r: nat) returns (k: nat)
    requires i < |n.acks| && n.acks[i].path == p && p in n.subs && Live(n, p)
    requires Trail(n.subs[p], ids, n.cfg.ring) && Ascending(ids) && 0 < r <= |ids|
    requires n.acks[i].id == ids[r - 1] && ids == IdsFor(n.acks, p)
    ensures k == AckRoom(n.subs[p], r, n.cfg.window)
    ensures var m := AckOne(n, i);
            && n.acks <= m.acks && p in m.subs
            && m.subs[p] == Turned(n.subs[p], r, n.total, k)
            && IdsFor(m.acks, p) == ids + FreshIds(n.total, k)
  {
    hide Pump, IdsFor, AckedCount, Lead, NextId, FreshAcks, FreshIds, MarkSent, Msgs, Positions, Ascending;
    var s := n.subs[p];
    var d := Popped(s, r);
    TrailDrops(s, ids, n.cfg.ring, r);
    k := AckRoom(s, r, n.cfg.window);
    var m := Settle(n, p, n.acks[i].id);
    if d == 0 {
      assert s.queue[0..] == s.queue;
      assert m.subs[p] == s.(inFlight := s.inFlight - 1);
      assert ids + FreshIds(n.total, 0) == ids by { assert |FreshIds(n.total, 0)| == 0; }
    } else {
      assert m.subs[p] == s.(queue := s.queue[d..], inFlight := s.inFlight - 1);
      UnsentBehind(s, ids, n.cfg.ring, r);
      PumpFills(m, p);
      IdsForAppend(n.acks, FreshAcks(p, n.total, k), p);
      IdsForFresh(p, n.total, k, p);
    }
  }

  // From the counter on nothing of what is left was sent.
  lemma UnsentBehind(s: Sub, ids: seq<nat>, ring: nat, r: nat)
    requires Trail(s, ids, ring) && 0 < r <= |ids| && Popped(s, r) > 0
    ensures var q := s.queue[Popped(s, r)..]; forall i | s.inFlight - 1 <= i < |q| :: q[i].id == 0
  {
    hide Lead;
  }

  lemma FirstTurnDrains(n: Node, i: nat, p: Path, ids: seq<nat>, r: nat, m: Node)
    requires i < |n.acks| && p in n.subs && p in m.subs
    requires Trail(n.subs[p], ids, n.cfg.ring) && Ascending(ids) && 0 < r <= |ids|
    requires IdsFor(n.acks[..i], p) == ids[..r - 1]
    requires n.acks <= m.acks
    requires var d := Popped(n.subs[p], r);
             && |m.subs[p].queue| == |n.subs[p].queue| - d
             && forall j | 0 <= j < |m.subs[p].queue| && j < n.subs[p].inFlight - 1 :: m.subs[p].queue[j] == n.subs[p].queue[d + j]
    ensures Drained(m, i, p)
  {
    hide IdsFor;
    var q, d, l := m.subs[p].queue, Popped(n.subs[p], r), Lead(n.subs[p].queue);
    forall j | 0 <= j < i && m.acks[j].path == p ensures AckedCount(q, m.acks[j].id) == 0 {
      assert n.acks[..i][j] == m.acks[j];
      IdsForMember(n.acks[..i], p, j);
      var x :| 0 <= x < r - 1 && ids[x] == m.acks[j].id;
      if |q| > 0 {
        assert q[0] == n.subs[p].queue[d];
        assert n.subs[p].queue[d].id == if d < l then ids[|ids| - l + d] else 0;
      }
    }
  }

  lemma TurnedFront(s: Sub, r: nat, total: nat, k: nat)
    requires Lead(s.queue) <= s.inFlight <= |s.queue| && 0 < r <= s.inFlight
    requires Popped(s, r) > 0 ==> s.inFlight - 1 + k <= Max(s.inFlight - 1, |s.queue| - Popped(s, r))
    requires Popped(s, r) == 0 ==> k == 0
    ensures var t, d := Turned(s, r, total, k), Popped(s, r);
            && t.inFlight == s.inFlight - 1 + k && |t.queue| == |s.queue| - d
            && (forall j | 0 <= j < |t.queue| && j < s.inFlight - 1 :: t.queue[j] == s.queue[d + j])
  {
    hide Lead, SendSub;
    var d, t := Popped(s, r), Turned(s, r, total, k);
    if d > 0 {
      var u := s.(queue := s.queue[d..], inFlight := s.inFlight - 1);
      SentCounts(u, total, k);
      forall j | 0 <= j < |t.queue| && j < s.inFlight - 1 ensures t.queue[j] == s.queue[d + j] {
        assert t.queue[j] == u.queue[j];
      }
    }
  }

  /** What retiring r entries of a subscription does to it and to its entries. */
  ghost predicate Retires(n: Node, m: Node, p: Path, r: nat, total: nat, k: nat) {
    && p in n.subs && p in m.subs
    && Lead(n.subs[p].queue) <= n.subs[p].inFlight <= |n.subs[p].queue| && r <= n.subs[p].inFlight
    && k == AckRoom(n.subs[p], r, n.cfg.window)
    && m.subs[p] == AckedSub(n.subs[p], r, total, k)
    && IdsFor(m.acks, p) == IdsFor(n.acks, p) + FreshIds(total, k)
  }

  lemma RetiresElsewhere(n: Node, m: Node, end: Node, p: Path, r: nat, total: nat, k: nat)
    requires p in n.subs && p in m.subs && n.cfg == m.cfg && n.subs[p] == m.subs[p]
    requires IdsFor(n.acks, p) == IdsFor(m.acks, p)
    requires Retires(m, end, p, r, total, k)
    ensures Retires(n, end, p, r, total, k)
  {
  }

  lemma RetiresNone(n: Node, p: Path, total: nat)
    requires p in n.subs && Lead(n.subs[p].queue) <= n.subs[p].inFlight <= |n.subs[p].queue|
    ensures IdsFor(n.acks[..0], p) == [] && AckLoop(n, 0) == n
    ensures Retires(n, n, p, 0, total, 0)
  {
    assert IdsFor(n.acks, p) + FreshIds(total, 0) == IdsFor(n.acks, p);
  }

  // The pending acks of p and its ring.
  ghost predicate Trails(n: Node, p: Path) {
    p in n.subs && Trail(n.subs[p], IdsFor(n.acks, p), n.cfg.ring)
  }

  /** The exact effect of the ack loop on one subscription, r being the number of its entries
      among the first i. */
  lemma {:induction false} TrailLoop(n: Node, i: nat, p: Path) returns (total: nat, k: nat)
    requires i <= |n.acks| && Trails(n, p) && Ascending(IdsFor(n.acks, p))
    requires n.subs[p].inFlight > 0 ==> Live(n, p)
    ensures Retires(n, AckLoop(n, i), p, |IdsFor(n.acks[..i], p)|, total, k)
    decreases i
  {
    hide AckOne, AckLoop, Pump, Trail, Ascending, IdsFor, Retires;
    total, k := 0, 0;
    if i == 0 {
      TrailBounds(n.subs[p], IdsFor(n.acks, p), n.cfg.ring);
      RetiresNone(n, p, total);
    } else if n.acks[i - 1].path == p {
      total, k := FirstTurnThenDrained(n, i - 1, p);
    } else {
      IdsForNext(n.acks, i - 1, p);
      var m := AckOne(n, i - 1);
      AckOneElsewhere(n, i - 1, p);
      assert m.acks[..i - 1] == n.acks[..i - 1];
      var _ := AckOneGrown(n, i - 1);
      AckLoopNext(n, i);
      total, k := TrailLoop(m, i - 1, p);
      RetiresElsewhere(n, m, AckLoop(n, i), p, |IdsFor(n.acks[..i], p)|, total, k);
    }
  }

  lemma TrailBounds(s: Sub, ids: seq<nat>, ring: nat)
    requires Trail(s, ids, ring)
    ensures Lead(s.queue) <= s.inFlight == |ids| <= |s.queue|
  {
  }

  lemma FirstTurnThenDrained(n: Node, i: nat, p: Path) returns (total: nat, k: nat)
    requires i < |n.acks| && Trails(n, p) && Ascending(IdsFor(n.acks, p))
    requires n.subs[p].inFlight > 0 ==> Live(n, p)
    requires n.acks[i].path == p
    ensures Retires(n, AckLoop(n, i + 1), p, |IdsFor(n.acks[..i + 1], p)|, total, k)
  {
    hide AckOne, AckLoop, Pump, IdsFor, SendSub, AckRoom, Turned, Trail, Popped, Ascending;
    var ids := IdsFor(n.acks, p);
    TrailBounds(n.subs[p], ids, n.cfg.ring);
    IdsForPrefix(n.acks, i + 1, p);
    IdsForNext(n.acks, i, p);
    var r := |IdsFor(n.acks[..i + 1], p)|;
    var m := AckOne(n, i);
    total := n.total;
    k := FirstTurn(n, i, p, ids, r);
    NoRoom(n.subs[p], r, n.cfg.window);
    TurnedFront(n.subs[p], r, total, k);
    FirstTurnDrains(n, i, p, ids, r, m);
    assert m.acks[..i] == n.acks[..i];
    DrainedLoop(m, i, p);
    AckLoopNext(n, i + 1);
  }

  lemma NoRoom(s: Sub, r: nat, window: nat)
    requires Lead(s.queue) <= s.inFlight <= |s.queue| && r <= s.inFlight
    ensures Popped(s, r) == 0 ==> AckRoom(s, r, window) == 0
  {
  }

  // ---------- exactly which acks keep the order ----------

  // How many pending entries of p the ack retires.
  function RetiredFor(n: Node, p: Path, ack: nat): (r: nat) {
    |IdsFor(n.acks[..Retired(n, ack)], p)|
  }

  lemma {:induction false} IdsForAscending(acks: seq<PendingAck>, p: Path)
    requires forall i, j | 0 <= i < j < |acks| :: acks[i].id < acks[j].id
    ensures Ascending(IdsFor(acks, p))
    ensures acks != [] ==> forall x | x in IdsFor(acks, p) :: x <= acks[|acks| - 1].id
  {
    if acks != [] {
      var front := acks[..|acks| - 1];
      IdsForAscending(front, p);
      forall i | 0 <= i < |IdsFor(front, p)| ensures IdsFor(front, p)[i] < acks[|acks| - 1].id {
        assert IdsFor(front, p)[i] in IdsFor(front, p);
      }
    }
  }

  // Of an aligned ring every retired entry takes its slot along.
  lemma AlignedPops(s: Sub, ids: seq<nat>, r: nat)
    requires Aligned(s, ids) && r <= |ids|
    ensures Lead(s.queue) == s.inFlight && Popped(s, r) == r
  {
    AlignedTrails(s, ids, 0);
  }

  lemma AckedAligned(s: Sub, ids: seq<nat>, r: nat, total: nat, k: nat, window: nat)
    requires Aligned(s, ids) && 0 < r <= |ids| <= window && Lead(s.queue) == s.inFlight && k == AckRoom(s, r, window)
    ensures Aligned(AckedSub(s, r, total, k), ids[r..] + FreshIds(total, k)) <==> r == 1 || |s.queue| - r < s.inFlight
  {
    hide NextId, FreshIds, AckRoom;
    if r > 1 && |s.queue| - r >= s.inFlight {
      AckedOvertakes(s, ids, r, total, k, window);
    } else {
      AckedStaysAligned(s, ids, r, total, k, window);
    }
  }

  // With an unsent slot behind the counter, the slot that the ack brought to its place is
  // passed over.
  lemma AckedOvertakes(s: Sub, ids: seq<nat>, r: nat, total: nat, k: nat, window: nat)
    requires Aligned(s, ids) && 1 < r <= |ids| <= window && Lead(s.queue) == s.inFlight && k == AckRoom(s, r, window)
    requires |s.queue| - r >= s.inFlight
    ensures !Aligned(AckedSub(s, r, total, k), ids[r..] + FreshIds(total, k))
  {
    hide NextId, FreshIds, Lead;
    var t := AckedSub(s, r, total, k);
    assert k > 0 && s.queue[r..][s.inFlight - r].id == 0;
    assert t.queue[s.inFlight - r].id == 0;
  }

  lemma AckedStaysAligned(s: Sub, ids: seq<nat>, r: nat, total: nat, k: nat, window: nat)
    requires Aligned(s, ids) && 0 < r <= |ids| <= window && Lead(s.queue) == s.inFlight && k == AckRoom(s, r, window)
    requires r == 1 || |s.queue| - r < s.inFlight
    ensures Aligned(AckedSub(s, r, total, k), ids[r..] + FreshIds(total, k))
  {
    hide NextId, Lead;
    if r == 1 {
      var t := s.(queue := s.queue[1..], inFlight := s.inFlight - 1);
      assert Aligned(t, ids[1..]);
      SendAligned(t, ids[1..], total, k);
    } else {
      assert k == 0;
      assert ids[r..] + FreshIds(total, 0) == ids[r..];
    }
  }

  lemma AckedPumped(s: Sub, ids: seq<nat>, r: nat, total: nat, k: nat, window: nat)
    requires Aligned(s, ids) && 0 < r <= |ids| <= window && Lead(s.queue) == s.inFlight && k == AckRoom(s, r, window)
    ensures var t := AckedSub(s, r, total, k);
            t.inFlight == Min(window, |t.queue|) <==> r == 1 || s.inFlight == |s.queue|
  {
    hide Lead;
  }

  lemma AckLoopPrefix(n: Node, i: nat)
    requires i <= |n.acks|
    ensures n.acks <= AckLoop(n, i).acks
  {
    hide AckLoop;
    var _ := AckLoopGrown(n, i);
  }

  /** What an ack of any size does to one subscription. */
  lemma AcknowledgeSub(n: Node, p: Path, ack: nat) returns (total: nat, k: nat)
    requires Inv(n) && Sorted(n) && Trails(n, p)
    ensures RetiredFor(n, p, ack) <= |IdsFor(n.acks, p)| <= n.cfg.window
    ensures Retires(n, AckLoop(n, Retired(n, ack)), p, RetiredFor(n, p, ack), total, k)
    ensures IdsFor(Acknowledge(n, ack).acks, p) == IdsFor(n.acks, p)[RetiredFor(n, p, ack)..] + FreshIds(total, k)
  {
    hide AckLoop, IdsFor, SubInv, Indexed, Retired, AckedSub, AckRoom, Trail;
    var last := Retired(n, ack);
    var m := AckLoop(n, last);
    IdsForAscending(n.acks, p);
    assert BalancedSub(n, p, [], IdsFor(n.acks, p));
    TrailBounds(n.subs[p], IdsFor(n.acks, p), n.cfg.ring);
    total, k := TrailLoop(n, last, p);
    AckLoopPrefix(n, last);
    IdsForPrefix(n.acks, last, p);
    RetiredSplit(n.acks, m.acks, last, p);
    var r := RetiredFor(n, p, ack);
    var gone := IdsFor(n.acks[..last], p);
    assert IdsFor(m.acks[last..], p) == IdsFor(m.acks, p)[r..];
  }

  lemma RetiredSplit(before: seq<PendingAck>, after: seq<PendingAck>, last: nat, p: Path)
    requires last <= |before| && before <= after
    ensures IdsFor(after, p) == IdsFor(before[..last], p) + IdsFor(after[last..], p)
  {
    assert after[..last] == before[..last];
    assert after == after[..last] + after[last..];
    IdsForAppend(after[..last], after[last..], p);
  }

  // Whether the ack leaves the window of p full.
  ghost predicate AckFills(n: Node, p: Path, ack: nat)
    requires p in n.subs
  {
    var r := RetiredFor(n, p, ack);
    if r == 0 then Pumped(n, p) else r == 1 || n.subs[p].inFlight == |n.subs[p].queue|
  }

  /** An ack keeps the ring of p aligned exactly when it retires at most one entry of p, or
      more but with no unsent slot within reach of the counter. It leaves the window full,
      whatever it was before, exactly when it retires one entry, or more while all of the
      ring was in flight, or none while the window was full. */
  lemma AcknowledgeOrder(n: Node, p: Path, ack: nat)
    requires Inv(n) && Sorted(n) && AlignedAt(n, p)
    ensures p in n.subs
    ensures AlignedAt(Acknowledge(n, ack), p) <==>
            RetiredFor(n, p, ack) <= 1 || |n.subs[p].queue| - RetiredFor(n, p, ack) < n.subs[p].inFlight
    ensures Pumped(Acknowledge(n, ack), p) <==> AckFills(n, p, ack)
  {
    hide AckLoop, IdsFor, Lossless, Retired, Indexed, Lead, Trail;
    AlignedTrails(n.subs[p], IdsFor(n.acks, p), n.cfg.ring);
    var total, k := AcknowledgeSub(n, p, ack);
    var r := RetiredFor(n, p, ack);
    assert BalancedSub(n, p, [], IdsFor(n.acks, p));
    var _ := AckLoopGrown(n, Retired(n, ack));
    if r > 0 {
      AckedAligned(n.subs[p], IdsFor(n.acks, p), r, total, k, n.cfg.window);
      AckedPumped(n.subs[p], IdsFor(n.acks, p), r, total, k, n.cfg.window);
    } else {
      assert IdsFor(n.acks, p)[0..] + FreshIds(total, 0) == IdsFor(n.acks, p);
    }
  }
}
