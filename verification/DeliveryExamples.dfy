/** Runs from a requester that has never been connected which show why the properties have
    the conditions they have, for every window and ring that leave room for them. */
module DeliveryExamples {
  import opened Common
  import opened Ring
  import opened Vec
  import opened Delivery
  import opened DeliveryInvariants
  import opened DeliveryOrder
  import opened DeliveryRuns
  import opened DeliveryInOrder
  import opened DeliveryFree
  import opened DeliveryWindow

  const P: Path := "/p"

  // One more event of a run.
  lemma Extend(run: seq<Node>, es: seq<Event>, e: Event) returns (run': seq<Node>)
    requires IsRun(run, es) && Enabled(run[|es|], e)
    ensures IsRun(run', es + [e]) && run'[0] == run[0] && run'[|es + [e]|] == Step(run[|es|], e)
  {
    hide Step, Enabled;
    run' := run + [Step(run[|es|], e)];
  }

  function Offers(vals: seq<Message>): (r: seq<Event>)
    ensures |r| == |vals|
  {
    if vals == [] then [] else Offers(vals[..|vals| - 1]) + [OfferEvent(P, vals[|vals| - 1])]
  }

  // The ring of a subscription whose first k values were sent as the first k of the link.
  function Slots(vals: seq<Message>, k: nat): (r: seq<Slot>)
    ensures |r| == |vals|
    ensures forall i | 0 <= i < |vals| :: r[i] == Slot(vals[i], if i < k then NextId(i) else 0)
  {
    seq(|vals|, i requires 0 <= i < |vals| => Slot(vals[i], if i < k then NextId(i) else 0))
  }

  // Connected and subscribed under sid 1 at QoS 0, with `vals` offered since.
  function Loaded(cfg: Config, vals: seq<Message>): Node {
    var k := Min(cfg.window, |vals|);
    Node(cfg, true, k, k > 0, FreshAcks(P, 0, k), map[P := Sub(1, 0, Slots(vals, k), k, vals, vals[..k], Positions(0, k))], map[1 := P])
  }

  lemma FreshAcksNext(total: nat, k: nat)
    ensures FreshAcks(P, total, k + 1) == FreshAcks(P, total, k) + [PendingAck(P, NextId(total + k))]
  {
  }

  lemma PositionsNext(k: nat)
    ensures Positions(0, k + 1) == Positions(0, k) + [k]
  {
  }

  lemma SlotsNext(vals: seq<Message>, k: nat, msg: Message)
    requires k <= |vals|
    ensures Slots(vals + [msg], k) == Slots(vals, k) + [Slot(msg, 0)]
    ensures k == |vals| ==> Slots(vals + [msg], k + 1) == Slots(vals, k) + [Slot(msg, NextId(k))]
  {
  }

  lemma PumpOnce(n: Node, p: Path)
    requires CanSend(n, p) && !CanSend(SendOne(n, p), p)
    ensures Pump(n, p) == SendOne(n, p)
  {
    PumpStops(SendOne(n, p), p);
  }

  lemma LoadedOffer(cfg: Config, vals: seq<Message>, msg: Message)
    requires |vals| < cfg.ring
    ensures Offer(Loaded(cfg, vals), P, msg) == Loaded(cfg, vals + [msg])
  {
    hide NextId, Slots, FreshAcks, Pump;
    var n, k := Loaded(cfg, vals), Min(cfg.window, |vals|);
    var m := Enqueue(n, P, msg);
    SlotsNext(vals, k, msg);
    assert (vals + [msg])[..k] == vals[..k];
    assert m.subs == map[P := Sub(1, 0, Slots(vals + [msg], k), k, vals + [msg], vals[..k], Positions(0, k))];
    if |vals| < cfg.window {
      LoadedSends(cfg, vals, msg);
      PumpOnce(m, P);
    } else {
      PumpStops(m, P);
    }
  }

  lemma UpdateLast<T>(s: seq<T>, x: T, y: T)
    ensures (s + [x])[|s| := y] == s + [y]
  {
  }

  lemma LoadedSends(cfg: Config, vals: seq<Message>, msg: Message)
    requires |vals| < cfg.ring && |vals| < cfg.window
    ensures var m := Enqueue(Loaded(cfg, vals), P, msg);
            CanSend(m, P) && SendOne(m, P) == Loaded(cfg, vals + [msg])
  {
    hide NextId, Slots, FreshAcks, Positions;
    var n, k := Loaded(cfg, vals), |vals|;
    var m := Enqueue(n, P, msg);
    SlotsNext(vals, k, msg);
    FreshAcksNext(0, k);
    PositionsNext(k);
    assert m.subs[P].queue == Slots(vals, k) + [Slot(msg, 0)];
    UpdateLast(Slots(vals, k), Slot(msg, 0), Slot(msg, NextId(k)));
    assert (vals + [msg])[..k + 1] == vals[..k] + [msg];
    assert SendOne(m, P).subs == Loaded(cfg, vals + [msg]).subs;
  }

  // The run that loads the ring.
  function Loading(vals: seq<Message>): seq<Event> {
    [ConnectEvent, SubscribeEvent(P, 1, 0, None)] + Offers(vals)
  }

  lemma {:induction false} LoadingRun(cfg: Config, vals: seq<Message>) returns (run: seq<Node>)
    requires |vals| <= cfg.ring
    ensures IsRun(run, Loading(vals)) && run[0] == Initial(cfg) && run[|Loading(vals)|] == Loaded(cfg, vals)
  {
    hide Offer, Connect, Subscribe;
    if vals == [] {
      run := [Initial(cfg)];
      run := Extend(run, [], ConnectEvent);
      assert [] + [ConnectEvent] == [ConnectEvent];
      StartConnected(cfg);
      run := Extend(run, [ConnectEvent], SubscribeEvent(P, 1, 0, None));
      assert Loading([]) == [ConnectEvent] + [SubscribeEvent(P, 1, 0, None)];
    } else {
      var front, msg := vals[..|vals| - 1], vals[|vals| - 1];
      run := LoadingRun(cfg, front);
      LoadedOffer(cfg, front, msg);
      run := Extend(run, Loading(front), OfferEvent(P, msg));
      assert front + [msg] == vals;
      assert Loading(vals) == Loading(front) + [OfferEvent(P, msg)];
    }
  }

  lemma StartConnected(cfg: Config)
    ensures var n := Connect(Initial(cfg));
            n.online && Subscribe(n, P, 1, 0, None) == Loaded(cfg, [])
  {
    var m := Subscribe(Connect(Initial(cfg)), P, 1, 0, None);
    assert m.subs == Loaded(cfg, []).subs;
    assert m.sids == Loaded(cfg, []).sids;
    assert m.acks == Loaded(cfg, []).acks;
  }

  // ---------- a cumulative ack ----------

  lemma LoadedAligned(cfg: Config, vals: seq<Message>)
    requires cfg.window < ID_PERIOD
    ensures Sorted(Loaded(cfg, vals)) && AlignedAt(Loaded(cfg, vals), P)
    ensures IdsFor(Loaded(cfg, vals).acks, P) == FreshIds(0, Min(cfg.window, |vals|))
  {
    IdsForFresh(P, 0, Min(cfg.window, |vals|), P);
  }

  lemma LoadedInv(cfg: Config, vals: seq<Message>)
    requires |vals| <= cfg.ring && 0 < cfg.ring
    ensures Inv(Loaded(cfg, vals))
  {
    hide Inv, Loaded, IsRun;
    var run := LoadingRun(cfg, vals);
    LoadingSids(vals);
    RunKeeps(run, Loading(vals), cfg);
  }

  lemma {:induction false} LoadingSids(vals: seq<Message>)
    ensures forall e | e in Loading(vals) :: e.SubscribeEvent? ==> e.sid != NO_SID
  {
    if vals != [] {
      LoadingSids(vals[..|vals| - 1]);
      assert Loading(vals) == Loading(vals[..|vals| - 1]) + [OfferEvent(P, vals[|vals| - 1])];
    }
  }

  lemma FreshAcksTake(k: nat, r: nat)
    requires r <= k
    ensures FreshAcks(P, 0, k)[..r] == FreshAcks(P, 0, r)
  {
  }

  // The ack of id r retires the first r entries.
  lemma LoadedRetires(n: Node, k: nat, r: nat)
    requires n.acks == FreshAcks(P, 0, k) && Sorted(n) && r <= k < ID_PERIOD
    ensures Retired(n, r) == r && RetiredFor(n, P, r) == r
  {
    hide Retired, Above, Sorted, IdsFor;
    RetiredExact(n, r);
    var d := Retired(n, r);
    assert d < |n.acks| ==> n.acks[d].id == d + 1;
    assert d > 0 ==> n.acks[d - 1].id == d;
    FreshAcksTake(k, r);
    IdsForFresh(P, 0, r, P);
  }

  /** A cumulative ack overtakes: of a full window and at least two values behind it, the ack
      of the first two entries sends the second of these values, and the first stays behind
      it in the ring, unsent. */
  lemma CumulativeAckSkips(cfg: Config, vals: seq<Message>) returns (run: seq<Node>)
    requires 2 <= cfg.window < ID_PERIOD && cfg.window + 2 <= |vals| <= cfg.ring
    ensures IsRun(run, Loading(vals) + [AckEvent(2)]) && run[0] == Initial(cfg)
    ensures Overtaken(run[|Loading(vals) + [AckEvent(2)]|], vals)
  {
    hide IsRun, Loaded, Acknowledge;
    run := LoadingRun(cfg, vals);
    assert Enabled(Loaded(cfg, vals), AckEvent(2)) by { LoadedOnline(cfg, vals); }
    run := Extend(run, Loading(vals), AckEvent(2));
    LoadedAck(cfg, vals);
  }

  /** The value at the window's size is unsent, and the one behind it in the ring is sent: the
      positions sent are no longer contiguous. */
  ghost predicate Overtaken(n: Node, vals: seq<Message>) {
    var w := n.cfg.window;
    && P in n.subs && 2 <= w && |n.subs[P].queue| >= w && w + 1 < |vals|
    && n.subs[P].sent == vals[..w] + [vals[w + 1]] && n.subs[P].at == Positions(0, w) + [w + 1]
    && n.subs[P].queue[w - 2] == Slot(vals[w], 0)
    && n.subs[P].queue[w - 1].msg == vals[w + 1] && n.subs[P].queue[w - 1].id > 0
  }

  lemma LoadedOnline(cfg: Config, vals: seq<Message>)
    ensures Loaded(cfg, vals).online && Loaded(cfg, vals).cfg == cfg
  {
  }

  lemma LoadedAck(cfg: Config, vals: seq<Message>)
    requires 2 <= cfg.window < ID_PERIOD && cfg.window + 2 <= |vals| <= cfg.ring
    ensures Overtaken(Acknowledge(Loaded(cfg, vals), 2), vals)
  {
    hide Inv, Sorted, Aligned, Retired, RetiredFor, AckLoop, FreshAcks, FreshIds, IdsFor, Slots, AckedSub, AckRoom, Lead, Trail, Positions;
    var n, w := Loaded(cfg, vals), cfg.window;
    LoadedInv(cfg, vals);
    LoadedAligned(cfg, vals);
    LoadedRetires(n, w, 2);
    AlignedTrails(n.subs[P], IdsFor(n.acks, P), cfg.ring);
    var total, k := AcknowledgeSub(n, P, 2);
    AckedLoaded(n.subs[P], vals, w, total, k);
    var _ := AckLoopGrown(n, Retired(n, 2));
  }

  lemma AckedLoaded(s: Sub, vals: seq<Message>, w: nat, total: nat, k: nat)
    requires 2 <= w < ID_PERIOD && w + 2 <= |vals|
    requires s.queue == Slots(vals, w) && s.inFlight == w == Lead(s.queue) && s.offered == vals
    requires s.sent == vals[..w] && s.at == Positions(0, w)
    requires k == AckRoom(s, 2, w)
    ensures var t := AckedSub(s, 2, total, k);
            && |t.queue| == |vals| - 2
            && t.sent == vals[..w] + [vals[w + 1]] && t.at == Positions(0, w) + [w + 1]
            && t.queue[w - 2] == Slot(vals[w], 0) && t.queue[w - 1] == Slot(vals[w + 1], NextId(total))
  {
    hide NextId, Lead;
    assert k == 1;
    assert Positions(w + 1, 1) == [w + 1];
  }

  // ---------- an eviction while values are in flight ----------

  // Loaded with a full ring, and a further value offered: all values but the first are there.
  function Evicted(cfg: Config, all: seq<Message>): Node
    requires 2 <= cfg.window <= cfg.ring && |all| == cfg.ring + 1
  {
    var w := cfg.window;
    Node(cfg, true, w, true, FreshAcks(P, 0, w), map[P := Sub(1, 0, Slots(all, w)[1..], w, all, all[..w], Positions(0, w))], map[1 := P])
  }

  // The first entry acked: its slot is gone, so that nothing but the counter changes.
  function EvictedAcked(cfg: Config, all: seq<Message>): Node
    requires 2 <= cfg.window <= cfg.ring && |all| == cfg.ring + 1
  {
    var n, w := Evicted(cfg, all), cfg.window;
    n.(acks := FreshAcks(P, 0, w)[1..], subs := map[P := n.subs[P].(inFlight := w - 1)])
  }

  lemma LoadedEvicts(cfg: Config, vals: seq<Message>, msg: Message)
    requires 2 <= cfg.window <= cfg.ring && |vals| == cfg.ring
    ensures Offer(Loaded(cfg, vals), P, msg) == Evicted(cfg, vals + [msg])
  {
    hide NextId, Pump, FreshAcks;
    var n, w := Loaded(cfg, vals), cfg.window;
    var m := Enqueue(n, P, msg);
    assert AfterPush(Slots(vals, w), cfg.ring, Slot(msg, 0)) == Slots(vals + [msg], w)[1..];
    assert (vals + [msg])[..w] == vals[..w];
    assert m.subs == Evicted(cfg, vals + [msg]).subs;
    PumpStops(m, P);
  }

  lemma EvictedSettles(cfg: Config, all: seq<Message>)
    requires 2 <= cfg.window < ID_PERIOD && cfg.window <= cfg.ring && |all| == cfg.ring + 1
    ensures AckOne(Evicted(cfg, all), 0) == EvictedAcked(cfg, all).(acks := FreshAcks(P, 0, cfg.window))
  {
    hide Pump;
    var n := Evicted(cfg, all);
    var q := n.subs[P].queue;
    assert AckedCount(q, 1) == 0 && q[0..] == q;
    assert Settle(n, P, 1).subs == EvictedAcked(cfg, all).subs;
  }

  lemma AckLoopOnce(n: Node)
    requires n.acks != []
    ensures AckLoop(n, 1) == AckOne(n, 0)
  {
    assert AckLoop(AckOne(n, 0), 0) == AckOne(n, 0);
  }

  lemma EvictedAck(cfg: Config, all: seq<Message>)
    requires 2 <= cfg.window < ID_PERIOD && cfg.window <= cfg.ring && |all| == cfg.ring + 1
    ensures Acknowledge(Evicted(cfg, all), 1) == EvictedAcked(cfg, all)
  {
    hide AckOne, AckLoop, Retired, Slots;
    var n := Evicted(cfg, all);
    assert Sorted(n);
    LoadedRetires(n, cfg.window, 1);
    EvictedSettles(cfg, all);
    AckLoopOnce(n);
  }

  lemma EvictedOvertakes(cfg: Config, all: seq<Message>, msg: Message)
    requires 2 <= cfg.window < ID_PERIOD && cfg.window <= cfg.ring && |all| == cfg.ring + 1
    ensures Overtaken(Offer(EvictedAcked(cfg, all), P, msg), all + [msg])
  {
    hide Pump, FreshAcks, NextId;
    var n, w := EvictedAcked(cfg, all), cfg.window;
    var m := Enqueue(n, P, msg);
    assert m.subs[P].queue == Slots(all + [msg], w)[2..];
    assert CanSend(m, P);
    PumpOnce(m, P);
  }

  /** An eviction overtakes: of a full ring whose window is in flight, a value more evicts the
      oldest slot while the counter stays. After the ack of that slot's entry, the next value
      offered sends the one behind the first that was waiting. */
  lemma EvictionSkips(cfg: Config, all: seq<Message>) returns (run: seq<Node>, es: seq<Event>)
    requires 2 <= cfg.window < ID_PERIOD && cfg.window <= cfg.ring && |all| == cfg.ring + 2
    ensures es == Loading(all[..cfg.ring]) + [OfferEvent(P, all[cfg.ring])] + [AckEvent(1)] + [OfferEvent(P, all[cfg.ring + 1])]
    ensures IsRun(run, es) && run[0] == Initial(cfg) && Overtaken(run[|es|], all)
  {
    hide IsRun, Acknowledge, Offer, Overtaken, FreshAcks, Slots;
    var q := cfg.ring;
    es := Loading(all[..q]);
    run := LoadingRun(cfg, all[..q]);
    run := Extend(run, es, OfferEvent(P, all[q]));
    es := es + [OfferEvent(P, all[q])];
    LoadedEvicts(cfg, all[..q], all[q]);
    assert all[..q] + [all[q]] == all[..q + 1] && all[..q + 1] + [all[q + 1]] == all;
    run := Extend(run, es, AckEvent(1));
    es := es + [AckEvent(1)];
    EvictedAck(cfg, all[..q + 1]);
    run := Extend(run, es, OfferEvent(P, all[q + 1]));
    EvictedOvertakes(cfg, all[..q + 1], all[q + 1]);
    es := es + [OfferEvent(P, all[q + 1])];
  }

  // ---------- a value that nothing sends ----------

  // The requester came back below QoS 2 to a path that had got a value while it was away.
  function Stranded(cfg: Config, msg: Message): Node {
    Node(cfg, true, 0, false, [], map[P := Sub(1, 0, [Slot(msg, 0)], 0, [msg], [], [])], map[1 := P])
  }

  function StrandingRun(cfg: Config, msg: Message): (run: seq<Node>)
    ensures |run| == 7
  {
    var sub := Sub(1, 2, [], 0, [], [], []);
    var away := sub.(sid := NO_SID);
    var kept := away.(queue := [Slot(msg, 0)], offered := [msg]);
    [Initial(cfg), Node(cfg, true, 0, false, [], map[], map[]),
     Node(cfg, true, 0, false, [], map[P := sub], map[1 := P]),
     Node(cfg, false, 0, false, [], map[P := away], map[]),
     Node(cfg, false, 0, false, [], map[P := kept], map[]),
     Node(cfg, true, 0, false, [], map[P := kept], map[]),
     Stranded(cfg, msg)]
  }

  function Stranding(msg: Message): (es: seq<Event>)
    ensures |es| == 6
  {
    [ConnectEvent, SubscribeEvent(P, 1, 2, None), DisconnectEvent, OfferEvent(P, msg), ConnectEvent, SubscribeEvent(P, 1, 0, None)]
  }

  lemma StrandingStarts(cfg: Config, msg: Message)
    ensures var run, es := StrandingRun(cfg, msg), Stranding(msg);
            forall i | 0 <= i < 3 :: Enabled(run[i], es[i]) && run[i + 1] == Step(run[i], es[i])
  {
    hide Pump;
    var run, es := StrandingRun(cfg, msg), Stranding(msg);
    assert run[1].subs[P := NewSub(1, 2)] == run[2].subs;
    assert Step(run[2], DisconnectEvent).subs == run[3].subs;
  }

  lemma StrandingGoesOn(cfg: Config, msg: Message)
    requires cfg.ring > 0
    ensures var run, es := StrandingRun(cfg, msg), Stranding(msg);
            forall i | 3 <= i < 6 :: Enabled(run[i], es[i]) && run[i + 1] == Step(run[i], es[i])
  {
    hide Pump;
    var run, es := StrandingRun(cfg, msg), Stranding(msg);
    assert AfterPush([], cfg.ring, Slot(msg, 0)) == [Slot(msg, 0)] && [] + [msg] == [msg];
    assert Enqueue(run[3], P, msg).subs == run[4].subs;
    PumpStops(run[4], P);
    assert Step(run[5], es[5]).subs == run[6].subs;
  }

  /** The run that leads out of the safe states, whatever the window and the ring. What it
      leaves is a value in the ring, an empty window, and no list of pending acks. Then
      subscribing the same path and sid at QoS 2 sends nothing, and unsubscribing reads the
      list that does not exist. */
  lemma StrandedValue(cfg: Config, msg: Message)
    requires cfg.ring > 0 && cfg.window > 0
    ensures var run, es := StrandingRun(cfg, msg), Stranding(msg);
            && IsRun(run, es) && run[0] == Initial(cfg)
            && run[6] == Stranded(cfg, msg) && Strands(run[5], es[5])
            && (forall i | 0 <= i < |es| :: Clean(run[i], es[i]))
    ensures var n, e := Stranded(cfg, msg), SubscribeEvent(P, 1, 2, None);
            Enabled(n, e) && Step(n, e) == n.(subs := map[P := n.subs[P].(qos := 2)]) && !Pumped(Step(n, e), P)
    ensures Enabled(Stranded(cfg, msg), UnsubscribeEvent(1)) && !Defined(Stranded(cfg, msg), UnsubscribeEvent(1))
  {
    StrandingStarts(cfg, msg);
    StrandingGoesOn(cfg, msg);
    var n := Stranded(cfg, msg);
    assert n.subs[P := n.subs[P].(qos := 2)] == map[P := n.subs[P].(qos := 2)];
  }
}
