/** Which events leave the window of a subscription full. */
module DeliveryWindow {
  import opened Common
  import opened Ring
  import opened Delivery
  import opened DeliveryInvariants
  import opened DeliveryOrder
  import opened DeliveryRuns
  import opened DeliveryInOrder

  // As many slots are in flight as fit, whether or not the subscription is live.
  predicate Full(n: Node, p: Path)
    requires p in n.subs
  {
    n.subs[p].inFlight == Min(n.cfg.window, |n.subs[p].queue|)
  }

  /** Whether the window of p is full after a clean event: told from the state before it. */
  ghost predicate Fills(n: Node, e: Event, p: Path) {
    match e
    case OfferEvent(path, _) => path == p || Pumped(n, p)
    case AckEvent(ack) => p in n.subs && AckFills(n, p, ack)
    case SubscribeEvent(path, sid, qos, last) =>
      if path != p then Pumped(n, p)
      else if SameSub(n, p, sid) then Full(n, p)
      else p !in n.subs || qos == 2 || last.Some? || Full(n, p)
    case UnsubscribeEvent(_) => Pumped(n, p)
    case OtherTrafficEvent => Pumped(n, p)
    case DisconnectEvent => true
    case ConnectEvent => true
  }

  lemma RenewFills(n: Node, p: Path, sid: Sid, qos: Qos, last: Option<Message>)
    requires Inv(n) && n.online && p in n.subs && sid !in n.sids && sid != NO_SID && AllAligned(n)
    requires qos < 2 && last.Some? ==> !EvictsInFlight(n, p)
    ensures Pumped(Renew(n, p, sid, qos, last), p) <==> qos == 2 || last.Some? || Full(n, p)
  {
    hide Pump, Aligned, Indexed, IdsFor, Msgs, Logged;
    var s := n.subs[p].(sid := sid, qos := qos);
    var m := Put(n, p, s);
    assert SubInv(n, p) && BalancedSub(n, p, [], IdsFor(n.acks, p));
    PutKeeps(n, p, s);
    PutAligned(n, p, s);
    assert AlignedAt(m, p);
    if qos == 2 {
      PumpAligned(m, p);
    } else if last.Some? {
      OfferExact(m, p, last.value);
    }
  }

  lemma AddFills(n: Node, p: Path, sid: Sid, qos: Qos, last: Option<Message>)
    requires Inv(n) && n.online && p !in n.subs && sid !in n.sids && sid != NO_SID && AllAligned(n)
    ensures Pumped(Add(n, p, sid, qos, last), p)
  {
    hide Pump, Aligned, Indexed, IdsFor, Msgs, Logged;
    var s := NewSub(sid, qos);
    var m := Put(n, p, s);
    PutKeeps(n, p, s);
    PutAligned(n, p, s);
    assert AlignedAt(m, p);
    if last.Some? {
      OfferExact(m, p, last.value);
    }
  }

  /** Subscribing at QoS 2 fills the window, except when path and sid are subscribed already:
      then only the QoS is written, and the window stays as it was. */
  lemma SubscribeFills(n: Node, p: Path, sid: Sid, qos: Qos, last: Option<Message>)
    requires Inv(n) && n.online && sid != NO_SID && AllAligned(n)
    requires OffersAgain(n, p, sid, qos, last) ==> !EvictsInFlight(n, p)
    ensures Pumped(Subscribe(n, p, sid, qos, last), p) <==> Fills(n, SubscribeEvent(p, sid, qos, last), p)
  {
    hide Pump, AlignedAt, Conserved, SubInv, Renew, Add, Others, Pumped;
    if SameSub(n, p, sid) {
      SameSubFills(n, p, sid, qos);
    } else {
      var m := if sid in n.sids then Free(n, n.sids[sid]) else n;
      if sid in n.sids {
        FreeAligned(n, n.sids[sid]);
        FreeKeeps(n, n.sids[sid]);
        FreeSids(n, sid);
      }
      if p in m.subs {
        RenewFills(m, p, sid, qos, last);
      } else {
        AddFills(m, p, sid, qos, last);
      }
    }
  }

  lemma SameSubFills(n: Node, p: Path, sid: Sid, qos: Qos)
    requires Inv(n) && n.online && SameSub(n, p, sid)
    ensures Pumped(n.(subs := n.subs[p := n.subs[p].(qos := qos)]), p) <==> Full(n, p)
  {
    hide Conserved, SubInv;
  }

  lemma SameWindow(n: Node, m: Node, p: Path)
    requires m.cfg == n.cfg && m.online == n.online && p in n.subs && p in m.subs && m.subs[p] == n.subs[p]
    ensures Pumped(m, p) <==> Pumped(n, p)
  {
  }

  /** Every clean event, and whether it leaves the window full. */
  lemma StepFills(n: Node, e: Event, p: Path)
    requires Inv(n) && Sorted(n) && AllAligned(n) && Enabled(n, e) && Clean(n, e)
    requires e.SubscribeEvent? ==> e.sid != NO_SID
    requires p in Step(n, e).subs
    ensures Pumped(Step(n, e), p) <==> Fills(n, e, p)
  {
    hide Offer, Acknowledge, Subscribe, AlignedAt, Conserved, SubInv, Sorted, RetiredFor, Others, AckFills, Pumped;
    match e
    case OfferEvent(path, msg) =>
      assert AlignedAt(n, path);
      OfferExact(n, path, msg);
      OfferOnlyAt(n, n, path, msg);
      if path != p {
        SameWindow(n, Step(n, e), p);
      }
    case AckEvent(ack) =>
      AcknowledgeSubs(n, ack);
      assert AlignedAt(n, p);
      AcknowledgeOrder(n, p, ack);
    case SubscribeEvent(path, sid, qos, last) =>
      if path == p {
        SubscribeFills(n, p, sid, qos, last);
      } else {
        SubscribeElsewhere(n, path, sid, qos, last, p);
        SameWindow(n, Step(n, e), p);
      }
    case UnsubscribeEvent(sid) => SameWindow(n, Step(n, e), p);
    case OtherTrafficEvent => SameWindow(n, Step(n, e), p);
    case _ => NobodyLive(Step(n, e), p) by { StepKeeps(n, e); }
  }

  lemma AcknowledgeSubs(n: Node, ack: nat)
    ensures Acknowledge(n, ack).subs.Keys == n.subs.Keys
  {
    hide AckLoop, Retired;
    var _ := AckLoopGrown(n, Retired(n, ack));
  }

  lemma AckSubs(n: Node, e: Event)
    requires Enabled(n, e) && e.AckEvent?
    ensures Step(n, e).subs.Keys == n.subs.Keys
  {
    AcknowledgeSubs(n, e.ack);
  }

  lemma NobodyLive(n: Node, p: Path)
    requires n.sids == map[] && Indexed(n)
    ensures Pumped(n, p)
  {
  }

  /** After every run of clean events: the window of p is full exactly when the last event
      fills it. In particular it is full after a value for p, after an ack of one of its
      entries, and after a subscription of it at QoS 2, unless that one only repeats path
      and sid of a subscription whose window was not full. */
  lemma RunFills(run: seq<Node>, es: seq<Event>, cfg: Config, p: Path)
    requires IsRun(run, es) && run[0] == Initial(cfg) && cfg.ring > 0 && cfg.window > 0 && es != []
    requires forall i | 0 <= i < |es| :: Clean(run[i], es[i])
    requires forall n | n in run :: n.total <= ID_PERIOD
    requires forall e | e in es :: e.SubscribeEvent? ==> e.sid != NO_SID
    requires p in run[|es|].subs
    ensures Pumped(run[|es|], p) <==> Fills(run[|es| - 1], es[|es| - 1], p)
    ensures var n, e := run[|es| - 1], es[|es| - 1];
            && (e.OfferEvent? && e.path == p ==> Pumped(run[|es|], p))
            && (e.AckEvent? && RetiredFor(n, p, e.ack) == 1 ==> Pumped(run[|es|], p))
            && (e.SubscribeEvent? && e.path == p && e.qos == 2 ==>
                  (Pumped(run[|es|], p) <==> !SameSub(n, p, e.sid) || Full(n, p)))
  {
    hide Step, Clean, AllAligned, Inv, Sorted, Pumped;
    var k := |es| - 1;
    assert IsRun(run[..k + 1], es[..k]);
    RunAligned(run[..k + 1], es[..k], cfg);
    assert run[k + 1] == Step(run[k], es[k]);
    StepFills(run[k], es[k], p);
    if es[k].AckEvent? {
      AckSubs(run[k], es[k]);
    }
  }

  // ---------- when no ack can overtake ----------

  // At most one value waits behind the values in flight.
  ghost predicate NarrowAt(n: Node, p: Path)
    requires p in n.subs
  {
    n.subs[p].inFlight == 0 || |n.subs[p].queue| <= n.subs[p].inFlight + 1
  }

  ghost predicate Narrow(n: Node) {
    forall p | p in n.subs :: NarrowAt(n, p)
  }

  lemma PumpedIsNarrow(n: Node, p: Path)
    requires Inv(n) && p in n.subs && Pumped(n, p) && n.cfg.ring <= n.cfg.window + 1
    ensures NarrowAt(n, p)
  {
    hide Msgs, Logged, IdsFor;
    assert SubInv(n, p) && BalancedSub(n, p, [], IdsFor(n.acks, p));
  }

  lemma AckNarrow(n: Node, ack: nat, p: Path)
    requires Inv(n) && Sorted(n) && AlignedAt(n, p) && NarrowAt(n, p)
    ensures p in Acknowledge(n, ack).subs && NarrowAt(Acknowledge(n, ack), p)
    ensures RetiredFor(n, p, ack) <= 1 || |n.subs[p].queue| - RetiredFor(n, p, ack) < n.subs[p].inFlight
  {
    hide AckLoop, RetiredFor, Sorted, Inv, IdsFor, Lead, Trail;
    AlignedTrails(n.subs[p], IdsFor(n.acks, p), n.cfg.ring);
    var total, k := AcknowledgeSub(n, p, ack);
    var _ := AckLoopGrown(n, Retired(n, ack));
    AckedRing(n.subs[p], IdsFor(n.acks, p), RetiredFor(n, p, ack), total, k, n.cfg.window);
  }

  // How many slots and how large a counter an ack leaves of an aligned ring.
  lemma AckedRing(s: Sub, ids: seq<nat>, r: nat, total: nat, k: nat, window: nat)
    requires Aligned(s, ids) && r <= |ids| && Lead(s.queue) == s.inFlight && k == AckRoom(s, r, window)
    ensures var t := AckedSub(s, r, total, k); |t.queue| == |s.queue| - r && t.inFlight == s.inFlight - r + k
    ensures r == 0 ==> AckedSub(s, r, total, k) == s
    ensures r == 1 ==> |s.queue| - 1 <= s.inFlight - 1 + k || s.inFlight - 1 + k >= window
  {
    hide Lead;
  }

  // What an event that does not fill the window leaves of the ring.
  lemma Unfilled(n: Node, e: Event, p: Path)
    requires Inv(n) && Enabled(n, e) && p in Step(n, e).subs && !e.AckEvent? && !Fills(n, e, p)
    requires e.OfferEvent? ==> e.path != p
    ensures p in n.subs && Step(n, e).subs[p].queue == n.subs[p].queue && Step(n, e).subs[p].inFlight == n.subs[p].inFlight
    ensures Step(n, e).subs[p].at == n.subs[p].at
  {
    hide Offer, Conserved, SubInv, Others, Pumped, Acknowledge;
    match e
    case OfferEvent(path, msg) => OfferOnlyAt(n, n, path, msg);
    case SubscribeEvent(path, sid, qos, last) =>
      if path != p {
        hide Subscribe;
        SubscribeElsewhere(n, path, sid, qos, last, p);
      }
    case _ =>
  }

  lemma StepNarrowAt(n: Node, e: Event, p: Path)
    requires Inv(n) && Sorted(n) && AllAligned(n) && Narrow(n) && Enabled(n, e) && Clean(n, e)
    requires n.cfg.ring <= n.cfg.window + 1 && (e.SubscribeEvent? ==> e.sid != NO_SID)
    requires p in Step(n, e).subs
    ensures NarrowAt(Step(n, e), p)
  {
    hide Offer, Acknowledge, Subscribe, Unsubscribe, Disconnect, AlignedAt, Conserved, Indexed, SubInv, Sorted, RetiredFor, Fills, Pumped;
    StepKeeps(n, e);
    StepConfig(n, e);
    if e.AckEvent? {
      AcknowledgeSubs(n, e.ack);
      assert AlignedAt(n, p) && NarrowAt(n, p);
      AckNarrow(n, e.ack, p);
    } else {
      StepFills(n, e, p);
      if Pumped(Step(n, e), p) {
        PumpedIsNarrow(Step(n, e), p);
      } else {
        NotFilledElsewhere(n, e, p);
        Unfilled(n, e, p);
        assert NarrowAt(n, p);
      }
    }
  }

  lemma NotFilledElsewhere(n: Node, e: Event, p: Path)
    requires !Fills(n, e, p)
    ensures e.OfferEvent? ==> e.path != p
  {
  }

  /** With a ring of at most one slot more than the window no ack overtakes, however many
      entries it retires: in every run whose other events are clean every ack is. With two
      slots more it can, see CumulativeAckSkips. */
  lemma {:induction false} RunNarrow(run: seq<Node>, es: seq<Event>, cfg: Config)
    requires IsRun(run, es) && run[0] == Initial(cfg) && 0 < cfg.window && 0 < cfg.ring <= cfg.window + 1
    requires forall i | 0 <= i < |es| && !es[i].AckEvent? :: Clean(run[i], es[i])
    requires forall n | n in run :: n.total <= ID_PERIOD
    requires forall e | e in es :: e.SubscribeEvent? ==> e.sid != NO_SID
    ensures run[|es|].cfg == cfg && Narrow(run[|es|]) && AllAligned(run[|es|]) && Sorted(run[|es|])
    ensures forall i | 0 <= i < |es| :: Clean(run[i], es[i])
    ensures forall ack :: Clean(run[|es|], AckEvent(ack))
  {
    hide Step, Clean, AllAligned, Inv, Sorted, Narrow;
    RunKeeps(run, es, cfg);
    if es != [] {
      var k := |es| - 1;
      assert IsRun(run[..k + 1], es[..k]);
      RunNarrow(run[..k + 1], es[..k], cfg);
      RunKeeps(run[..k + 1], es[..k], cfg);
      assert run[k + 1] == Step(run[k], es[k]);
      assert Clean(run[k], es[k]);
      StepConfig(run[k], es[k]);
      StepSorted(run[k], es[k]);
      StepAligned(run[k], es[k]);
      StepNarrow(run[k], es[k]);
    } else {
      assert Narrow(run[0]) && AllAligned(run[0]) && Sorted(run[0]) by { StartsNarrow(cfg); }
    }
    forall ack ensures Clean(run[|es|], AckEvent(ack)) {
      AcksClean(run[|es|], ack);
    }
  }

  lemma StepNarrow(n: Node, e: Event)
    requires Inv(n) && Sorted(n) && AllAligned(n) && Narrow(n) && Enabled(n, e) && Clean(n, e)
    requires n.cfg.ring <= n.cfg.window + 1 && (e.SubscribeEvent? ==> e.sid != NO_SID)
    ensures Narrow(Step(n, e))
  {
    hide Step, Clean, NarrowAt, AllAligned, Sorted, Inv;
    forall p | p in Step(n, e).subs ensures NarrowAt(Step(n, e), p) {
      StepNarrowAt(n, e, p);
    }
  }

  lemma AcksClean(n: Node, ack: nat)
    requires Inv(n) && Sorted(n) && AllAligned(n) && Narrow(n)
    ensures Clean(n, AckEvent(ack))
  {
    hide Inv, Sorted, AlignedAt, NarrowAt, RetiredFor;
    forall p | p in n.subs
      ensures RetiredFor(n, p, ack) <= 1 || |n.subs[p].queue| - RetiredFor(n, p, ack) < n.subs[p].inFlight
    {
      assert AlignedAt(n, p) && NarrowAt(n, p);
      AckNarrow(n, ack, p);
    }
  }

  lemma StartsNarrow(cfg: Config)
    ensures var n := Initial(cfg); Narrow(n) && AllAligned(n) && Sorted(n)
  {
  }

  // ---------- clean runs are in order ----------

  // Once something was sent, a full ring has a slot in flight.
  ghost predicate BackedAt(n: Node, p: Path)
    requires p in n.subs
  {
    n.subs[p].at != [] && |n.subs[p].queue| == n.cfg.ring ==> n.subs[p].inFlight > 0
  }

  ghost predicate Backed(n: Node) {
    forall p | p in n.subs :: BackedAt(n, p)
  }

  lemma PumpedIsBacked(n: Node, p: Path)
    requires Inv(n) && p in n.subs && Pumped(n, p) && n.cfg.window > 0
    ensures BackedAt(n, p)
  {
    hide Inv;
    SilentOrLive(n, p);
  }

  lemma AckBacked(n: Node, ack: nat, p: Path)
    requires Inv(n) && Sorted(n) && AlignedAt(n, p) && BackedAt(n, p)
    ensures p in Acknowledge(n, ack).subs && BackedAt(Acknowledge(n, ack), p)
  {
    hide AckLoop, RetiredFor, Sorted, Inv, IdsFor, Lead, Trail;
    AlignedTrails(n.subs[p], IdsFor(n.acks, p), n.cfg.ring);
    SilentOrLive(n, p);
    var total, k := AcknowledgeSub(n, p, ack);
    var _ := AckLoopGrown(n, Retired(n, ack));
    AckedRing(n.subs[p], IdsFor(n.acks, p), RetiredFor(n, p, ack), total, k, n.cfg.window);
  }

  lemma StepBackedAt(n: Node, e: Event, p: Path)
    requires Inv(n) && Sorted(n) && AllAligned(n) && Backed(n) && Enabled(n, e) && Clean(n, e)
    requires n.cfg.window > 0 && (e.SubscribeEvent? ==> e.sid != NO_SID)
    requires p in Step(n, e).subs
    ensures BackedAt(Step(n, e), p)
  {
    hide Offer, Acknowledge, Subscribe, Unsubscribe, Disconnect, AlignedAt, Conserved, Indexed, SubInv, Sorted, RetiredFor, Fills, Pumped;
    StepKeeps(n, e);
    StepConfig(n, e);
    if e.AckEvent? {
      AcknowledgeSubs(n, e.ack);
      assert AlignedAt(n, p) && BackedAt(n, p);
      AckBacked(n, e.ack, p);
    } else {
      StepFills(n, e, p);
      if Pumped(Step(n, e), p) {
        PumpedIsBacked(Step(n, e), p);
      } else {
        NotFilledElsewhere(n, e, p);
        Unfilled(n, e, p);
        assert BackedAt(n, p);
      }
    }
  }

  // Of an aligned ring without loss the clean events are the ones that keep the order.
  lemma CleanIsOrderClean(n: Node, e: Event, p: Path)
    requires Inv(n) && AllAligned(n) && Backed(n) && TrailsAt(n, p) && Clean(n, e)
    ensures OrderClean(n, e, p)
  {
    hide RetiredFor, IdsFor, Conserved, Indexed, SubInv, Contiguous, Trail;
    if p in n.subs {
      assert AlignedAt(n, p) && BackedAt(n, p);
      SilentOrLive(n, p);
      AlignedTrails(n.subs[p], IdsFor(n.acks, p), n.cfg.ring);
      hide Lead, Inv, AllAligned, Backed;
    }
  }

  /** In-order delivery over every run of clean events: all rings stay aligned, and for every
      subscription and connection the values sent are a contiguous run of the values offered. */
  lemma {:induction false} RunInOrder(run: seq<Node>, es: seq<Event>, cfg: Config)
    requires IsRun(run, es) && run[0] == Initial(cfg) && cfg.ring > 0 && cfg.window > 0
    requires forall i | 0 <= i < |es| :: Clean(run[i], es[i])
    requires forall n | n in run :: n.total <= ID_PERIOD
    requires forall e | e in es :: e.SubscribeEvent? ==> e.sid != NO_SID
    ensures AllAligned(run[|es|]) && Backed(run[|es|])
    ensures forall p :: TrailsAt(run[|es|], p) && InOrderAt(run[|es|], p)
    ensures forall p, i | 0 <= i < |es| :: OrderClean(run[i], es[i], p)
  {
    hide Step, Clean, AllAligned, Inv, Sorted, Backed, TrailsAt, InOrderAt, OrderClean;
    RunAligned(run, es, cfg);
    if es != [] {
      var k := |es| - 1;
      var front := run[..k + 1];
      assert IsRun(front, es[..k]);
      RunInOrder(front, es[..k], cfg);
      RunAligned(front, es[..k], cfg);
      var m := Step(run[k], es[k]);
      StepBacked(run[k], es[k]);
      forall p ensures OrderClean(run[k], es[k], p) && TrailsAt(m, p) && InOrderAt(m, p) {
        assert TrailsAt(front[k], p);
        CleanIsOrderClean(run[k], es[k], p);
        StepOrder(run[k], es[k], p);
      }
      forall p, i | 0 <= i < |es| ensures OrderClean(run[i], es[i], p) {
        if i < k {
          assert OrderClean(front[i], es[..k][i], p) && front[i] == run[i] && es[..k][i] == es[i];
        }
      }
      assert run[|es|] == m;
    } else {
      forall p ensures TrailsAt(run[0], p) && InOrderAt(run[0], p) {
        StartsInOrder(cfg, p);
      }
      assert Backed(run[0]) by { StartsBacked(cfg); }
    }
  }

  lemma StartsBacked(cfg: Config)
    ensures Backed(Initial(cfg))
  {
  }

  lemma StepBacked(n: Node, e: Event)
    requires Inv(n) && Sorted(n) && AllAligned(n) && Backed(n) && Enabled(n, e) && Clean(n, e)
    requires n.cfg.window > 0 && (e.SubscribeEvent? ==> e.sid != NO_SID)
    ensures Backed(Step(n, e))
  {
    hide Step, Clean, BackedAt, AllAligned, Sorted, Inv;
    forall p | p in Step(n, e).subs ensures BackedAt(Step(n, e), p) {
      StepBackedAt(n, e, p);
    }
  }
}
