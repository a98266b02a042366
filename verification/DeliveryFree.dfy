/** Exactly when broker_free_sub_requester is defined. It reads the requester's list of
    pending acks once the subscription has a ring, and the list exists only after something
    was sent to the requester. */
module DeliveryFree {
  import opened Common
  import opened Ring
  import opened Delivery
  import opened DeliveryInvariants
  import opened DeliveryOrder
  import opened DeliveryRuns

  // No slot was ever sent, and the first value offered is still in the ring or evicted there.
  ghost predicate Untouched(s: Sub) {
    && s.inFlight == 0
    && (forall i | 0 <= i < |s.queue| :: s.queue[i].id == 0)
    && (s.offered != [] ==> s.queue != [])
  }

  /** What every run keeps: without a list nothing was sent, and only QoS 2 subscriptions
      wait for their requester. */
  ghost predicate Quiet(n: Node) {
    && (!n.listed ==> n.acks == [] && forall p | p in n.subs :: Untouched(n.subs[p]))
    && (forall p | p in n.subs && n.subs[p].sid == NO_SID :: n.subs[p].qos == 2)
  }

  /** Without a list, only subscriptions that wait for their requester hold values. */
  ghost predicate Safe(n: Node) {
    !n.listed ==> forall p | p in n.subs && n.subs[p].offered != [] :: n.subs[p].sid == NO_SID
  }

  /** The one way out of `Safe`: the requester comes back and takes up a path that has
      values, below QoS 2, so that they are not sent, and the stream of the path has no
      last value to send either, before anything was ever sent to it. */
  predicate Strands(n: Node, e: Event) {
    && e.SubscribeEvent? && e.qos < 2 && e.last.None?
    && !n.listed && e.path in n.subs && n.subs[e.path].offered != [] && !SameSub(n, e.path, e.sid)
  }

  lemma PumpLists(n: Node, p: Path)
    requires p in n.subs && n.cfg.window > 0 && (!n.listed ==> Untouched(n.subs[p]))
    ensures var m := Pump(n, p);
            && m.sids == n.sids && m.online == n.online && p in m.subs && SameIdentity(n.subs[p], m.subs[p])
            && m.listed == (n.listed || (Live(n, p) && n.subs[p].queue != []))
            && (!m.listed ==> m == n)
  {
    hide Pump, FreshAcks, MarkSent, Msgs, Logged;
    if !n.listed {
      PumpFills(n, p);
    }
    var k := PumpEffect(n, p);
    if !n.listed && k == 0 {
      assert !CanSend(n, p);
      assert Pump(n, p) == n by { PumpStops(n, p); }
    }
  }

  lemma PumpStops(n: Node, p: Path)
    requires !CanSend(n, p)
    ensures Pump(n, p) == n
  {
  }

  lemma PumpQuiet(n: Node, p: Path)
    requires p in n.subs && n.cfg.window > 0 && Quiet(n)
    ensures Quiet(Pump(n, p)) && Pump(n, p).listed == (n.listed || (Live(n, p) && n.subs[p].queue != []))
    ensures !Pump(n, p).listed ==> Pump(n, p) == n
  {
    hide Pump, Untouched;
    PumpLists(n, p);
    PumpOnlyAt(n, n, p);
    var m := Pump(n, p);
    forall q | q in m.subs && m.subs[q].sid == NO_SID ensures m.subs[q].qos == 2 {
      assert q != p ==> m.subs[q] == n.subs[q];
    }
    assert !m.listed ==> Quiet(m);
  }

  lemma OfferQuiet(n: Node, p: Path, msg: Message)
    requires p in n.subs && n.cfg.window > 0 && n.cfg.ring > 0 && Quiet(n)
    ensures var m := Offer(n, p, msg);
            && Quiet(m) && m.listed == (n.listed || Live(n, p))
            && (!m.listed ==> m == Enqueue(n, p, msg))
  {
    hide Pump;
    var m := Enqueue(n, p, msg);
    assert Untouched(n.subs[p]) ==> Untouched(m.subs[p]);
    assert Quiet(m);
    PumpQuiet(m, p);
  }

  // A subscription that is not live waits.
  lemma LiveOrAway(n: Node, p: Path)
    requires Inv(n) && p in n.subs
    ensures Live(n, p) <==> n.subs[p].sid != NO_SID
  {
  }

  lemma OfferSafe(n: Node, p: Path, msg: Message)
    requires Inv(n) && p in n.subs && n.cfg.window > 0 && Quiet(n) && (Safe(n) || Live(n, p))
    ensures Quiet(Offer(n, p, msg)) && Safe(Offer(n, p, msg))
  {
    hide Offer, Pump, Conserved, Untouched;
    LiveOrAway(n, p);
    OfferQuiet(n, p, msg);
  }

  lemma FreeSafe(n: Node, p: Path)
    requires Quiet(n)
    ensures Quiet(Free(n, p)) && (Safe(n) ==> Safe(Free(n, p))) && Free(n, p).listed == n.listed
  {
    hide Untouched;
  }

  lemma RenewSafe(n: Node, p: Path, sid: Sid, qos: Qos, last: Option<Message>)
    requires Inv(n) && n.online && p in n.subs && sid !in n.sids && sid != NO_SID
    requires n.cfg.window > 0 && Quiet(n) && Safe(n)
    ensures Quiet(Renew(n, p, sid, qos, last))
    ensures Safe(Renew(n, p, sid, qos, last)) <==> !(qos < 2 && last.None? && !n.listed && n.subs[p].offered != [])
  {
    hide Pump, Offer, Inv;
    var m := Put(n, p, n.subs[p].(sid := sid, qos := qos));
    PutAgain(n, p, sid, qos);
    assert Quiet(m) by { PutAgainQuiet(n, p, sid, qos); }
    if qos == 2 {
      PumpQuiet(m, p);
    } else if last.Some? {
      OfferSafe(m, p, last.value);
    }
  }

  lemma PutAgainQuiet(n: Node, p: Path, sid: Sid, qos: Qos)
    requires p in n.subs && sid != NO_SID && Quiet(n)
    ensures Quiet(Put(n, p, n.subs[p].(sid := sid, qos := qos)))
  {
  }

  lemma PutNewSafe(n: Node, p: Path, s: Sub)
    requires p !in n.subs && s.sid != NO_SID && s == NewSub(s.sid, s.qos) && Quiet(n) && Safe(n)
    ensures Quiet(Put(n, p, s)) && Safe(Put(n, p, s))
  {
  }

  lemma AddSafe(n: Node, p: Path, sid: Sid, qos: Qos, last: Option<Message>)
    requires Inv(n) && n.online && p !in n.subs && sid !in n.sids && sid != NO_SID
    requires n.cfg.window > 0 && Quiet(n) && Safe(n)
    ensures Quiet(Add(n, p, sid, qos, last)) && Safe(Add(n, p, sid, qos, last))
  {
    hide Pump, Offer, Conserved, Indexed, Quiet, Safe, SubInv;
    var s := NewSub(sid, qos);
    var m := Put(n, p, s);
    PutKeeps(n, p, s);
    PutNewSafe(n, p, s);
    if last.Some? {
      OfferSafe(m, p, last.value);
    }
  }

  lemma RequalifySafe(n: Node, p: Path, qos: Qos)
    requires p in n.subs && n.subs[p].sid != NO_SID && Quiet(n) && Safe(n)
    ensures var m := n.(subs := n.subs[p := n.subs[p].(qos := qos)]); Quiet(m) && Safe(m)
  {
  }

  lemma SubscribeSafe(n: Node, p: Path, sid: Sid, qos: Qos, last: Option<Message>)
    requires Inv(n) && n.online && sid != NO_SID && n.cfg.window > 0 && Quiet(n) && Safe(n)
    ensures Quiet(Subscribe(n, p, sid, qos, last))
    ensures Safe(Subscribe(n, p, sid, qos, last)) <==> !Strands(n, SubscribeEvent(p, sid, qos, last))
  {
    hide Renew, Add, Conserved, SubInv, Others;
    if SameSub(n, p, sid) {
      RequalifySafe(n, p, qos);
    } else {
      var m := if sid in n.sids then Free(n, n.sids[sid]) else n;
      if sid in n.sids {
        FreeSafe(n, n.sids[sid]);
        FreeKeeps(n, n.sids[sid]);
      }
      assert p in n.subs ==> p in m.subs && m.subs[p] == n.subs[p];
      if p in m.subs {
        RenewSafe(m, p, sid, qos, last);
      } else {
        AddSafe(m, p, sid, qos, last);
      }
    }
  }

  lemma AcknowledgeSafe(n: Node, ack: nat)
    requires Inv(n) && Quiet(n) && Safe(n)
    ensures Quiet(Acknowledge(n, ack)) && Safe(Acknowledge(n, ack))
  {
    hide AckLoop, Untouched, Inv;
    var last := Retired(n, ack);
    var _ := AckLoopGrown(n, last);
    if !n.listed {
      assert last == 0;
      assert AckLoop(n, 0) == n by { AckLoopZero(n); }
    }
  }

  lemma AckLoopZero(n: Node)
    ensures AckLoop(n, 0) == n
  {
  }

  lemma DisconnectSafe(n: Node)
    requires Quiet(n)
    ensures Quiet(Disconnect(n)) && Safe(Disconnect(n))
  {
  }

  /** `Safe` is kept by exactly the events that strand no value. */
  lemma StepSafe(n: Node, e: Event)
    requires Inv(n) && n.cfg.window > 0 && Quiet(n) && Safe(n) && Enabled(n, e)
    requires e.SubscribeEvent? ==> e.sid != NO_SID
    ensures Quiet(Step(n, e))
    ensures Safe(Step(n, e)) <==> !Strands(n, e)
  {
    hide Offer, Acknowledge, Free, Subscribe, Disconnect, Conserved, Indexed, SubInv, Untouched;
    match e
    case OfferEvent(path, msg) => OfferSafe(n, path, msg);
    case AckEvent(ack) => AcknowledgeSafe(n, ack);
    case SubscribeEvent(path, sid, qos, last) => SubscribeSafe(n, path, sid, qos, last);
    case UnsubscribeEvent(sid) =>
      if sid in n.sids {
        FreeSafe(n.(sids := n.sids - {sid}), n.sids[sid]);
      }
    case DisconnectEvent => DisconnectSafe(n);
    case _ =>
  }

  /** In a safe state every event that can happen is defined, and in any other the requester
      can unsubscribe a subscription whose removal is not. */
  lemma DefinedExact(n: Node)
    requires Inv(n) && Quiet(n)
    ensures (forall e | Enabled(n, e) :: Defined(n, e)) <==> Safe(n)
  {
    hide Conserved, SubInv, Untouched;
    if Safe(n) {
      forall e | Enabled(n, e) ensures Defined(n, e) {
      }
    } else {
      var p :| p in n.subs && n.subs[p].offered != [] && n.subs[p].sid != NO_SID && !n.listed;
      var e := UnsubscribeEvent(n.subs[p].sid);
      assert Enabled(n, e) && !Defined(n, e);
    }
  }

  /** Over every run from a requester that has never been connected: as long as no value was
      stranded, every event was defined and the next one will be. */
  lemma {:induction false} RunDefined(run: seq<Node>, es: seq<Event>, cfg: Config)
    requires IsRun(run, es) && run[0] == Initial(cfg) && cfg.ring > 0 && cfg.window > 0
    requires forall e | e in es :: e.SubscribeEvent? ==> e.sid != NO_SID
    requires forall i | 0 <= i < |es| :: !Strands(run[i], es[i])
    ensures run[|es|].cfg == cfg && Quiet(run[|es|]) && Safe(run[|es|])
    ensures forall i | 0 <= i < |es| :: Defined(run[i], es[i])
    ensures forall e | Enabled(run[|es|], e) :: Defined(run[|es|], e)
  {
    hide Step, Strands, Defined, Inv, Quiet, Safe;
    RunKeeps(run, es, cfg);
    if es == [] {
      assert Quiet(run[0]) && Safe(run[0]) by { InitialSafe(cfg); }
    } else {
      var k := |es| - 1;
      assert IsRun(run[..k + 1], es[..k]);
      RunDefined(run[..k + 1], es[..k], cfg);
      RunKeeps(run[..k + 1], es[..k], cfg);
      assert run[k + 1] == Step(run[k], es[k]);
      StepConfig(run[k], es[k]);
      StepSafe(run[k], es[k]);
    }
    DefinedExact(run[|es|]);
  }

  lemma InitialSafe(cfg: Config)
    ensures Quiet(Initial(cfg)) && Safe(Initial(cfg))
  {
  }
}
