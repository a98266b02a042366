/** Sorted ids and aligned rings over single events and over whole runs. */
module DeliveryRuns {
  import opened Common
  import opened Ring
  import opened Delivery
  import opened DeliveryInvariants
  import opened DeliveryOrder

  // ---------- sorted ids ----------

  lemma {:induction false} OthersSorted(acks: seq<PendingAck>, p: Path)
    requires forall i, j | 0 <= i < j < |acks| :: acks[i].id < acks[j].id
    ensures forall i, j | 0 <= i < j < |Others(acks, p)| :: Others(acks, p)[i].id < Others(acks, p)[j].id
    ensures forall a | a in Others(acks, p) :: a in acks
  {
    if acks != [] {
      var front, a := acks[..|acks| - 1], acks[|acks| - 1];
      OthersSorted(front, p);
      forall i | 0 <= i < |Others(front, p)| ensures Others(front, p)[i].id < a.id {
        assert Others(front, p)[i] in front;
      }
    }
  }

  lemma PumpSorted(n: Node, p: Path)
    requires Sorted(n) && p in n.subs && Pump(n, p).total <= ID_PERIOD
    ensures Sorted(Pump(n, p))
  {
    hide Pump;
    var k := PumpEffect(n, p);
    assert n.acks[0..] == n.acks;
    SortedAppend(n, 0, FreshAcks(p, n.total, k), Pump(n, p));
  }

  lemma FreeSorted(n: Node, p: Path)
    requires Sorted(n)
    ensures Sorted(Free(n, p))
  {
    OthersSorted(n.acks, p);
    forall i | 0 <= i < |Others(n.acks, p)| ensures 0 < Others(n.acks, p)[i].id <= n.total {
      assert Others(n.acks, p)[i] in n.acks;
    }
  }

  lemma SortedAs(n: Node, m: Node)
    requires Sorted(n) && (m.acks == [] || (m.acks == n.acks && n.total <= m.total))
    ensures Sorted(m)
  {
  }

  lemma OfferSorted(n: Node, p: Path, msg: Message)
    requires Sorted(n) && p in n.subs && Offer(n, p, msg).total <= ID_PERIOD
    ensures Sorted(Offer(n, p, msg))
  {
    hide Pump, Sorted;
    SortedAs(n, Enqueue(n, p, msg));
    PumpSorted(Enqueue(n, p, msg), p);
  }

  lemma SubscribeSorted(n: Node, p: Path, sid: Sid, qos: Qos, last: Option<Message>)
    requires Sorted(n) && Subscribe(n, p, sid, qos, last).total <= ID_PERIOD
    ensures Sorted(Subscribe(n, p, sid, qos, last))
  {
    hide Pump, Free, Offer, Sorted;
    if SameSub(n, p, sid) {
      SortedAs(n, Subscribe(n, p, sid, qos, last));
    } else {
      var m := if sid in n.sids then Free(n, n.sids[sid]) else n;
      if sid in n.sids {
        FreeSorted(n, n.sids[sid]);
      }
      if p in m.subs {
        var s := m.subs[p].(sid := sid, qos := qos);
        var r := m.(subs := m.subs[p := s], sids := (m.sids - {m.subs[p].sid})[sid := p]);
        SortedAs(m, r);
        if qos == 2 {
          PumpSorted(r, p);
        } else if last.Some? {
          OfferSorted(r, p, last.value);
        }
      } else {
        var r := m.(subs := m.subs[p := NewSub(sid, qos)], sids := m.sids[sid := p]);
        SortedAs(m, r);
        if last.Some? {
          OfferSorted(r, p, last.value);
        }
      }
    }
  }

  // As long as the connection's counter has not wrapped, the pending acks are sorted.
  lemma StepSorted(n: Node, e: Event)
    requires Inv(n) && Sorted(n) && Enabled(n, e) && Step(n, e).total <= ID_PERIOD
    ensures Sorted(Step(n, e))
  {
    hide Offer, Acknowledge, Free, Subscribe, Sorted;
    match e
    case OfferEvent(path, msg) => OfferSorted(n, path, msg);
    case AckEvent(ack) => var _ := AcknowledgeExact(n, ack);
    case SubscribeEvent(path, sid, qos, last) => SubscribeSorted(n, path, sid, qos, last);
    case UnsubscribeEvent(sid) =>
      if sid in n.sids {
        SortedAs(n, n.(sids := n.sids - {sid}));
        FreeSorted(n.(sids := n.sids - {sid}), n.sids[sid]);
      }
    case _ => SortedAs(n, Step(n, e));
  }

  // ---------- exactly which events keep the rings aligned ----------

  // A request that moves a live path to another sid below QoS 2 offers the last value again.
  predicate OffersAgain(n: Node, p: Path, sid: Sid, qos: Qos, last: Option<Message>) {
    p in n.subs && !SameSub(n, p, sid) && qos < 2 && last.Some?
  }

  ghost predicate Clean(n: Node, e: Event) {
    match e
    case OfferEvent(path, _) => !EvictsInFlight(n, path)
    case AckEvent(ack) =>
      forall p | p in n.subs ::
        RetiredFor(n, p, ack) <= 1 || |n.subs[p].queue| - RetiredFor(n, p, ack) < n.subs[p].inFlight
    case SubscribeEvent(path, sid, qos, last) => OffersAgain(n, path, sid, qos, last) ==> !EvictsInFlight(n, path)
    case _ => true
  }

  lemma OfferAllAligned(n: Node, p: Path, msg: Message)
    requires Inv(n) && AllAligned(n) && p in n.subs
    ensures AllAligned(Offer(n, p, msg)) <==> !EvictsInFlight(n, p)
  {
    hide Pump, AlignedAt;
    assert AlignedAt(n, p);
    OfferExact(n, p, msg);
    OfferElsewhere(n, p, msg);
    var k := PumpEffect(Enqueue(n, p, msg), p);
    assert Offer(n, p, msg).subs.Keys == n.subs.Keys;
  }

  lemma FreeAligned(n: Node, p: Path)
    requires Inv(n) && AllAligned(n)
    ensures AllAligned(Free(n, p))
  {
    hide IdsFor, Others;
    forall q | q in Free(n, p).subs ensures AlignedAt(Free(n, p), q) {
      assert AlignedAt(n, q);
      IdsForOthers(n.acks, p, q);
    }
  }

  lemma PumpAllAligned(n: Node, p: Path)
    requires AllAligned(n) && p in n.subs && n.subs[p].inFlight <= n.cfg.window
    ensures AllAligned(Pump(n, p))
  {
    hide Pump, IdsFor;
    assert AlignedAt(n, p);
    PumpAligned(n, p);
    var k := PumpEffect(n, p);
    forall q | q in n.subs && q != p ensures AlignedAt(Pump(n, p), q) {
      assert AlignedAt(n, q);
    }
  }

  lemma PutAligned(n: Node, p: Path, s: Sub)
    requires Inv(n) && AllAligned(n)
    requires if p in n.subs then s == n.subs[p].(sid := s.sid, qos := s.qos) else s.queue == [] && s.inFlight == 0
    ensures AllAligned(Put(n, p, s))
  {
    hide IdsFor;
    forall q | q in Put(n, p, s).subs ensures AlignedAt(Put(n, p, s), q) {
      if q in n.subs {
        assert AlignedAt(n, q);
      } else {
        NoIdsFor(n.acks, p);
      }
    }
  }

  lemma SubscribeAllAligned(n: Node, p: Path, sid: Sid, qos: Qos, last: Option<Message>)
    requires Inv(n) && n.online && sid != NO_SID && AllAligned(n)
    ensures AllAligned(Subscribe(n, p, sid, qos, last)) <==> (OffersAgain(n, p, sid, qos, last) ==> !EvictsInFlight(n, p))
  {
    hide Pump, Free, AlignedAt, Conserved, Indexed, IdsFor, Lossless;
    if SameSub(n, p, sid) {
      RequalifyAligned(n, p, qos);
    } else {
      var m := if sid in n.sids then Free(n, n.sids[sid]) else n;
      if sid in n.sids {
        FreeAligned(n, n.sids[sid]);
        FreeKeeps(n, n.sids[sid]);
        FreeSids(n, sid);
      }
      if p in m.subs {
        RenewAligned(m, p, sid, qos, last);
      } else {
        AddAligned(m, p, sid, qos, last);
      }
    }
  }

  lemma FreeSids(n: Node, sid: Sid)
    requires Inv(n) && sid in n.sids
    ensures var m := Free(n, n.sids[sid]); sid !in m.sids && m.cfg == n.cfg && m.online == n.online
  {
  }

  lemma RequalifyAligned(n: Node, p: Path, qos: Qos)
    requires AllAligned(n) && p in n.subs
    ensures AllAligned(n.(subs := n.subs[p := n.subs[p].(qos := qos)]))
  {
    hide IdsFor;
    var m := n.(subs := n.subs[p := n.subs[p].(qos := qos)]);
    forall q | q in m.subs ensures AlignedAt(m, q) {
      assert AlignedAt(n, q);
    }
  }

  lemma RenewAligned(n: Node, p: Path, sid: Sid, qos: Qos, last: Option<Message>)
    requires Inv(n) && n.online && p in n.subs && sid !in n.sids && sid != NO_SID && AllAligned(n)
    ensures AllAligned(Renew(n, p, sid, qos, last)) <==> (qos < 2 && last.Some? ==> !EvictsInFlight(n, p))
  {
    hide Pump, AlignedAt, Indexed, IdsFor, Msgs, Logged;
    var s := n.subs[p].(sid := sid, qos := qos);
    assert SubInv(n, p) && BalancedSub(n, p, [], IdsFor(n.acks, p));
    PutKeeps(n, p, s);
    PutAligned(n, p, s);
    if qos == 2 {
      PumpAllAligned(Put(n, p, s), p);
    } else if last.Some? {
      OfferAllAligned(Put(n, p, s), p, last.value);
    }
  }

  lemma AddAligned(n: Node, p: Path, sid: Sid, qos: Qos, last: Option<Message>)
    requires Inv(n) && n.online && p !in n.subs && sid !in n.sids && sid != NO_SID && AllAligned(n)
    ensures AllAligned(Add(n, p, sid, qos, last))
  {
    hide Pump, AlignedAt, Indexed, IdsFor;
    var s := NewSub(sid, qos);
    PutKeeps(n, p, s);
    PutAligned(n, p, s);
    if last.Some? {
      OfferAllAligned(Put(n, p, s), p, last.value);
    }
  }

  lemma DisconnectAligned(n: Node)
    requires AllAligned(n)
    ensures AllAligned(Disconnect(n))
  {
    hide ClearIds;
    var m := Disconnect(n);
    forall q | q in m.subs ensures AlignedAt(m, q) {
      assert AlignedAt(n, q);
      ClearIdsEffect(n.subs[q].queue, n.subs[q].inFlight);
    }
  }

  lemma AcknowledgeAllAligned(n: Node, ack: nat)
    requires Inv(n) && Sorted(n) && AllAligned(n)
    ensures AllAligned(Acknowledge(n, ack)) <==> Clean(n, AckEvent(ack))
  {
    hide AckLoop, AlignedAt, RetiredFor, Inv, Sorted;
    var _ := AckLoopGrown(n, Retired(n, ack));
    forall p | p in n.subs
      ensures AlignedAt(Acknowledge(n, ack), p) <==>
              RetiredFor(n, p, ack) <= 1 || |n.subs[p].queue| - RetiredFor(n, p, ack) < n.subs[p].inFlight
    {
      assert AlignedAt(n, p);
      AcknowledgeOrder(n, p, ack);
    }
  }

  /** From aligned rings every event leads to aligned rings exactly when it is clean, a
      condition on the state before the event. */
  lemma StepAligned(n: Node, e: Event)
    requires Inv(n) && Sorted(n) && AllAligned(n) && Enabled(n, e)
    requires e.SubscribeEvent? ==> e.sid != NO_SID
    ensures AllAligned(Step(n, e)) <==> Clean(n, e)
  {
    hide Offer, Acknowledge, Free, Subscribe, Disconnect, Sorted, IdsFor;
    match e
    case OfferEvent(path, msg) => OfferAllAligned(n, path, msg);
    case AckEvent(ack) => AcknowledgeAllAligned(n, ack);
    case SubscribeEvent(path, sid, qos, last) => SubscribeAllAligned(n, path, sid, qos, last);
    case UnsubscribeEvent(sid) =>
      if sid in n.sids {
        UnsubscribeIsFree(n, sid);
        FreeAligned(n, n.sids[sid]);
      }
    case DisconnectEvent => DisconnectAligned(n);
    case _ =>
      forall q | q in n.subs ensures AlignedAt(Step(n, e), q) {
        assert AlignedAt(n, q);
      }
  }

  lemma UnsubscribeIsFree(n: Node, sid: Sid)
    requires Inv(n) && sid in n.sids
    ensures Unsubscribe(n, sid) == Free(n, n.sids[sid])
  {
    assert (n.sids - {sid}) - {sid} == n.sids - {sid};
  }

  // ---------- what events leave as it was ----------

  // m differs from n in p, the counter, the pending acks and the sids only.
  ghost predicate OnlyAt(n: Node, m: Node, p: Path) {
    && m.cfg == n.cfg && m.online == n.online
    && forall q | q != p :: (q in m.subs <==> q in n.subs) && (q in n.subs ==> m.subs[q] == n.subs[q])
  }

  lemma PumpOnlyAt(n: Node, m: Node, p: Path)
    requires p in m.subs && OnlyAt(n, m, p)
    ensures OnlyAt(n, Pump(m, p), p)
  {
    hide Pump, FreshAcks, SendSub;
    var _ := PumpEffect(m, p);
  }

  lemma OfferOnlyAt(n: Node, m: Node, p: Path, msg: Message)
    requires p in m.subs && OnlyAt(n, m, p)
    ensures OnlyAt(n, Offer(m, p, msg), p)
  {
    hide Pump;
    PumpOnlyAt(n, Enqueue(m, p, msg), p);
  }

  lemma RenewOnlyAt(n: Node, p: Path, sid: Sid, qos: Qos, last: Option<Message>)
    requires p in n.subs
    ensures OnlyAt(n, Renew(n, p, sid, qos, last), p)
  {
    hide Pump, Offer;
    var m := Put(n, p, n.subs[p].(sid := sid, qos := qos));
    if qos == 2 {
      PumpOnlyAt(n, m, p);
    } else if last.Some? {
      OfferOnlyAt(n, m, p, last.value);
    }
  }

  lemma AddOnlyAt(n: Node, p: Path, sid: Sid, qos: Qos, last: Option<Message>)
    ensures OnlyAt(n, Add(n, p, sid, qos, last), p)
  {
    hide Offer;
    if last.Some? {
      OfferOnlyAt(n, n.(subs := n.subs[p := NewSub(sid, qos)], sids := n.sids[sid := p]), p, last.value);
    }
  }

  /** Subscribing touches no other subscription, except that it frees the one whose sid it
      takes over. */
  lemma SubscribeElsewhere(n: Node, p: Path, sid: Sid, qos: Qos, last: Option<Message>, q: Path)
    requires q != p
    ensures var m := Subscribe(n, p, sid, qos, last);
            && m.cfg == n.cfg && m.online == n.online
            && (q in m.subs <==> q in n.subs && (sid in n.sids && n.sids[sid] == q ==> SameSub(n, p, sid)))
            && (q in m.subs ==> m.subs[q] == n.subs[q])
  {
    hide Renew, Add, Others;
    var m := if sid in n.sids then Free(n, n.sids[sid]) else n;
    if SameSub(n, p, sid) {
    } else if p in m.subs {
      RenewOnlyAt(m, p, sid, qos, last);
    } else {
      AddOnlyAt(m, p, sid, qos, last);
    }
  }

  // ---------- who has which sid ----------

  // The sids without those of p.
  function SidsWithout(sids: map<nat, Path>, p: Path): (r: map<nat, Path>) {
    map sid | sid in sids && sids[sid] != p :: sids[sid]
  }

  lemma OfferSids(n: Node, p: Path, msg: Message)
    requires p in n.subs
    ensures var m := Offer(n, p, msg);
            m.sids == n.sids && m.subs.Keys == n.subs.Keys && forall q | q in n.subs :: m.subs[q].sid == n.subs[q].sid && m.subs[q].qos == n.subs[q].qos
  {
    hide Pump;
    PumpSids(Enqueue(n, p, msg), p);
  }

  lemma PumpSids(n: Node, p: Path)
    requires p in n.subs
    ensures var m := Pump(n, p);
            m.sids == n.sids && m.subs.Keys == n.subs.Keys && forall q | q in n.subs :: m.subs[q].sid == n.subs[q].sid && m.subs[q].qos == n.subs[q].qos
  {
    hide Pump, FreshAcks, MarkSent, Msgs, Positions;
    var _ := PumpEffect(n, p);
  }

  // p holds the sid, and nothing else of the maps has changed but that p had another one.
  ghost predicate Answers(n: Node, m: Node, p: Path, sid: Sid, qos: Qos) {
    && p in m.subs && m.subs[p].sid == sid && m.subs[p].qos == qos
    && m.sids == SidsWithout(n.sids, p)[sid := p]
  }

  lemma RenewSids(n: Node, p: Path, sid: Sid, qos: Qos, last: Option<Message>)
    requires Inv(n) && p in n.subs && sid !in n.sids
    ensures Answers(n, Renew(n, p, sid, qos, last), p, sid, qos)
  {
    hide Pump, Offer, Conserved, SubInv;
    var m := Put(n, p, n.subs[p].(sid := sid, qos := qos));
    assert n.sids - {n.subs[p].sid} == SidsWithout(n.sids, p);
    hide Inv;
    PumpSids(m, p);
    if last.Some? {
      OfferSids(m, p, last.value);
    }
  }

  lemma AddSids(n: Node, p: Path, sid: Sid, qos: Qos, last: Option<Message>)
    requires Inv(n) && p !in n.subs
    ensures Answers(n, Add(n, p, sid, qos, last), p, sid, qos)
  {
    hide Offer, Conserved, SubInv;
    assert SidsWithout(n.sids, p) == n.sids;
    hide Inv;
    if last.Some? {
      OfferSids(n.(subs := n.subs[p := NewSub(sid, qos)], sids := n.sids[sid := p]), p, last.value);
    }
  }

  /** After a request its path holds the sid and the QoS asked for. The path's former sid is
      gone, and every other sid leads where it did. */
  lemma SubscribeSids(n: Node, p: Path, sid: Sid, qos: Qos, last: Option<Message>)
    requires Inv(n) && n.online && sid != NO_SID
    ensures Answers(n, Subscribe(n, p, sid, qos, last), p, sid, qos)
  {
    hide Renew, Add, Conserved, SubInv, Others;
    if SameSub(n, p, sid) {
      assert Indexed(n);
      assert SidsWithout(n.sids, p)[sid := p] == n.sids;
    } else {
      var m := if sid in n.sids then Free(n, n.sids[sid]) else n;
      if sid in n.sids {
        FreeKeeps(n, n.sids[sid]);
        FreeSids(n, sid);
        assert Indexed(n);
        assert SidsWithout(m.sids, p)[sid := p] == SidsWithout(n.sids, p)[sid := p];
      }
      if p in m.subs {
        RenewSids(m, p, sid, qos, last);
      } else {
        AddSids(m, p, sid, qos, last);
      }
    }
  }

  /** What every event does to the sids: a request as above, an unsubscription removes the one
      it names together with its subscription, closing the link removes all, and nothing else
      changes any. */
  lemma StepSids(n: Node, e: Event)
    requires Inv(n) && Enabled(n, e) && (e.SubscribeEvent? ==> e.sid != NO_SID)
    ensures var m := Step(n, e);
            match e
            case SubscribeEvent(p, sid, qos, _) => Answers(n, m, p, sid, qos)
            case UnsubscribeEvent(sid) =>
              && m.sids == n.sids - {sid}
              && m.subs.Keys == n.subs.Keys - (if sid in n.sids then {n.sids[sid]} else {})
              && forall p | p in m.subs :: m.subs[p] == n.subs[p]
            case DisconnectEvent =>
              && m.sids == map[]
              && (forall p :: p in m.subs <==> p in n.subs && n.subs[p].qos == 2)
              && forall p | p in m.subs :: m.subs[p].sid == NO_SID && m.subs[p].qos == 2 && m.subs[p].offered == n.subs[p].offered
            case _ => m.sids == n.sids && m.subs.Keys == n.subs.Keys && forall p | p in n.subs :: m.subs[p].sid == n.subs[p].sid && m.subs[p].qos == n.subs[p].qos
  {
    hide Offer, Acknowledge, Subscribe, Conserved, SubInv, ClearIds, Others, SidsWithout;
    match e
    case OfferEvent(path, msg) => OfferSids(n, path, msg);
    case AckEvent(ack) => AcknowledgeSids(n, ack);
    case SubscribeEvent(p, sid, qos, last) => SubscribeSids(n, p, sid, qos, last);
    case UnsubscribeEvent(sid) => UnsubscribeSids(n, sid);
    case _ =>
  }

  // ---------- the link ----------

  /** Only connecting brings the requester back, and its new link counts from nothing: the first
      message on it has the id 1. Closing the link is what it leaves by. */
  lemma StepLink(n: Node, e: Event)
    requires Enabled(n, e)
    ensures var m := Step(n, e);
            match e
            case ConnectEvent => m.online && m.total == 0 && NextId(m.total) == 1 && m.subs == n.subs && m.listed == n.listed
            case DisconnectEvent => !m.online && m.listed == n.listed
            case OtherTrafficEvent => m.online && m.total == n.total + 1 && m.subs == n.subs && m.acks == n.acks
            case _ => m.online == n.online && m.total >= n.total && (n.listed ==> m.listed)
  {
    hide Pump, AckLoop, Subscribe, Others, ClearIds, Retired;
    match e
    case OfferEvent(path, msg) => OfferLink(n, path, msg);
    case AckEvent(ack) => var _ := AckLoopGrown(n, Retired(n, ack));
    case SubscribeEvent(path, sid, qos, last) => SubscribeLink(n, path, sid, qos, last);
    case _ =>
  }

  // Sending goes on on the same link.
  ghost predicate OnSameLink(n: Node, m: Node) {
    m.online == n.online && m.total >= n.total && (n.listed ==> m.listed)
  }

  lemma PumpLink(n: Node, p: Path)
    requires p in n.subs
    ensures OnSameLink(n, Pump(n, p))
  {
    hide Pump, FreshAcks, SendSub;
    var _ := PumpEffect(n, p);
  }

  lemma OfferLink(n: Node, p: Path, msg: Message)
    requires p in n.subs
    ensures OnSameLink(n, Offer(n, p, msg))
  {
    hide Pump;
    PumpLink(Enqueue(n, p, msg), p);
  }

  lemma SubscribeLink(n: Node, p: Path, sid: Sid, qos: Qos, last: Option<Message>)
    ensures OnSameLink(n, Subscribe(n, p, sid, qos, last))
  {
    hide Pump, Offer, Others;
    var m := if sid in n.sids then Free(n, n.sids[sid]) else n;
    if !SameSub(n, p, sid) {
      if p in m.subs {
        var t := Put(m, p, m.subs[p].(sid := sid, qos := qos));
        PumpLink(t, p);
        if last.Some? {
          OfferLink(t, p, last.value);
        }
      } else if last.Some? {
        OfferLink(m.(subs := m.subs[p := NewSub(sid, qos)], sids := m.sids[sid := p]), p, last.value);
      }
    }
  }

  // The ids before and after the counter starts again, and the sid of nobody.
  lemma Numbers()
    ensures NextId(0) == 1 && NextId(2147483646) == 2147483647 && NextId(2147483647) == 1
    ensures NO_SID == 4294967295
  {
  }

  lemma UnsubscribeSids(n: Node, sid: Sid)
    requires Inv(n)
    ensures var m := Unsubscribe(n, sid);
            && m.sids == n.sids - {sid}
            && m.subs.Keys == n.subs.Keys - (if sid in n.sids then {n.sids[sid]} else {})
            && forall p | p in m.subs :: m.subs[p] == n.subs[p]
  {
    hide Conserved, SubInv, Others;
    assert Indexed(n);
    if sid in n.sids {
      assert n.sids - {sid} - {sid} == n.sids - {sid};
    }
  }

  lemma AcknowledgeSids(n: Node, ack: nat)
    ensures var m := Acknowledge(n, ack);
            m.sids == n.sids && m.subs.Keys == n.subs.Keys && forall p | p in n.subs :: m.subs[p].sid == n.subs[p].sid && m.subs[p].qos == n.subs[p].qos
  {
    hide AckLoop, Retired;
    var _ := AckLoopGrown(n, Retired(n, ack));
  }

  // ---------- what is offered ----------

  /** The values an event hands to p: a new one, or the last value of its stream on a request
      that makes p a new subscription or moves it to another sid below QoS 2. */
  function Handed(n: Node, e: Event, p: Path): seq<Message> {
    match e
    case OfferEvent(path, msg) => if path == p then [msg] else []
    case SubscribeEvent(path, sid, qos, last) =>
      if path == p && last.Some? && (p !in n.subs || (!SameSub(n, p, sid) && qos < 2)) then [last.value] else []
    case _ => []
  }

  function OfferedTo(n: Node, p: Path): seq<Message> {
    if p in n.subs then n.subs[p].offered else []
  }

  /** A subscription that is there after an event has been offered what it had been before,
      and what the event hands to it. */
  lemma StepOffers(n: Node, e: Event, p: Path)
    requires Enabled(n, e) && p in Step(n, e).subs
    ensures OfferedTo(Step(n, e), p) == OfferedTo(n, p) + Handed(n, e, p)
  {
    hide Offer, Subscribe, Acknowledge, Unsubscribe, Disconnect;
    assert OfferedTo(n, p) + [] == OfferedTo(n, p);
    match e
    case OfferEvent(path, msg) => OfferOffers(n, path, msg);
    case AckEvent(ack) => AckOffers(n, ack);
    case SubscribeEvent(path, sid, qos, last) =>
      if p == path {
        SubscribeOffers(n, p, sid, qos, last);
      } else {
        SubscribeElsewhere(n, path, sid, qos, last, p);
      }
    case UnsubscribeEvent(sid) => UnsubscribeOffers(n, sid);
    case DisconnectEvent => DisconnectOffers(n);
    case _ =>
  }

  lemma OfferOffers(n: Node, p: Path, msg: Message)
    requires p in n.subs
    ensures var m := Offer(n, p, msg);
            && m.subs.Keys == n.subs.Keys && m.cfg == n.cfg && m.subs[p].offered == n.subs[p].offered + [msg]
            && forall q | q in n.subs && q != p :: m.subs[q] == n.subs[q]
  {
    hide Pump;
    PumpOffers(Enqueue(n, p, msg), p);
    OfferSids(n, p, msg);
    OfferOnlyAt(n, n, p, msg);
  }

  lemma PumpOffers(n: Node, p: Path)
    requires p in n.subs
    ensures p in Pump(n, p).subs && Pump(n, p).subs[p].offered == n.subs[p].offered
  {
    hide Pump, FreshAcks, MarkSent, Msgs, Logged;
    var _ := PumpEffect(n, p);
  }

  lemma AckOffers(n: Node, ack: nat)
    ensures var m := Acknowledge(n, ack); m.subs.Keys == n.subs.Keys && forall p | p in n.subs :: m.subs[p].offered == n.subs[p].offered
  {
    hide AckLoop, Retired;
    var _ := AckLoopGrown(n, Retired(n, ack));
  }

  lemma UnsubscribeOffers(n: Node, sid: Sid)
    ensures forall p | p in Unsubscribe(n, sid).subs :: p in n.subs && Unsubscribe(n, sid).subs[p] == n.subs[p]
  {
    hide Others;
  }

  lemma DisconnectOffers(n: Node)
    ensures forall p | p in Disconnect(n).subs :: p in n.subs && Disconnect(n).subs[p].offered == n.subs[p].offered
  {
    hide ClearIds;
  }

  lemma SubscribeOffers(n: Node, p: Path, sid: Sid, qos: Qos, last: Option<Message>)
    ensures var m := Subscribe(n, p, sid, qos, last);
            p in m.subs && OfferedTo(m, p) == OfferedTo(n, p) + Handed(n, SubscribeEvent(p, sid, qos, last), p)
  {
    hide Pump, Offer, Others;
    var m := if sid in n.sids then Free(n, n.sids[sid]) else n;
    if !SameSub(n, p, sid) {
      if p in m.subs {
        var t := Put(m, p, m.subs[p].(sid := sid, qos := qos));
        PumpOffers(t, p);
        if last.Some? {
          OfferOffers(t, p, last.value);
        }
      } else if last.Some? {
        OfferOffers(m.(subs := m.subs[p := NewSub(sid, qos)], sids := m.sids[sid := p]), p, last.value);
      }
    }
  }

  lemma StepConfig(n: Node, e: Event)
    requires Enabled(n, e)
    ensures Step(n, e).cfg == n.cfg
  {
    hide Pump, AckLoop, Subscribe;
    match e
    case OfferEvent(path, msg) => var _ := PumpEffect(Enqueue(n, path, msg), path);
    case AckEvent(ack) => var _ := AckLoopGrown(n, Retired(n, ack));
    case SubscribeEvent(path, sid, qos, last) => SubscribeElsewhere(n, path, sid, qos, last, path + "/");
    case _ =>
  }

  /** In every run of clean events on connections of fewer than 2^31 messages every ring is
      aligned. */
  lemma {:induction false} RunAligned(run: seq<Node>, es: seq<Event>, cfg: Config)
    requires IsRun(run, es) && run[0] == Initial(cfg) && cfg.ring > 0
    requires forall i | 0 <= i < |es| :: Clean(run[i], es[i])
    requires forall n | n in run :: n.total <= ID_PERIOD
    requires forall e | e in es :: e.SubscribeEvent? ==> e.sid != NO_SID
    ensures run[|es|].cfg == cfg
    ensures Inv(run[|es|]) && Sorted(run[|es|]) && AllAligned(run[|es|])
  {
    hide Step, Clean, AlignedAt, Conserved, Indexed;
    RunKeeps(run, es, cfg);
    if es != [] {
      var k := |es| - 1;
      assert IsRun(run[..k + 1], es[..k]);
      RunAligned(run[..k + 1], es[..k], cfg);
      assert run[k + 1] == Step(run[k], es[k]);
      StepConfig(run[k], es[k]);
      StepSorted(run[k], es[k]);
      StepAligned(run[k], es[k]);
    }
  }
}
