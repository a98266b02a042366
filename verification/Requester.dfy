/** One requester seen from both sides: what it is sent (Delivery.dfy) and which streams and
    waiting lists its subscriptions hang on (Registry.dfy). handle_subscribe, handle_unsubscribe
    and broker_remote_dslink_free work on both at once, and the two stay together. */
module Requester {
  import opened Common
  import opened Delivery
  import Registry
  import DeliveryInvariants
  import DeliveryOrder
  import DeliveryRuns
  import RegistryInvariants
  import RegistryRuns

  // Both sides hold the same paths, at the same QoS.
  ghost predicate Together(n: Node, r: Registry.Reg, req: Path) {
    forall p ::
      && (p in n.subs <==> Registry.SubKey(req, p) in r.subs)
      && (p in n.subs ==> r.subs[Registry.SubKey(req, p)].qos == n.subs[p].qos)
  }

  // The other path that holds the sid.
  function DisplacedBy(n: Node, p: Path, sid: Sid): Option<Path> {
    if sid in n.sids && !SameSub(n, p, sid) then Some(n.sids[sid]) else None
  }

  // What the registry sees of a request; `keys` lists the subscriptions that closing the link
  // has collected.
  function SeenAs(n: Node, req: Path, e: Event, target: Registry.Target, keys: seq<Registry.SubKey>): Option<Registry.Event> {
    match e
    case SubscribeEvent(p, sid, qos, _) =>
      Some(Registry.SubscribeEvent(Registry.SubKey(req, p), qos, DisplacedBy(n, p, sid), target))
    case UnsubscribeEvent(sid) =>
      if sid in n.sids then Some(Registry.UnsubscribeEvent(Registry.SubKey(req, n.sids[sid]))) else None
    case DisconnectEvent => Some(Registry.RequesterGoneEvent(req, keys))
    case _ => None
  }

  // The list holds the subscriptions below QoS 2, in any order.
  ghost predicate Collected(n: Node, req: Path, keys: seq<Registry.SubKey>) {
    forall k :: k in keys <==> k.req == req && k.path in n.subs && n.subs[k.path].qos <= 1
  }

  function RegistryStep(r: Registry.Reg, e: Option<Registry.Event>): Registry.Reg
    requires e.Some? ==> Registry.Enabled(r, e.value)
  {
    if e.Some? then Registry.Step(r, e.value) else r
  }

  // ---------- what the steps do to paths and QoS ----------

  lemma PumpQos(n: Node, p: Path)
    requires p in n.subs
    ensures var m := Pump(n, p); m.subs.Keys == n.subs.Keys && forall q | q in n.subs :: m.subs[q].qos == n.subs[q].qos
  {
    hide Pump, DeliveryInvariants.FreshAcks, DeliveryInvariants.MarkSent, DeliveryInvariants.Msgs, DeliveryInvariants.Logged;
    var _ := DeliveryInvariants.PumpEffect(n, p);
  }

  lemma OfferQos(n: Node, p: Path, msg: Message)
    requires p in n.subs
    ensures var m := Offer(n, p, msg); m.subs.Keys == n.subs.Keys && forall q | q in n.subs :: m.subs[q].qos == n.subs[q].qos
  {
    hide Pump;
    PumpQos(Enqueue(n, p, msg), p);
  }

  lemma AcknowledgeQos(n: Node, ack: nat)
    ensures var m := Acknowledge(n, ack); m.subs.Keys == n.subs.Keys && forall q | q in n.subs :: m.subs[q].qos == n.subs[q].qos
  {
    hide AckLoop, Retired;
    var _ := DeliveryInvariants.AckLoopGrown(n, Retired(n, ack));
  }

  lemma SubscribeQos(n: Node, p: Path, sid: Sid, qos: Qos, last: Option<Message>)
    ensures var m := Subscribe(n, p, sid, qos, last);
            && (forall q :: q in m.subs <==> q == p || (q in n.subs && DisplacedBy(n, p, sid) != Some(q)))
            && (forall q | q in m.subs :: m.subs[q].qos == if q == p then qos else n.subs[q].qos)
  {
    hide Subscribe;
    SubscribedQos(n, p, sid, qos, last);
    forall q | q != p
      ensures var m := Subscribe(n, p, sid, qos, last);
              (q in m.subs <==> q in n.subs && DisplacedBy(n, p, sid) != Some(q)) && (q in m.subs ==> m.subs[q] == n.subs[q])
    {
      DeliveryRuns.SubscribeElsewhere(n, p, sid, qos, last, q);
    }
  }

  lemma SubscribedQos(n: Node, p: Path, sid: Sid, qos: Qos, last: Option<Message>)
    ensures var m := Subscribe(n, p, sid, qos, last); p in m.subs && m.subs[p].qos == qos
  {
    hide Renew, Add, Others;
    var m := if sid in n.sids then Free(n, n.sids[sid]) else n;
    if !SameSub(n, p, sid) {
      if p in m.subs {
        RenewedQos(m, p, sid, qos, last);
      } else {
        AddedQos(m, p, sid, qos, last);
      }
    }
  }

  lemma RenewedQos(n: Node, p: Path, sid: Sid, qos: Qos, last: Option<Message>)
    requires p in n.subs
    ensures var m := Renew(n, p, sid, qos, last); p in m.subs && m.subs[p].qos == qos
  {
    hide Pump, Offer;
    var m := DeliveryInvariants.Put(n, p, n.subs[p].(sid := sid, qos := qos));
    PumpQos(m, p);
    if last.Some? {
      OfferQos(m, p, last.value);
    }
  }

  lemma AddedQos(n: Node, p: Path, sid: Sid, qos: Qos, last: Option<Message>)
    ensures var m := Add(n, p, sid, qos, last); p in m.subs && m.subs[p].qos == qos
  {
    hide Offer;
    if last.Some? {
      OfferQos(n.(subs := n.subs[p := NewSub(sid, qos)], sids := n.sids[sid := p]), p, last.value);
    }
  }

  lemma RegistrySubscribe(r: Registry.Reg, k: Registry.SubKey, qos: Registry.Qos, displaced: Option<Path>, target: Registry.Target)
    requires displaced != Some(k.path)
    ensures var t := Registry.Subscribe(r, k, qos, displaced, target);
            && (forall q :: q in t.subs <==> q == k || (q in r.subs && !(displaced.Some? && q == Registry.SubKey(k.req, displaced.value))))
            && (forall q | q in t.subs :: t.subs[q].qos == if q == k then qos else r.subs[q].qos)
  {
    hide Registry.Unpend, Registry.Unlink, Registry.UpdateQos, Registry.Attach, Registry.Pend;
    var s := if displaced.Some? then Registry.Free(r, Registry.SubKey(k.req, displaced.value)) else r;
    if displaced.Some? {
      FreeSubs(r, Registry.SubKey(k.req, displaced.value));
    }
    if k in s.subs {
      UpdateSubs(s, k, qos);
    } else {
      var added := s.(subs := s.subs[k := Registry.Sub(qos, None, None)]);
      match target
      case Missing => PendSubs(added, k, Registry.WaitsIn(k.path));
      case Local(node) => RegistryRuns.AttachSubs(added, k, Registry.LocalStream(node));
      case Remote(node, rest) => RegistryRuns.AttachSubs(added, k, Registry.RemoteStream(node, rest));
    }
  }

  lemma FreeSubs(r: Registry.Reg, k: Registry.SubKey)
    ensures Registry.Free(r, k).subs == r.subs - {k}
  {
    hide Registry.RemoveKey, Registry.Unlink, Registry.Unpend;
    if k in r.subs {
      UnpendUnlinkSubs(r, k);
    } else {
      assert r.subs - {k} == r.subs;
    }
  }

  lemma UnpendUnlinkSubs(r: Registry.Reg, k: Registry.SubKey)
    requires k in r.subs
    ensures var t := Registry.Unpend(r, k); k in t.subs && t.subs - {k} == r.subs - {k} && Registry.Unlink(t, k).subs == t.subs
  {
    hide Registry.RemoveKey;
  }

  lemma UpdateSubs(r: Registry.Reg, k: Registry.SubKey, qos: Registry.Qos)
    requires k in r.subs
    ensures Registry.UpdateQos(r, k, qos).subs == r.subs[k := r.subs[k].(qos := qos)]
  {
    assert r.subs[k].qos == qos ==> r.subs[k := r.subs[k].(qos := qos)] == r.subs;
  }

  lemma PendSubs(r: Registry.Reg, k: Registry.SubKey, list: Option<Registry.PendingKey>)
    requires k in r.subs
    ensures var t := Registry.Pend(r, k, list);
            t.subs.Keys == r.subs.Keys && forall q | q in r.subs :: t.subs[q].qos == r.subs[q].qos
  {
  }

  lemma {:induction false} FreeAllSubs(r: Registry.Reg, ks: seq<Registry.SubKey>)
    ensures forall k :: k in Registry.FreeAll(r, ks).subs <==> k in r.subs && k !in ks
    ensures forall k | k in Registry.FreeAll(r, ks).subs :: Registry.FreeAll(r, ks).subs[k] == r.subs[k]
  {
    hide Registry.Free;
    if ks != [] {
      var front, last := ks[..|ks| - 1], ks[|ks| - 1];
      assert ks == front + [last];
      FreeAllSubs(r, front);
      FreeSubs(Registry.FreeAll(r, front), last);
    }
  }

  // ---------- the two sides ----------

  // Same paths and QoS before and after.
  ghost predicate SameQos(r: Registry.Reg, t: Registry.Reg) {
    t.subs.Keys == r.subs.Keys && forall k | k in r.subs :: t.subs[k].qos == r.subs[k].qos
  }

  ghost predicate SameHere(n: Node, m: Node) {
    m.subs.Keys == n.subs.Keys && forall p | p in n.subs :: m.subs[p].qos == n.subs[p].qos
  }

  lemma SameTogether(n: Node, m: Node, r: Registry.Reg, t: Registry.Reg, req: Path)
    requires Together(n, r, req) && SameHere(n, m) && SameQos(r, t)
    ensures Together(m, t, req)
  {
  }

  lemma SubscribeTogether(n: Node, r: Registry.Reg, req: Path, p: Path, sid: Sid, qos: Qos, last: Option<Message>, target: Registry.Target)
    requires Together(n, r, req)
    requires DisplacedBy(n, p, sid) != Some(p)
    ensures Together(Subscribe(n, p, sid, qos, last),
                     Registry.Subscribe(r, Registry.SubKey(req, p), qos, DisplacedBy(n, p, sid), target), req)
  {
    hide Subscribe, Registry.Subscribe, DisplacedBy;
    SubscribeQos(n, p, sid, qos, last);
    RegistrySubscribe(r, Registry.SubKey(req, p), qos, DisplacedBy(n, p, sid), target);
  }

  lemma UnsubscribeTogether(n: Node, r: Registry.Reg, req: Path, sid: Sid)
    requires Together(n, r, req) && sid in n.sids
    ensures Together(Unsubscribe(n, sid), Registry.Free(r, Registry.SubKey(req, n.sids[sid])), req)
  {
    hide Registry.Free, Others;
    FreeSubs(r, Registry.SubKey(req, n.sids[sid]));
    assert Unsubscribe(n, sid).subs == n.subs - {n.sids[sid]};
  }

  lemma DisconnectTogether(n: Node, r: Registry.Reg, req: Path, keys: seq<Registry.SubKey>)
    requires Together(n, r, req) && Collected(n, req, keys)
    ensures Together(Disconnect(n), Registry.FreeAll(r, keys), req)
    ensures forall k | k in keys :: k.req == req && k in r.subs && r.subs[k].qos <= 1
  {
    hide Registry.FreeAll, ClearIds;
    FreeAllSubs(r, keys);
  }

  /** Every event of the requester keeps the two sides together, and what the registry sees of
      it is enabled there. */
  lemma StepTogether(n: Node, r: Registry.Reg, req: Path, e: Event, target: Registry.Target, keys: seq<Registry.SubKey>)
    requires DeliveryInvariants.Inv(n) && Together(n, r, req) && Enabled(n, e) && Collected(n, req, keys)
    ensures var seen := SeenAs(n, req, e, target, keys);
            && (seen.Some? ==> Registry.Enabled(r, seen.value))
            && Together(Step(n, e), RegistryStep(r, seen), req)
  {
    hide DeliveryInvariants.Conserved, DeliveryInvariants.SubInv, Offer, Acknowledge, Subscribe, Unsubscribe, Disconnect,
         Registry.Subscribe, Registry.Free, Registry.FreeAll, Together, Collected;
    match e
    case OfferEvent(p, msg) =>
      OfferQos(n, p, msg);
      SameTogether(n, Step(n, e), r, r, req);
    case AckEvent(ack) =>
      AcknowledgeQos(n, ack);
      SameTogether(n, Step(n, e), r, r, req);
    case SubscribeEvent(p, sid, qos, last) =>
      SubscribeTogether(n, r, req, p, sid, qos, last, target);
    case UnsubscribeEvent(sid) =>
      if sid in n.sids {
        UnsubscribeTogether(n, r, req, sid);
      } else {
        assert Unsubscribe(n, sid) == n by { NotThere(n, sid); }
      }
    case DisconnectEvent =>
      DisconnectTogether(n, r, req, keys);
    case _ => SameTogether(n, Step(n, e), r, r, req);
  }

  lemma NotThere(n: Node, sid: Sid)
    requires sid !in n.sids
    ensures Unsubscribe(n, sid) == n
  {
  }

  // ---------- what others do ----------

  // The registry's event is not about a subscription of the requester.
  predicate Foreign(e: Registry.Event, req: Path) {
    match e
    case SubscribeEvent(k, _, _, _) => k.req != req
    case UnsubscribeEvent(k) => k.req != req
    case RequesterGoneEvent(other, _) => other != req
    case _ => true
  }

  lemma {:induction false} ScatterQos(r: Registry.Reg, m: Registry.Subs, s: Registry.StreamKey)
    ensures SameQos(r, Registry.Scatter(r, m, s))
  {
    hide Registry.WaitsBehind;
    if m != [] {
      ScatterQos(r, m[..|m| - 1], s);
    }
  }

  lemma {:induction false} AttachAllQos(r: Registry.Reg, ks: seq<Registry.SubKey>, pk: Registry.PendingKey)
    ensures SameQos(r, Registry.AttachAll(r, ks, pk))
  {
    hide Registry.Attach, Registry.StreamFor;
    if ks != [] {
      var t, k := Registry.AttachAll(r, ks[..|ks| - 1], pk), ks[|ks| - 1];
      AttachAllQos(r, ks[..|ks| - 1], pk);
      if k in t.subs {
        RegistryRuns.AttachSubs(t, k, Registry.StreamFor(pk, k.path));
      }
    }
  }

  lemma {:induction false} DismissQos(r: Registry.Reg, ks: seq<Registry.SubKey>)
    ensures SameQos(r, Registry.Dismiss(r, ks))
  {
    if ks != [] {
      DismissQos(r, ks[..|ks| - 1]);
    }
  }

  lemma ArriveQos(r: Registry.Reg, pk: Registry.PendingKey)
    ensures SameQos(r, Registry.Arrive(r, pk))
  {
    hide Registry.AttachAll, Registry.Dismiss;
    if pk in r.pending {
      var ks, t := r.pending[pk], r.(pending := r.pending - {pk});
      AttachAllQos(t, ks, pk);
      DismissQos(Registry.AttachAll(t, ks, pk), ks);
    }
  }

  /** Nor does anything part them that happens to other requesters, to nodes or to streams. */
  lemma ForeignTogether(n: Node, r: Registry.Reg, req: Path, e: Registry.Event)
    requires Together(n, r, req) && Registry.Enabled(r, e) && Foreign(e, req)
    ensures Together(n, Registry.Step(r, e), req)
  {
    hide Registry.Subscribe, Registry.Free, Registry.FreeAll, Registry.Arrive, Registry.Scatter;
    match e
    case SubscribeEvent(k, qos, displaced, target) => RegistrySubscribe(r, k, qos, displaced, target);
    case UnsubscribeEvent(k) => FreeSubs(r, k);
    case RequesterGoneEvent(_, keys) => FreeAllSubs(r, keys);
    case ResponderGoneEvent(_) =>
    case ConnectEvent(node) => ArriveQos(Registry.Announce(r, node), Registry.RemotePending(node));
    case NodeAddedEvent(node) => ArriveQos(r, Registry.LocalPending(node));
    case StreamFreedEvent(s) =>
      if s in r.streams {
        ScatterQos(r, r.streams[s].reqSubs, s);
      }
  }
}
