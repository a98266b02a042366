/** Which values leave a ring, and where a QoS 2 subscription resumes. */
module DeliveryLoss {
  import opened Common
  import opened Ring
  import opened Delivery
  import opened DeliveryInvariants
  import opened DeliveryOrder
  import opened DeliveryRuns

  // ---------- no silent loss ----------

  /** t is s after dropping some slots from the front, each sent under an id of at most
      `ack`, and giving ids above `floor` to some of the others. */
  ghost predicate Shed(s: Sub, t: Sub, floor: nat, ack: nat) {
    && |t.queue| <= |s.queue| && t.offered == s.offered
    && var d := |s.queue| - |t.queue|;
       && (forall i | 0 <= i < d :: 0 < s.queue[i].id <= ack)
       && (forall i | d <= i < |s.queue| ::
             && t.queue[i - d].msg == s.queue[i].msg
             && (t.queue[i - d].id == s.queue[i].id || t.queue[i - d].id > floor))
  }

  lemma SendSheds(s: Sub, t: Sub, floor: nat, ack: nat, total: nat, k: nat)
    requires Shed(s, t, floor, ack) && floor <= total && total + k <= ID_PERIOD
    requires t.inFlight + k <= Max(t.inFlight, |t.queue|)
    ensures Shed(s, SendSub(t, total, k), floor, ack)
  {
  }

  lemma SettleSheds(s: Sub, t: Sub, floor: nat, ack: nat, id: nat)
    requires Shed(s, t, floor, ack) && id <= ack && id <= floor
    ensures Shed(s, t.(queue := DropAcked(t.queue, id), inFlight := Decrement(t.inFlight)), floor, ack)
  {
    var d, c := |s.queue| - |t.queue|, AckedCount(t.queue, id);
    forall i | 0 <= i < d + c ensures 0 < s.queue[i].id <= ack {
      if i >= d {
        assert t.queue[i - d].id == s.queue[i].id;
      }
    }
  }

  lemma AckOneSheds(n: Node, i: nat, q: Path, s: Sub, floor: nat, ack: nat)
    requires i < |n.acks| && q in n.subs && Shed(s, n.subs[q], floor, ack)
    requires floor <= n.total && n.acks[i].id <= floor && n.acks[i].id <= ack
    requires AckOne(n, i).total <= ID_PERIOD
    ensures q in AckOne(n, i).subs && Shed(s, AckOne(n, i).subs[q], floor, ack)
  {
    hide Shed, Pump, DropAcked, NextId, MarkSent;
    if n.acks[i].path != q {
      AckOneElsewhere(n, i, q);
    } else {
      var m := Settle(n, q, n.acks[i].id);
      SettleSheds(s, n.subs[q], floor, ack, n.acks[i].id);
      var k := PumpEffect(m, q);
      if |m.subs[q].queue| < |n.subs[q].queue| {
        SendSheds(s, m.subs[q], floor, ack, m.total, k);
      }
    }
  }

  lemma {:induction false} AckLoopSheds(n: Node, i: nat, q: Path, s: Sub, floor: nat, ack: nat)
    requires i <= |n.acks| && q in n.subs && Shed(s, n.subs[q], floor, ack)
    requires floor <= n.total && forall j | 0 <= j < i :: n.acks[j].id <= floor && n.acks[j].id <= ack
    requires AckLoop(n, i).total <= ID_PERIOD
    ensures q in AckLoop(n, i).subs && Shed(s, AckLoop(n, i).subs[q], floor, ack)
    decreases i
  {
    hide Shed, AckOne;
    if i > 0 {
      var m := AckOne(n, i - 1);
      var _ := AckOneGrown(n, i - 1);
      var _ := AckLoopGrown(m, i - 1);
      AckOneSheds(n, i - 1, q, s, floor, ack);
      AckLoopSheds(m, i - 1, q, s, floor, ack);
    }
  }

  /** How an event may shorten the ring of a subscription that survives it. */
  ghost predicate LeavesOpenly(s: Sub, t: Sub, ring: nat, e: Event) {
    var left := Base(t) - Base(s);
    && s.offered <= t.offered && |t.offered| <= |s.offered| + 1
    && 0 <= left <= |s.queue|
    && if e.AckEvent? then t.offered == s.offered && forall i | 0 <= i < left :: 0 < s.queue[i].id <= e.ack
       else left == if |s.queue| == ring && |t.offered| > |s.offered| then 1 else 0
  }

  lemma OfferLeaves(n: Node, p: Path, msg: Message)
    requires p in n.subs && n.cfg.ring > 0 && |n.subs[p].queue| <= n.cfg.ring
    ensures p in Offer(n, p, msg).subs
    ensures var t := Offer(n, p, msg).subs[p];
            && t.offered == n.subs[p].offered + [msg]
            && |t.queue| == Min(|n.subs[p].queue| + 1, n.cfg.ring)
  {
    hide Pump;
    var _ := PumpEffect(Enqueue(n, p, msg), p);
  }

  lemma AcknowledgeLeaves(n: Node, ack: nat, p: Path)
    requires Inv(n) && Sorted(n) && p in n.subs && Acknowledge(n, ack).total <= ID_PERIOD
    ensures p in Acknowledge(n, ack).subs
    ensures LeavesOpenly(n.subs[p], Acknowledge(n, ack).subs[p], n.cfg.ring, AckEvent(ack))
  {
    hide AckLoop, Conserved, Indexed, Msgs, Logged, Retired;
    RetiredExact(n, ack);
    AckLoopSheds(n, Retired(n, ack), p, n.subs[p], n.total, ack);
    assert Lossless(n.subs[p], n.cfg.ring) by { assert SubInv(n, p); }
    hide Inv, Sorted;
  }

  lemma RenewLeaves(n: Node, p: Path, sid: Sid, qos: Qos, last: Option<Message>)
    requires p in n.subs && n.cfg.ring > 0 && Lossless(n.subs[p], n.cfg.ring)
    ensures p in Renew(n, p, sid, qos, last).subs
    ensures LeavesOpenly(n.subs[p], Renew(n, p, sid, qos, last).subs[p], n.cfg.ring, SubscribeEvent(p, sid, qos, last))
  {
    hide Pump, Msgs, Logged, Offer, MarkSent, FreshAcks;
    var r := Put(n, p, n.subs[p].(sid := sid, qos := qos));
    if qos == 2 {
      var _ := PumpEffect(r, p);
    } else if last.Some? {
      OfferLeaves(r, p, last.value);
    }
  }

  lemma SubscribeLeaves(n: Node, p: Path, sid: Sid, qos: Qos, last: Option<Message>)
    requires Inv(n) && p in n.subs
    ensures p in Subscribe(n, p, sid, qos, last).subs
    ensures LeavesOpenly(n.subs[p], Subscribe(n, p, sid, qos, last).subs[p], n.cfg.ring, SubscribeEvent(p, sid, qos, last))
  {
    hide Renew, Conserved, Msgs, Logged, Others;
    assert SubInv(n, p);
    if !SameSub(n, p, sid) {
      var m := if sid in n.sids then Free(n, n.sids[sid]) else n;
      RenewLeaves(m, p, sid, qos, last);
    }
  }

  lemma SubscribeSpares(n: Node, p: Path, sid: Sid, qos: Qos, last: Option<Message>, q: Path)
    requires Inv(n) && q != p && q in n.subs && q in Subscribe(n, p, sid, qos, last).subs
    ensures LeavesOpenly(n.subs[q], Subscribe(n, p, sid, qos, last).subs[q], n.cfg.ring, SubscribeEvent(p, sid, qos, last))
  {
    hide Subscribe;
    SubscribeElsewhere(n, p, sid, qos, last, q);
  }

  /** No silent loss: whatever the event, a value leaves the ring of a subscription that
      survives it only because its own id was acked, or as the oldest of a full ring. */
  lemma StepLeavesOpenly(n: Node, e: Event, p: Path)
    requires Inv(n) && Sorted(n) && Enabled(n, e) && Step(n, e).total <= ID_PERIOD
    requires p in n.subs && p in Step(n, e).subs
    ensures LeavesOpenly(n.subs[p], Step(n, e).subs[p], n.cfg.ring, e)
  {
    hide Pump, Acknowledge, Subscribe, Conserved, Indexed, Sorted, ClearIds, Msgs, Logged;
    assert SubInv(n, p);
    match e
    case OfferEvent(path, msg) =>
      if path == p {
        OfferLeaves(n, p, msg);
      } else {
        OfferElsewhere(n, path, msg);
      }
    case AckEvent(ack) => AcknowledgeLeaves(n, ack, p);
    case SubscribeEvent(path, sid, qos, last) =>
      if path == p {
        SubscribeLeaves(n, p, sid, qos, last);
      } else {
        SubscribeSpares(n, path, sid, qos, last, p);
      }
    case _ =>
  }

  // ---------- resuming at QoS 2 ----------

  // A QoS 2 subscription whose requester is away.
  ghost predicate Waiting(s: Sub) {
    && s.sid == NO_SID && s.qos == 2 && s.inFlight == 0 && s.sent == []
    && forall i | 0 <= i < |s.queue| :: s.queue[i].id == 0
  }

  // t is s after some more values, with the oldest evicted once the ring is full.
  ghost predicate Kept(s: Sub, t: Sub, ring: nat) {
    && s.offered <= t.offered
    && |t.queue| == Min(|s.queue| + |t.offered| - |s.offered|, ring)
  }

  lemma DisconnectWaits(n: Node, p: Path)
    requires Inv(n) && AlignedAt(n, p) && n.subs[p].qos == 2
    ensures var m := Disconnect(n);
            && p in m.subs && Waiting(m.subs[p])
            && Msgs(m.subs[p].queue) == Msgs(n.subs[p].queue) && m.subs[p].offered == n.subs[p].offered
  {
    hide ClearIds;
    ClearIdsEffect(n.subs[p].queue, n.subs[p].inFlight);
  }

  lemma NoPump(n: Node, p: Path)
    requires p in n.subs && !Live(n, p)
    ensures Pump(n, p) == n
  {
  }

  lemma AckSparesIdle(n: Node, ack: nat, p: Path)
    requires Inv(n) && p in n.subs && n.subs[p].inFlight == 0
    ensures p in Acknowledge(n, ack).subs && Acknowledge(n, ack).subs[p] == n.subs[p]
  {
    hide AckLoop;
    var last := Retired(n, ack);
    assert BalancedSub(n, p, [], IdsFor(n.acks, p));
    IdsForPrefix(n.acks, last, p);
    forall j | 0 <= j < last ensures n.acks[j].path != p {
      if n.acks[j].path == p {
        IdsForMember(n.acks, p, j);
        assert false;
      }
    }
    DrainedLoop(n, last, p);
  }

  lemma WaitingStep(n: Node, e: Event, p: Path)
    requires Inv(n) && Enabled(n, e) && p in n.subs && Waiting(n.subs[p])
    requires e.SubscribeEvent? ==> e.path != p && e.sid != NO_SID
    ensures p in Step(n, e).subs
    ensures Waiting(Step(n, e).subs[p]) && Kept(n.subs[p], Step(n, e).subs[p], n.cfg.ring)
  {
    hide Pump, Acknowledge, Subscribe, Conserved, Msgs, Logged;
    assert SubInv(n, p);
    match e
    case OfferEvent(path, msg) =>
      if path == p {
        NoPump(Enqueue(n, p, msg), p);
      } else {
        OfferElsewhere(n, path, msg);
      }
    case AckEvent(ack) => AckSparesIdle(n, ack, p);
    case SubscribeEvent(path, sid, qos, last) => SubscribeSparesWaiting(n, path, sid, qos, last, p);
    case _ =>
  }

  lemma SubscribeSparesWaiting(n: Node, p: Path, sid: Sid, qos: Qos, last: Option<Message>, q: Path)
    requires Inv(n) && q != p && q in n.subs && n.subs[q].sid == NO_SID
    ensures q in Subscribe(n, p, sid, qos, last).subs && Subscribe(n, p, sid, qos, last).subs[q] == n.subs[q]
  {
    hide Subscribe, Conserved;
    assert sid in n.sids ==> n.sids[sid] != q;
    SubscribeElsewhere(n, p, sid, qos, last, q);
  }

  lemma {:induction false} WaitingRun(run: seq<Node>, es: seq<Event>, p: Path)
    requires IsRun(run, es) && Inv(run[0]) && p in run[0].subs && Waiting(run[0].subs[p])
    requires forall e | e in es && e.SubscribeEvent? :: e.path != p && e.sid != NO_SID
    ensures Inv(run[|es|]) && run[|es|].cfg == run[0].cfg && p in run[|es|].subs
    ensures Waiting(run[|es|].subs[p]) && Kept(run[0].subs[p], run[|es|].subs[p], run[0].cfg.ring)
  {
    hide Step, Waiting, Conserved, Indexed;
    assert SubInv(run[0], p);
    if es != [] {
      var k := |es| - 1;
      assert IsRun(run[..k + 1], es[..k]);
      WaitingRun(run[..k + 1], es[..k], p);
      assert run[k + 1] == Step(run[k], es[k]);
      WaitingStep(run[k], es[k], p);
      StepKeeps(run[k], es[k]);
      StepConfig(run[k], es[k]);
    }
  }

  /** A QoS 2 subscription resumes where its acks stopped. Its requester goes away, any
      events follow that do not subscribe its path, and when the requester subscribes it
      again the first window of its ring is sent: the ring then holds the values that were
      unacked at the disconnect and those offered since, nothing skipped, except that a
      full ring has dropped its oldest. */
  lemma ResumeAtOldestUnacked(n: Node, run: seq<Node>, es: seq<Event>, p: Path, sid: Sid, last: Option<Message>)
    requires Inv(n) && n.online && AlignedAt(n, p) && n.subs[p].qos == 2
    requires IsRun(run, es) && run[0] == Disconnect(n)
    requires forall e | e in es && e.SubscribeEvent? :: e.path != p && e.sid != NO_SID
    requires run[|es|].online && sid != NO_SID
    ensures p in run[|es|].subs
    ensures var t := Subscribe(run[|es|], p, sid, 2, last);
            && p in t.subs
            && var s := t.subs[p];
               && n.subs[p].offered <= s.offered
               && Base(s) == Max(Base(n.subs[p]), |s.offered| - n.cfg.ring)
               && s.sent == s.offered[Base(s)..Base(s) + Min(n.cfg.window, |s.queue|)]
  {
    hide Disconnect, Pump, Conserved, Indexed, IdsFor, Msgs, Logged, Free;
    DisconnectKeeps(n);
    DisconnectWaits(n, p);
    assert run[0].cfg == n.cfg by { StepConfig(n, DisconnectEvent); }
    WaitingRun(run, es, p);
    var m := run[|es|];
    assert SubInv(n, p) && SubInv(m, p);
    ResumeSends(m, p, sid, last);
  }

  lemma ResumeSends(n: Node, p: Path, sid: Sid, last: Option<Message>)
    requires Inv(n) && n.online && p in n.subs && Waiting(n.subs[p]) && sid != NO_SID
    ensures var t := Subscribe(n, p, sid, 2, last);
            && p in t.subs && t.subs[p].offered == n.subs[p].offered && |t.subs[p].queue| == |n.subs[p].queue|
            && t.subs[p].sent == Msgs(n.subs[p].queue[..Min(n.cfg.window, |n.subs[p].queue|)])
  {
    hide Pump, Conserved, IdsFor, Msgs, Logged, NextId, MarkSent;
    assert sid in n.sids ==> n.sids[sid] != p;
    var m := if sid in n.sids then Free(n, n.sids[sid]) else n;
    var r := m.(subs := m.subs[p := m.subs[p].(sid := sid, qos := 2)], sids := (m.sids - {m.subs[p].sid})[sid := p]);
    PumpFills(r, p);
    assert Msgs([]) == [];
  }
}
