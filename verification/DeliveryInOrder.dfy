/** In-order delivery: for every event and every run, exactly when the values sent for a
    subscription on a connection stay a contiguous run of the values offered to it. */
module DeliveryInOrder {
  import opened Common
  import opened Ring
  import opened Delivery
  import opened DeliveryInvariants
  import opened DeliveryOrder
  import opened DeliveryRuns

  // ---------- positions in order ----------

  ghost predicate Contiguous(at: seq<int>) {
    forall i | 0 <= i < |at| :: at[i] == at[0] + i
  }

  /** What the client sees: the values sent are a run of the values offered. */
  lemma ContiguousValues(s: Sub, ring: nat)
    requires Lossless(s, ring) && Contiguous(s.at) && s.at != []
    ensures 0 <= s.at[0] && s.at[0] + |s.at| <= |s.offered| && |s.sent| == |s.at|
    ensures s.sent == s.offered[s.at[0]..s.at[0] + |s.at|]
  {
    assert s.at[|s.at| - 1] < |s.offered|;
  }

  // The position behind the last value sent.
  function Next(s: Sub): int
    requires s.at != []
  {
    s.at[|s.at| - 1] + 1
  }

  // An unsent value behind the last one sent has been evicted.
  ghost predicate Missed(s: Sub) {
    s.at != [] && Next(s) < Base(s)
  }

  /** As long as the order holds, what was sent ends where the unsent slots begin, or has left
      the ring altogether. */
  ghost predicate Ordered(s: Sub, ring: nat) {
    && Contiguous(s.at)
    && (s.at == [] ==> s.inFlight == 0)
    && (s.at != [] && Lead(s.queue) > 0 ==> Next(s) == Base(s) + Lead(s.queue))
    && (s.at != [] && Lead(s.queue) == 0 ==> Next(s) <= Base(s))
    && (Missed(s) ==> |s.queue| == ring)
  }

  // ---------- pushing and pumping ----------

  lemma PushTrail(s: Sub, ids: seq<nat>, ring: nat, msg: Message)
    requires Trail(s, ids, ring) && Ordered(s, ring) && |s.queue| <= ring && ring > 0
    ensures var t := s.(queue := AfterPush(s.queue, ring, Slot(msg, 0)), offered := s.offered + [msg]);
            && Trail(t, ids, ring) && Ordered(t, ring)
            && Lead(t.queue) == (if |s.queue| < ring || Lead(s.queue) == 0 then Lead(s.queue) else Lead(s.queue) - 1)
            && Base(t) == Base(s) + (if |s.queue| < ring then 0 else 1)
  {
    hide Lead, Contiguous;
    var l := if |s.queue| < ring || Lead(s.queue) == 0 then Lead(s.queue) else Lead(s.queue) - 1;
    LeadIs(AfterPush(s.queue, ring, Slot(msg, 0)), l);
  }

  // The next value sent is the next one offered.
  ghost predicate Joins(s: Sub) {
    s.at == [] || (Lead(s.queue) == s.inFlight && !Missed(s))
  }

  /** Sending from the counter keeps the order exactly when nothing is sent, or the counter is
      the number of sent slots left and no unsent value behind the last one sent is gone. */
  lemma SendOrdered(s: Sub, ids: seq<nat>, ring: nat, total: nat, k: nat)
    requires Trail(s, ids, ring) && Ordered(s, ring) && s.inFlight + k <= |s.queue|
    ensures Contiguous(SendSub(s, total, k).at) <==> k == 0 || Joins(s)
    ensures k == 0 || Joins(s) ==>
              Trail(SendSub(s, total, k), ids + FreshIds(total, k), ring) && Ordered(SendSub(s, total, k), ring)
  {
    hide Lead, Msgs, NextId;
    if k == 0 {
      SendNothing(s, total);
      assert ids + FreshIds(total, 0) == ids;
    } else {
      SendSome(s, total, k);
      if Joins(s) {
        SendJoined(s, ids, ring, total, k);
      }
    }
  }

  lemma SendNothing(s: Sub, total: nat)
    ensures SendSub(s, total, 0) == s
  {
    assert MarkSent(s.queue, s.inFlight, total, 0) == s.queue && s.at + Positions(Base(s) + s.inFlight, 0) == s.at;
  }

  lemma SendSome(s: Sub, total: nat, k: nat)
    requires s.inFlight + k <= |s.queue| && k > 0 && Contiguous(s.at)
    ensures var at := SendSub(s, total, k).at;
            && (Contiguous(at) <==> s.at == [] || Base(s) + s.inFlight == Next(s))
            && at != [] && at[|at| - 1] + 1 == Base(s) + s.inFlight + k
  {
    hide MarkSent, Msgs;
    var at := SendSub(s, total, k).at;
    assert at[|s.at|] == Base(s) + s.inFlight;
  }

  lemma SendJoined(s: Sub, ids: seq<nat>, ring: nat, total: nat, k: nat)
    requires Trail(s, ids, ring) && Ordered(s, ring) && Joins(s) && 0 < k && s.inFlight + k <= |s.queue|
    ensures Lead(s.queue) == s.inFlight && (s.at != [] ==> Base(s) + s.inFlight == Next(s))
    ensures Trail(SendSub(s, total, k), ids + FreshIds(total, k), ring) && Ordered(SendSub(s, total, k), ring)
  {
    hide Lead, Contiguous, SendSub, Trail;
    JoinsAt(s, ids, ring);
    SendSome(s, total, k);
    SendTrail(s, ids, ring, total, k);
    assert Base(SendSub(s, total, k)) == Base(s) by { SentCounts(s, total, k); SentOffers(s, total, k); }
  }

  lemma SentOffers(s: Sub, total: nat, k: nat)
    requires s.inFlight + k <= Max(s.inFlight, |s.queue|)
    ensures SendSub(s, total, k).offered == s.offered
  {
  }

  lemma JoinsAt(s: Sub, ids: seq<nat>, ring: nat)
    requires Trail(s, ids, ring) && Ordered(s, ring) && Joins(s)
    ensures Lead(s.queue) == s.inFlight && (s.at != [] ==> Base(s) + s.inFlight == Next(s))
  {
    hide Lead, Contiguous;
  }

  lemma SendTrail(s: Sub, ids: seq<nat>, ring: nat, total: nat, k: nat)
    requires Trail(s, ids, ring) && Lead(s.queue) == s.inFlight && s.inFlight + k <= |s.queue|
    ensures Trail(SendSub(s, total, k), ids + FreshIds(total, k), ring) && Lead(SendSub(s, total, k).queue) == s.inFlight + k
  {
    hide Lead, Msgs, NextId, Positions, Trail, MarkSent, FreshIds;
    var t := SendSub(s, total, k);
    assert t.queue == MarkSent(s.queue, s.inFlight, total, k) && t.inFlight == s.inFlight + k;
    hide SendSub;
    MarkedTrail(s, t, ids, ring, total, k);
  }

  lemma MarkedTrail(s: Sub, t: Sub, ids: seq<nat>, ring: nat, total: nat, k: nat)
    requires Trail(s, ids, ring) && Lead(s.queue) == s.inFlight && s.inFlight + k <= |s.queue|
    requires t.queue == MarkSent(s.queue, s.inFlight, total, k) && t.inFlight == s.inFlight + k
    ensures Trail(t, ids + FreshIds(total, k), ring) && Lead(t.queue) == s.inFlight + k
  {
    hide Lead, NextId;
    LeadIs(t.queue, s.inFlight + k);
  }

  // The same for a subscription that may have been renewed.
  ghost predicate TrailsAt(n: Node, p: Path) {
    p in n.subs ==> Trail(n.subs[p], IdsFor(n.acks, p), n.cfg.ring) && Ordered(n.subs[p], n.cfg.ring)
  }

  ghost predicate InOrderAt(n: Node, p: Path) {
    p in n.subs ==> Contiguous(n.subs[p].at)
  }

  lemma PumpOrder(n: Node, p: Path)
    requires p in n.subs && TrailsAt(n, p) && n.subs[p].inFlight <= n.cfg.window
    ensures var s := n.subs[p];
            var kept := !Live(n, p) || s.inFlight >= Min(n.cfg.window, |s.queue|) || Joins(s);
            p in Pump(n, p).subs && (InOrderAt(Pump(n, p), p) <==> kept) && (kept ==> TrailsAt(Pump(n, p), p))
  {
    hide Pump, IdsFor, Lead, Ordered, Contiguous, Joins, NextId, MarkSent, Msgs, Positions, FreshAcks;
    var s := n.subs[p];
    PumpFills(n, p);
    var k := if Live(n, p) then Room(s, n.cfg.window) else 0;
    SendOrdered(s, IdsFor(n.acks, p), n.cfg.ring, n.total, k);
    IdsForAppend(n.acks, FreshAcks(p, n.total, k), p);
    IdsForFresh(p, n.total, k, p);
    OrderedIsContiguous(s, n.cfg.ring);
  }

  lemma OrderedIsContiguous(s: Sub, ring: nat)
    requires Ordered(s, ring)
    ensures Contiguous(s.at)
  {
  }

  // ---------- offering ----------

  /** An offer keeps the order exactly when nothing was sent yet, the ring has room, or the
      window is full. */
  ghost predicate OfferInOrder(s: Sub, cfg: Config) {
    s.at == [] || |s.queue| < cfg.ring || s.inFlight >= Min(cfg.window, cfg.ring)
  }

  // Nothing is sent for a subscription that is not live.
  lemma SilentOrLive(n: Node, p: Path)
    requires Inv(n) && p in n.subs
    ensures (Live(n, p) || n.subs[p].at == []) && n.subs[p].inFlight <= n.cfg.window
    ensures |n.subs[p].queue| <= n.cfg.ring && n.cfg.ring > 0
  {
    hide Msgs, IdsFor;
    assert SubInv(n, p) && BalancedSub(n, p, [], IdsFor(n.acks, p));
  }

  lemma OfferOrder(n: Node, p: Path, msg: Message)
    requires Inv(n) && p in n.subs && TrailsAt(n, p)
    ensures p in Offer(n, p, msg).subs
    ensures InOrderAt(Offer(n, p, msg), p) <==> OfferInOrder(n.subs[p], n.cfg)
    ensures OfferInOrder(n.subs[p], n.cfg) ==> TrailsAt(Offer(n, p, msg), p)
  {
    hide Pump, IdsFor, Lead, Contiguous, Inv;
    var s := n.subs[p];
    var m := Enqueue(n, p, msg);
    SilentOrLive(n, p);
    PushTrail(s, IdsFor(n.acks, p), n.cfg.ring, msg);
    PumpOrder(m, p);
  }

  // ---------- acknowledging ----------

  /** An ack keeps the order exactly when it retires one entry, or only entries whose slots
      are gone, or leaves fewer slots than were counted. */
  ghost predicate AckInOrder(s: Sub, r: nat) {
    r <= Max(1, Gone(s)) || |s.queue| - Popped(s, r) < s.inFlight
  }

  lemma AckedOrder(s: Sub, ids: seq<nat>, ring: nat, r: nat, total: nat, k: nat, window: nat)
    requires Trail(s, ids, ring) && Ordered(s, ring) && r <= |ids| <= window && |s.queue| <= ring && k == AckRoom(s, r, window)
    ensures var t := AckedSub(s, r, total, k);
            && (Contiguous(t.at) <==> AckInOrder(s, r))
            && (AckInOrder(s, r) ==> Trail(t, ids[r..] + FreshIds(total, k), ring) && Ordered(t, ring))
  {
    hide NextId, FreshIds, Lead, Trail, Ordered, Contiguous, SendSub;
    OrderedIsContiguous(s, ring);
    TrailBounds(s, ids, ring);
    if r <= Gone(s) {
      assert ids[r..] + FreshIds(total, 0) == ids[r..];
      CountedDown(s, ids, ring, r);
    } else {
      var d := Popped(s, r);
      var v := s.(queue := s.queue[d..], inFlight := s.inFlight - r);
      PoppedOrder(s, ids, ring, r);
      if k == 0 {
        assert ids[r..] + FreshIds(total, 0) == ids[r..];
        SendNothing(s.(queue := s.queue[d..], inFlight := s.inFlight - 1), total);
      } else if r == 1 {
        SendOrdered(v, ids[r..], ring, total, k);
      } else {
        Overtakes(s, ids, ring, r, total, k);
      }
    }
  }

  // Retired entries whose slots are gone only count down.
  lemma CountedDown(s: Sub, ids: seq<nat>, ring: nat, r: nat)
    requires Trail(s, ids, ring) && Ordered(s, ring) && r <= Gone(s)
    ensures Trail(s.(inFlight := s.inFlight - r), ids[r..], ring) && Ordered(s.(inFlight := s.inFlight - r), ring)
  {
    hide Lead, Contiguous;
  }

  // The others take their slots along.
  lemma PoppedOrder(s: Sub, ids: seq<nat>, ring: nat, r: nat)
    requires Trail(s, ids, ring) && Ordered(s, ring) && Gone(s) < r <= |ids|
    ensures var v := s.(queue := s.queue[Popped(s, r)..], inFlight := s.inFlight - r);
            && Trail(v, ids[r..], ring) && Ordered(v, ring) && Joins(v) && s.at != [] && Next(s) == Base(s) + Lead(s.queue)
  {
    hide Lead, Contiguous;
    var d := Popped(s, r);
    LeadIs(s.queue[d..], Lead(s.queue) - d);
  }

  // With a slot more to send and another one still counted, the send passes that one over.
  lemma Overtakes(s: Sub, ids: seq<nat>, ring: nat, r: nat, total: nat, k: nat)
    requires Trail(s, ids, ring) && Ordered(s, ring) && Gone(s) < r <= |ids| && r > 1 && k > 0
    requires s.inFlight - 1 + k <= |s.queue| - Popped(s, r)
    ensures !Contiguous(SendSub(s.(queue := s.queue[Popped(s, r)..], inFlight := s.inFlight - 1), total, k).at)
  {
    hide Lead, Contiguous, SendSub, Trail;
    PoppedOrder(s, ids, ring, r);
    TrailBounds(s, ids, ring);
    OrderedIsContiguous(s, ring);
    SendSome(s.(queue := s.queue[Popped(s, r)..], inFlight := s.inFlight - 1), total, k);
  }

  lemma AcknowledgeOrdered(n: Node, p: Path, ack: nat)
    requires Inv(n) && Sorted(n) && p in n.subs && TrailsAt(n, p)
    ensures Lead(n.subs[p].queue) <= n.subs[p].inFlight && p in Acknowledge(n, ack).subs
    ensures InOrderAt(Acknowledge(n, ack), p) <==> AckInOrder(n.subs[p], RetiredFor(n, p, ack))
    ensures AckInOrder(n.subs[p], RetiredFor(n, p, ack)) ==> TrailsAt(Acknowledge(n, ack), p)
  {
    hide AckLoop, RetiredFor, Sorted, Inv, IdsFor, Trail, Ordered, Contiguous, AckInOrder, AckedSub, AckRoom, FreshIds, Lead, Popped;
    var total, k := AcknowledgeSub(n, p, ack);
    SilentOrLive(n, p);
    TrailBounds(n.subs[p], IdsFor(n.acks, p), n.cfg.ring);
    AckedOrder(n.subs[p], IdsFor(n.acks, p), n.cfg.ring, RetiredFor(n, p, ack), total, k, n.cfg.window);
    var _ := AckLoopGrown(n, Retired(n, ack));
  }

  // ---------- subscribing ----------

  /** A subscription keeps the order unless it moves a path to another sid and then sends:
      at QoS 2 what waits, below it the last value. */
  ghost predicate RenewInOrder(s: Sub, cfg: Config, qos: Qos, last: Option<Message>) {
    if qos == 2 then s.inFlight >= Min(cfg.window, |s.queue|) || Joins(s)
    else last.Some? ==> OfferInOrder(s, cfg)
  }

  lemma PutTrails(n: Node, p: Path, s: Sub)
    requires if p in n.subs then s == n.subs[p].(sid := s.sid, qos := s.qos) else s == NewSub(s.sid, s.qos) && forall a | a in n.acks :: a.path != p
    requires TrailsAt(n, p)
    ensures TrailsAt(Put(n, p, s), p)
  {
    hide IdsFor, Contiguous;
    if p !in n.subs {
      NoIdsFor(n.acks, p);
      assert Contiguous([]) by { NothingSent(); }
    }
  }

  lemma NothingSent()
    ensures Contiguous([])
  {
  }

  lemma RenewOrder(n: Node, p: Path, sid: Sid, qos: Qos, last: Option<Message>)
    requires Inv(n) && n.online && p in n.subs && sid !in n.sids && sid != NO_SID && TrailsAt(n, p)
    ensures p in Renew(n, p, sid, qos, last).subs
    ensures InOrderAt(Renew(n, p, sid, qos, last), p) <==> RenewInOrder(n.subs[p], n.cfg, qos, last)
    ensures RenewInOrder(n.subs[p], n.cfg, qos, last) ==> TrailsAt(Renew(n, p, sid, qos, last), p)
  {
    hide Pump, Offer, Inv, IdsFor, Trail, Contiguous, Lead, Ordered;
    var s := n.subs[p].(sid := sid, qos := qos);
    var m := Put(n, p, s);
    PutAgain(n, p, sid, qos);
    PutTrails(n, p, s);
    SilentOrLive(n, p);
    OrderedIsContiguous(n.subs[p], n.cfg.ring);
    if qos == 2 {
      PumpOrder(m, p);
    } else if last.Some? {
      OfferOrder(m, p, last.value);
    }
  }

  lemma AddOrder(n: Node, p: Path, sid: Sid, qos: Qos, last: Option<Message>)
    requires Inv(n) && n.online && p !in n.subs && sid !in n.sids && sid != NO_SID
    ensures p in Add(n, p, sid, qos, last).subs
    ensures InOrderAt(Add(n, p, sid, qos, last), p) && TrailsAt(Add(n, p, sid, qos, last), p)
  {
    hide Pump, Offer, Inv, IdsFor, Trail, Contiguous, Lead, Ordered;
    var s := NewSub(sid, qos);
    PutKeeps(n, p, s);
    NobodysAcks(n, p);
    PutTrails(n, p, s);
    OrderedIsContiguous(s, n.cfg.ring);
    if last.Some? {
      OfferOrder(Put(n, p, s), p, last.value);
    }
  }

  lemma NobodysAcks(n: Node, p: Path)
    requires Inv(n) && p !in n.subs
    ensures forall a | a in n.acks :: a.path != p
  {
  }

  lemma FreeTrails(n: Node, p: Path, q: Path)
    requires TrailsAt(n, q)
    ensures TrailsAt(Free(n, p), q) && (q == p ==> q !in Free(n, p).subs)
    ensures q in Free(n, p).subs ==> q in n.subs && Free(n, p).subs[q] == n.subs[q]
  {
    hide IdsFor, Trail, Ordered, Others;
    IdsForOthers(n.acks, p, q);
  }

  lemma SubscribeOrder(n: Node, p: Path, sid: Sid, qos: Qos, last: Option<Message>)
    requires Inv(n) && n.online && sid != NO_SID && TrailsAt(n, p)
    ensures p in Subscribe(n, p, sid, qos, last).subs
    ensures var kept := p in n.subs && !SameSub(n, p, sid) ==> RenewInOrder(n.subs[p], n.cfg, qos, last);
            var m := Subscribe(n, p, sid, qos, last);
            (InOrderAt(m, p) <==> kept) && (kept ==> TrailsAt(m, p))
  {
    hide Renew, Add, Conserved, SubInv, IdsFor, Trail, Ordered, Contiguous, RenewInOrder, Others;
    if SameSub(n, p, sid) {
      assert TrailsAt(n, p);
      RequalifyTrails(n, p, qos);
    } else {
      var m := if sid in n.sids then Free(n, n.sids[sid]) else n;
      if sid in n.sids {
        FreeKeeps(n, n.sids[sid]);
        FreeSids(n, sid);
        FreeTrails(n, n.sids[sid], p);
      }
      if p in m.subs {
        RenewOrder(m, p, sid, qos, last);
      } else {
        AddOrder(m, p, sid, qos, last);
      }
    }
  }

  lemma RequalifyTrails(n: Node, p: Path, qos: Qos)
    requires TrailsAt(n, p) && p in n.subs
    ensures var m := n.(subs := n.subs[p := n.subs[p].(qos := qos)]); TrailsAt(m, p) && InOrderAt(m, p)
  {
    hide IdsFor, Contiguous, Lead;
  }

  // An event on another path leaves the ring and the pending acks of p alone.
  lemma SubscribeSpares(n: Node, path: Path, sid: Sid, qos: Qos, last: Option<Message>, p: Path)
    requires path != p && TrailsAt(n, p)
    ensures TrailsAt(Subscribe(n, path, sid, qos, last), p)
  {
    hide Renew, Add, IdsFor, Trail, Ordered, Others;
    var m := if sid in n.sids then Free(n, n.sids[sid]) else n;
    if sid in n.sids {
      FreeTrails(n, n.sids[sid], p);
    }
    if SameSub(n, path, sid) {
    } else if path in m.subs {
      RenewSpares(m, path, sid, qos, last, p);
    } else {
      AddSpares(m, path, sid, qos, last, p);
    }
  }

  lemma OfferSpares(n: Node, path: Path, msg: Message, p: Path)
    requires path in n.subs && path != p && TrailsAt(n, p)
    ensures TrailsAt(Offer(n, path, msg), p)
  {
    hide Offer, IdsFor, Trail, Ordered;
    OfferOnlyAt(n, n, path, msg);
    if p in n.subs {
      OfferElsewhere(n, path, msg);
    }
  }

  lemma RenewSpares(n: Node, path: Path, sid: Sid, qos: Qos, last: Option<Message>, p: Path)
    requires path in n.subs && path != p && TrailsAt(n, p)
    ensures TrailsAt(Renew(n, path, sid, qos, last), p)
  {
    hide Pump, Offer, IdsFor, Trail, Ordered;
    var m := Put(n, path, n.subs[path].(sid := sid, qos := qos));
    if qos == 2 {
      PumpSpares(m, path, p);
    } else if last.Some? {
      OfferSpares(m, path, last.value, p);
    }
  }

  lemma AddSpares(n: Node, path: Path, sid: Sid, qos: Qos, last: Option<Message>, p: Path)
    requires path != p && TrailsAt(n, p)
    ensures TrailsAt(Add(n, path, sid, qos, last), p)
  {
    hide Offer, IdsFor, Trail, Ordered;
    if last.Some? {
      OfferSpares(n.(subs := n.subs[path := NewSub(sid, qos)], sids := n.sids[sid := path]), path, last.value, p);
    }
  }

  lemma PumpSpares(n: Node, path: Path, p: Path)
    requires path in n.subs && path != p && TrailsAt(n, p)
    ensures TrailsAt(Pump(n, path), p)
  {
    hide Pump, IdsFor, Trail, Ordered, FreshAcks, SendSub;
    var k := PumpEffect(n, path);
    IdsForAppend(n.acks, FreshAcks(path, n.total, k), p);
    IdsForFresh(path, n.total, k, p);
    assert IdsFor(n.acks, p) + [] == IdsFor(n.acks, p);
  }

  /** After a run out of order a new connection begins in order again exactly if closing the old
      one clears the ids of all slots sent: it clears those that the counter counts, if the ring
      still holds as many. */
  lemma DisconnectRestores(n: Node, p: Path)
    requires p in Disconnect(n).subs
    ensures var s := n.subs[p];
            TrailsAt(Disconnect(n), p) <==> forall i | (if s.inFlight > |s.queue| then 0 else s.inFlight) <= i < |s.queue| :: s.queue[i].id == 0
  {
    hide ClearIds, Lead;
    var m, s := Disconnect(n), n.subs[p];
    assert m.acks == [];
    NoIdsFor(m.acks, p);
    NothingSent();
    var q := ClearIds(s.queue, s.inFlight);
    var cleared := if s.inFlight > |s.queue| then 0 else s.inFlight;
    ClearIdsEffect(s.queue, s.inFlight);
    assert forall i | 0 <= i < |q| :: q[i].id == if i < cleared then 0 else s.queue[i].id;
    if forall i | 0 <= i < |q| :: q[i].id == 0 {
      LeadIs(q, 0);
    }
  }

  lemma ParkTrails(n: Node, p: Path)
    requires TrailsAt(n, p)
    ensures TrailsAt(Disconnect(n), p)
  {
    hide Lead, IdsFor, Ordered;
    if p in Disconnect(n).subs {
      DisconnectRestores(n, p);
      assert p in n.subs;
    }
    hide Disconnect, Trail;
  }

  lemma SameTrails(n: Node, m: Node, p: Path)
    requires TrailsAt(n, p) && m.cfg == n.cfg && m.subs == n.subs && m.acks == n.acks
    ensures TrailsAt(m, p)
  {
  }

  // ---------- single events and whole runs ----------

  /** The events that keep the order of p, told from the state before: whether the ring is
      full, the counter, the sent slots left and, for a request at QoS 2 under another sid,
      whether an unsent value is gone. */
  ghost predicate OrderClean(n: Node, e: Event, p: Path) {
    p in n.subs ==>
      match e
      case OfferEvent(path, _) => path == p ==> OfferInOrder(n.subs[p], n.cfg)
      case AckEvent(ack) => AckInOrder(n.subs[p], RetiredFor(n, p, ack))
      case SubscribeEvent(path, sid, qos, last) =>
        path == p && !SameSub(n, p, sid) ==> RenewInOrder(n.subs[p], n.cfg, qos, last)
      case _ => true
  }

  /** Every event keeps the values sent for p a contiguous run of those offered exactly when it
      is clean in this sense, whatever it acknowledges or evicts. */
  lemma StepOrder(n: Node, e: Event, p: Path)
    requires Inv(n) && Sorted(n) && TrailsAt(n, p) && Enabled(n, e)
    requires e.SubscribeEvent? ==> e.sid != NO_SID
    ensures InOrderAt(Step(n, e), p) <==> OrderClean(n, e, p)
    ensures OrderClean(n, e, p) ==> TrailsAt(Step(n, e), p)
  {
    hide Offer, Acknowledge, Subscribe, Unsubscribe, Disconnect, Trail, Ordered, Contiguous, IdsFor, Sorted, Conserved, Indexed, SubInv,
         OfferInOrder, AckInOrder, RenewInOrder, RetiredFor;
    match e
    case OfferEvent(path, msg) =>
      if path == p {
        OfferOrder(n, p, msg);
      } else {
        OfferSpares(n, path, msg, p);
        TrailsInOrder(Step(n, e), p);
      }
    case AckEvent(ack) =>
      if p in n.subs {
        AcknowledgeOrdered(n, p, ack);
      } else {
        AcknowledgeKeys(n, ack);
      }
    case SubscribeEvent(path, sid, qos, last) =>
      if path == p {
        SubscribeOrder(n, p, sid, qos, last);
      } else {
        SubscribeSpares(n, path, sid, qos, last, p);
        TrailsInOrder(Step(n, e), p);
      }
    case UnsubscribeEvent(sid) =>
      if sid in n.sids {
        UnsubscribeIsFree(n, sid);
        FreeTrails(n, n.sids[sid], p);
      } else {
        assert Step(n, e) == n by { NotThere(n, sid); }
      }
      TrailsInOrder(Step(n, e), p);
    case DisconnectEvent =>
      ParkTrails(n, p);
      TrailsInOrder(Step(n, e), p);
    case _ =>
      SameTrails(n, Step(n, e), p);
      TrailsInOrder(Step(n, e), p);
  }

  lemma TrailsInOrder(n: Node, p: Path)
    requires TrailsAt(n, p)
    ensures InOrderAt(n, p)
  {
    hide Trail, IdsFor, Contiguous, Lead;
  }

  lemma NotThere(n: Node, sid: Sid)
    requires sid !in n.sids
    ensures Unsubscribe(n, sid) == n
  {
  }

  lemma AcknowledgeKeys(n: Node, ack: nat)
    ensures Acknowledge(n, ack).subs.Keys == n.subs.Keys
  {
    hide AckLoop, Retired;
    var _ := AckLoopGrown(n, Retired(n, ack));
  }

  /** In-order delivery over every run on connections of fewer than 2^31 messages: the values
      sent for p on each connection are a contiguous run of the values offered to it, at every
      point of the run, if and only if every event is clean for p. */
  lemma {:induction false} RunOrder(run: seq<Node>, es: seq<Event>, cfg: Config, p: Path)
    requires IsRun(run, es) && run[0] == Initial(cfg) && cfg.ring > 0
    requires forall n | n in run :: n.total <= ID_PERIOD
    requires forall e | e in es :: e.SubscribeEvent? ==> e.sid != NO_SID
    ensures (forall i | 0 <= i < |run| :: InOrderAt(run[i], p)) <==> (forall i | 0 <= i < |es| :: OrderClean(run[i], es[i], p))
    ensures Sorted(run[|es|]) && ((forall i | 0 <= i < |es| :: OrderClean(run[i], es[i], p)) ==> TrailsAt(run[|es|], p))
  {
    hide Step, OrderClean, InOrderAt, TrailsAt, Inv, Sorted;
    if es == [] {
      assert TrailsAt(run[0], p) && InOrderAt(run[0], p) && Sorted(run[0]) by { StartsInOrder(cfg, p); }
    } else {
      var k := |es| - 1;
      var front := run[..k + 1];
      assert IsRun(front, es[..k]);
      RunOrder(front, es[..k], cfg, p);
      RunKeeps(front, es[..k], cfg);
      assert run[k + 1] == Step(run[k], es[k]);
      StepSorted(run[k], es[k]);
      assert forall i | 0 <= i < |front| :: front[i] == run[i];
      if forall i | 0 <= i < k :: OrderClean(run[i], es[i], p) {
        StepOrder(run[k], es[k], p);
      }
    }
  }

  lemma StartsInOrder(cfg: Config, p: Path)
    ensures var n := Initial(cfg); TrailsAt(n, p) && InOrderAt(n, p) && Sorted(n)
  {
  }
}
