/** The objects of broker/src/subscription.c and of the functions that call it
    (msg_subscribe.c, msg_unsubscribe.c, remote_dslink.c, ws.c), changing their fields in
    place, proved to compute the functions of Delivery.dfy. */
module Subscription {
  import opened Common
  import opened Ring
  import opened Vec
  import opened Delivery = Delivery
  import Invariants = DeliveryInvariants
  import Runs = DeliveryRuns
  import opened DeliveryFree

  // An entry of the pending list; a search key has no subscription.
  datatype Pack = Pack(subscription: SubRequester?, msgId: nat)

  class RemoteDSLink {
    var msgId: nat

    // A link starts zeroed.
    constructor ()
      ensures msgId == 0
    {
      msgId := 0;
    }

    /** The id allocator of broker_ws_send_obj. The counter is the number of messages sent
        so far, reduced by the period at which it restarts. */
    method SendObj(ghost total: nat) returns (id: nat)
      requires msgId == total % ID_PERIOD
      modifies this
      ensures id == NextId(total) && msgId == (total + 1) % ID_PERIOD
    {
      msgId := msgId + 1;
      id := msgId;
      if msgId == ID_PERIOD {
        msgId := 0;
      }
    }
  }

  class SubRequester {
    const path: Path
    const ring: nat
    var reqSid: Sid
    var qos: Qos
    var messageQueue: RingBuffer?<Slot>
    var messageOutputQueueCount: nat

    // Histories: every value offered, the values sent on the current connection, and where
    // these stand among the values offered.
    ghost var Offered: seq<Message>
    ghost var SentLog: seq<Message>
    ghost var SentAt: seq<int>
    ghost var Repr: set<object>

    ghost predicate Valid()
      reads this, Repr
      ensures Valid() ==> this in Repr
    {
      && this in Repr && 0 < ring <= 0x8000_0000
      && (messageQueue == null <==> Offered == [])
      && (messageQueue == null ==> messageOutputQueueCount == 0)
      && (messageQueue != null ==>
            messageQueue in Repr && messageQueue.data in Repr && messageQueue.Valid() && messageQueue.size == ring)
    }

    ghost function Value(): Sub
      reads this, Repr
      requires Valid()
    {
      Sub(reqSid, qos, if messageQueue == null then [] else messageQueue.Contents,
          messageOutputQueueCount, Offered, SentLog, SentAt)
    }

    // broker_create_sub_requester
    constructor (path: Path, sid: Sid, qos: Qos, ring: nat)
      requires 0 < ring <= 0x8000_0000
      ensures this.path == path && this.ring == ring && messageQueue == null
      ensures Valid() && fresh(Repr) && Value() == NewSub(sid, qos)
    {
      this.path, this.ring := path, ring;
      reqSid := sid;
      this.qos := qos;
      messageQueue := null;
      messageOutputQueueCount := 0;
      Offered, SentLog, SentAt := [], [], [];
      Repr := {this};
    }

    // The sid and QoS fields written by handle_subscribe.
    method Renumber(sid: Sid, qos: Qos)
      requires Valid()
      modifies Repr
      ensures Valid() && Repr == old(Repr) && messageQueue == old(messageQueue)
      ensures Value() == old(Value()).(sid := sid, qos := qos)
    {
      reqSid := sid;
      this.qos := qos;
    }

    // The ring is created with the first value.
    lemma RingFromFirstValue()
      requires Valid()
      ensures messageQueue == null <==> Value().offered == []
    {
    }

    // rb_at on the slot at the counter.
    method Next() returns (at: int, m: Slot)
      requires Valid() && messageOutputQueueCount < U32
      ensures at == -1 <==> |Value().queue| <= Value().inFlight
      ensures at != -1 ==> m == Value().queue[Value().inFlight]
      ensures at != -1 ==> messageQueue != null && 0 <= at && messageOutputQueueCount < messageQueue.count
      ensures at != -1 ==> at == Index(messageQueue.current, messageQueue.count, messageQueue.size, messageOutputQueueCount)
    {
      at := -1;
      m := Slot("", 0);
      if messageQueue != null {
        at := messageQueue.At(messageOutputQueueCount);
        if at != -1 {
          m := messageQueue.data[at];
        }
      }
    }

    // The id that sendMessage writes through its pointer into the ring, and the counter
    // that addPendingAck raises.
    method RecordSent(at: nat, m: Slot, id: nat)
      requires Valid() && messageQueue != null && messageOutputQueueCount < messageQueue.count
      requires at == Index(messageQueue.current, messageQueue.count, messageQueue.size, messageOutputQueueCount)
      requires m == Value().queue[Value().inFlight]
      modifies Repr
      ensures Valid() && Repr == old(Repr)
      ensures old(Value().inFlight) < |old(Value().queue)| && Value() == SendSlot(old(Value()), id)
    {
      messageQueue.Update(messageOutputQueueCount, at, m.(id := id));
      messageOutputQueueCount := messageOutputQueueCount + 1;
      SentLog, SentAt := SentLog + [m.msg], SentAt + [old(Base(Value()) + Value().inFlight)];
    }

    // The decrement in check_subscription_ack, on an unsigned 32-bit counter.
    method CountDown()
      requires Valid() && messageQueue != null
      modifies Repr
      ensures Valid() && Repr == old(Repr) && messageQueue == old(messageQueue)
      ensures Value() == old(Value()).(inFlight := Decrement(old(Value().inFlight)))
    {
      messageOutputQueueCount := if messageOutputQueueCount == 0 then 0xFFFFFFFF else messageOutputQueueCount - 1;
    }

    // removeFromMessageQueue
    method RemoveFromMessageQueue(msgId: nat) returns (result: nat)
      requires Valid()
      modifies Repr
      ensures Valid() && Repr == old(Repr) && messageQueue == old(messageQueue)
      ensures Value() == old(Value()).(queue := DropAcked(old(Value().queue), msgId))
      ensures result == AckedCount(old(Value().queue), msgId)
    {
      result := 0;
      if messageQueue == null { return; }
      ghost var was := messageQueue.Contents;
      while true
        modifies messageQueue
        invariant messageQueue.Valid()
        invariant result <= |was| && messageQueue.Contents == was[result..]
        invariant AckedCount(was, msgId) == result + AckedCount(was[result..], msgId)
        decreases |messageQueue.Contents|
      {
        var count := messageQueue.Count();
        if count == 0 || count == -1 { break; }
        var front := messageQueue.Front();
        var m := messageQueue.data[front];
        if m.id == 0 || m.id > msgId { break; }
        result := result + 1;
        var _ := messageQueue.Pop();
      }
    }

    // broker_clear_messsage_ids
    method ClearMessageIds()
      requires Valid() && messageOutputQueueCount < U32
      modifies Repr
      ensures Valid() && Repr == old(Repr) && unchanged(`messageQueue) && unchanged(`reqSid) && unchanged(`qos)
      ensures Value() == old(Value()).(queue := ClearIds(old(Value().queue), old(Value().inFlight)), inFlight := 0)
    {
      if messageQueue == null { return; }
      ghost var target := ClearIds(messageQueue.Contents, messageOutputQueueCount);
      while messageOutputQueueCount != 0
        modifies this`messageOutputQueueCount, messageQueue, messageQueue.data
        invariant messageQueue.Valid() && messageOutputQueueCount < U32
        invariant ClearIds(messageQueue.Contents, messageOutputQueueCount) == target
        decreases messageOutputQueueCount
      {
        messageOutputQueueCount := messageOutputQueueCount - 1;
        var at := messageQueue.At(messageOutputQueueCount);
        if at == -1 {
          messageOutputQueueCount := 0;
          break;
        }
        var m := messageQueue.data[at];
        messageQueue.Update(messageOutputQueueCount, at, m.(id := 0));
      }
    }

    // The requester is gone: no sid, and nothing sent on the next connection yet.
    method Forget()
      requires Valid()
      modifies Repr
      ensures Valid() && Repr == old(Repr)
      ensures Value() == old(Value()).(sid := NO_SID, sent := [], at := [])
    {
      reqSid := NO_SID;
      SentLog, SentAt := [], [];
    }

    // rb_count of the queue; a null queue counts as -1.
    method QueueCount() returns (r: int)
      requires Valid()
      ensures r == 0 ==> Value().queue == []
    {
      r := -1;
      if messageQueue != null {
        r := messageQueue.Count();
      }
    }

    // The end of broker_free_sub_requester.
    method Release()
      requires Valid()
      modifies Repr
      ensures Valid() && Repr == old(Repr) && messageQueue == null
    {
      messageOutputQueueCount := 0;
      if messageQueue != null {
        var _ := messageQueue.Free();
        messageQueue := null;
      }
      Offered := [];
    }

    // addToMessageQueue
    method AddToMessageQueue(msg: Message)
      requires Valid()
      modifies Repr
      ensures Valid() && old(Repr) <= Repr && fresh(Repr - old(Repr)) && messageQueue != null
      ensures Value() == old(Value()).(queue := AfterPush(old(Value().queue), ring, Slot(msg, 0)), offered := old(Value()).offered + [msg])
    {
      if messageQueue == null {
        messageQueue := new RingBuffer<Slot>.Init(ring);
        Repr := Repr + {messageQueue, messageQueue.data};
      }
      var _ := messageQueue.Push(Slot(msg, 0));
      Offered := Offered + [msg];
    }
  }

  ghost function Cleared(s: Sub): Sub {
    s.(queue := ClearIds(s.queue, s.inFlight), inFlight := 0)
  }

  // How far the loops of broker_remote_dslink_free have come after the paths in `done`.
  ghost function ClearedMap(m: map<Path, Sub>, done: set<Path>): map<Path, Sub> {
    map p | p in m :: if p in done && m[p].qos >= 2 then Cleared(m[p]) else m[p]
  }

  ghost function ForgottenMap(m: map<Path, Sub>, done: set<Path>): map<Path, Sub> {
    map p | p in m :: if p in done then m[p].(sid := NO_SID, sent := [], at := []) else m[p]
  }

  ghost function KeptMap(m: map<Path, Sub>, done: set<Path>): (r: map<Path, Sub>)
    ensures r.Keys <= m.Keys
  {
    map p | p in m && (p !in done || m[p].qos >= 2) :: m[p]
  }

  lemma ClearedMapStep(m: map<Path, Sub>, done: set<Path>, p: Path)
    requires p in m && p !in done
    ensures ClearedMap(m, done + {p}) == if m[p].qos >= 2 then ClearedMap(m, done)[p := Cleared(m[p])] else ClearedMap(m, done)
    ensures p in ClearedMap(m, done) && ClearedMap(m, done)[p] == m[p]
  {
  }

  lemma ClearedMapEnds(m: map<Path, Sub>)
    ensures ClearedMap(m, m.Keys - m.Keys) == m && m.Keys - {} == m.Keys
  {
  }

  lemma ForgottenMapStep(m: map<Path, Sub>, done: set<Path>, p: Path)
    requires p in m && p !in done
    ensures ForgottenMap(m, done + {p}) == ForgottenMap(m, done)[p := m[p].(sid := NO_SID, sent := [], at := [])]
    ensures p in ForgottenMap(m, done) && ForgottenMap(m, done)[p] == m[p]
  {
  }

  lemma ForgottenMapEnds(m: map<Path, Sub>)
    ensures ForgottenMap(m, m.Keys - m.Keys) == m && m.Keys - {} == m.Keys
  {
  }

  lemma KeptMapStep(m: map<Path, Sub>, done: set<Path>, p: Path)
    requires p in m && p !in done
    ensures KeptMap(m, done + {p}) == if m[p].qos < 2 then KeptMap(m, done) - {p} else KeptMap(m, done)
    ensures p in KeptMap(m, done) && KeptMap(m, done)[p] == m[p]
  {
  }

  lemma KeptMapEnds(m: map<Path, Sub>)
    ensures KeptMap(m, m.Keys - m.Keys) == m && m.Keys - {} == m.Keys
  {
  }

  // The two loops of broker_remote_dslink_free keep what freeing depends on.
  lemma ClearedDefined(n: Node, m: Node)
    requires Defined(n, DisconnectEvent) && m.listed == n.listed && m.subs == ClearedMap(n.subs, n.subs.Keys)
    ensures Defined(m, DisconnectEvent)
  {
  }

  lemma KeptDefined(n: Node, m: Node, p: Path)
    requires Defined(n, DisconnectEvent) && m.listed == n.listed
    requires p in n.subs && p in m.subs && m.subs[p] == n.subs[p]
    ensures m.subs[p].qos < 2 ==> FreeDefined(m, p)
  {
  }

  // The three loops together park what is left.
  lemma LoopsPark(n: Node)
    ensures var c := ClearedMap(n.subs, n.subs.Keys); var k := KeptMap(c, c.Keys);
            Delivery.Disconnect(n) == n.(online := false, acks := [], sids := map[], subs := ForgottenMap(k, k.Keys))
  {
    hide ClearIds;
  }

  /** The requester's req_sub_paths with the subscriptions it holds. Each operation on one
      of them is passed on, and the others are proved to stay as they were. */
  class SubTable {
    const ring: nat
    var paths: map<Path, SubRequester>

    ghost var Model: map<Path, Sub>
    ghost var Repr: set<object>

    ghost predicate Owns(s: SubRequester)
      reads this
    {
      s.path in paths && paths[s.path] == s
    }

    ghost predicate SubOk(p: Path)
      reads this, Repr
    {
      && p in paths && p in Model
      && var s := paths[p];
         && s in Repr && s.Repr <= Repr && this !in s.Repr && s.path == p && s.ring == ring
         && s.Valid() && s.Value() == Model[p]
    }

    ghost predicate Apart()
      reads this, paths.Values
    {
      forall p, q | p in paths && q in paths && p != q :: paths[p].Repr !! paths[q].Repr
    }

    ghost predicate Valid()
      reads this, Repr
      ensures Valid() ==> this in Repr
    {
      && this in Repr && 0 < ring <= 0x8000_0000
      && paths.Keys == Model.Keys
      && (forall p | p in paths :: paths[p] in Repr && SubOk(p))
      && Apart()
    }

    // An operation that changes only s, and the model only at s, keeps the table valid.
    twostate lemma OneChanged(s: SubRequester)
      requires old(Valid()) && Owns(s) && paths == old(paths)
      requires forall o: object | o in old(Repr) && o !in old(s.Repr) && o != this :: unchanged(o)
      requires s.Valid() && old(s.Repr) <= s.Repr && fresh(s.Repr - old(s.Repr))
      requires Repr == old(Repr) + s.Repr && Model == old(Model)[s.path := s.Value()]
      ensures Valid()
    {
      hide SubRequester.Valid, SubRequester.Value;
      assert old(SubOk(s.path));
      forall p | p in paths ensures paths[p] in Repr && SubOk(p) {
        assert old(SubOk(p));
        if p != s.path {
          assert old(paths[p].Repr !! s.Repr);
          assert forall o | o in old(paths[p].Repr) :: unchanged(o);
        }
      }
      forall p, q | p in paths && q in paths && p != q ensures paths[p].Repr !! paths[q].Repr {
        assert old(SubOk(p)) && old(SubOk(q));
      }
    }

    lemma Holds(s: SubRequester)
      requires Valid() && Owns(s)
      ensures SubOk(s.path)
    {
    }

    lemma OthersApart(s: SubRequester)
      requires Valid() && Owns(s)
      ensures forall p | p in paths && p != s.path :: paths[p] !in s.Repr
    {
      forall p | p in paths && p != s.path ensures paths[p] !in s.Repr {
        assert SubOk(p) && SubOk(s.path);
        assert paths[p] in paths[p].Repr;
      }
    }

    lemma KeysAgree()
      requires Valid()
      ensures paths.Keys == Model.Keys
    {
    }

    lemma OwnsAt(p: Path)
      requires Valid() && p in paths
      ensures paths[p].path == p && Owns(paths[p])
    {
      assert SubOk(p);
    }

    constructor (ring: nat)
      requires 0 < ring <= 0x8000_0000
      ensures Valid() && fresh(Repr) && this.ring == ring && paths == map[] && Model == map[]
    {
      this.ring := ring;
      paths, Model := map[], map[];
      Repr := {this};
    }

    method RecordSent(s: SubRequester, at: nat, m: Slot, id: nat)
      requires Valid() && Owns(s) && s.messageQueue != null && s.messageOutputQueueCount < s.messageQueue.count
      requires at == Index(s.messageQueue.current, s.messageQueue.count, s.messageQueue.size, s.messageOutputQueueCount)
      requires m == s.Value().queue[s.Value().inFlight]
      modifies Repr
      ensures Valid() && Repr == old(Repr) && paths == old(paths)
      ensures Model == old(Model)[s.path := SendSlot(old(Model)[s.path], id)]
    {
      hide SubRequester.Valid, SubRequester.Value, Apart;
      assert SubOk(s.path);
      s.RecordSent(at, m, id);
      Model := Model[s.path := s.Value()];
      OneChanged(s);
    }

    method AddToMessageQueue(s: SubRequester, msg: Message)
      requires Valid() && Owns(s)
      modifies Repr
      ensures Valid() && fresh(Repr - old(Repr)) && paths == old(paths)
      ensures Model == old(Model)[s.path := old(Model)[s.path].(queue := AfterPush(old(Model)[s.path].queue, ring, Slot(msg, 0)), offered := old(Model)[s.path].offered + [msg])]
    {
      hide SubRequester.Valid, SubRequester.Value, Apart;
      assert SubOk(s.path);
      s.AddToMessageQueue(msg);
      Model := Model[s.path := s.Value()];
      Repr := Repr + s.Repr;
      OneChanged(s);
    }

    method CountDown(s: SubRequester)
      requires Valid() && Owns(s)
      requires s.messageQueue != null
      modifies Repr
      ensures Valid() && Repr == old(Repr) && paths == old(paths)
      ensures Model == old(Model)[s.path := old(Model)[s.path].(inFlight := Decrement(old(Model)[s.path].inFlight))]
    {
      hide SubRequester.Valid, SubRequester.Value, Apart;
      assert SubOk(s.path);
      s.CountDown();
      Model := Model[s.path := s.Value()];
      OneChanged(s);
    }

    method RemoveFromMessageQueue(s: SubRequester, msgId: nat) returns (result: nat)
      requires Valid() && Owns(s)
      modifies Repr
      ensures Valid() && Repr == old(Repr) && paths == old(paths)
      ensures Model == old(Model)[s.path := old(Model)[s.path].(queue := DropAcked(old(Model)[s.path].queue, msgId))]
      ensures result == AckedCount(old(Model)[s.path].queue, msgId)
    {
      hide SubRequester.Valid, SubRequester.Value, Apart;
      assert SubOk(s.path);
      result := s.RemoveFromMessageQueue(msgId);
      Model := Model[s.path := s.Value()];
      OneChanged(s);
    }

    method Renumber(s: SubRequester, sid: Sid, qos: Qos)
      requires Valid() && Owns(s)
      modifies Repr
      ensures Valid() && Repr == old(Repr) && paths == old(paths)
      ensures Model == old(Model)[s.path := old(Model)[s.path].(sid := sid, qos := qos)]
    {
      hide SubRequester.Valid, SubRequester.Value, Apart;
      assert SubOk(s.path);
      s.Renumber(sid, qos);
      Model := Model[s.path := s.Value()];
      OneChanged(s);
    }

    method ClearMessageIds(s: SubRequester)
      requires Valid() && Owns(s)
      requires s.messageOutputQueueCount < U32
      modifies Repr
      ensures Valid() && Repr == old(Repr) && paths == old(paths)
      ensures Model == old(Model)[s.path := Cleared(old(Model)[s.path])]
      ensures forall p | p in paths :: paths[p].reqSid == old(paths[p].reqSid)
      ensures forall p | p in paths :: paths[p].qos == old(paths[p].qos)
      ensures forall p | p in paths :: paths[p].messageQueue == old(paths[p].messageQueue)
    {
      hide SubRequester.Valid, SubRequester.Value, Apart;
      assert SubOk(s.path);
      OthersApart(s);
      s.ClearMessageIds();
      Model := Model[s.path := s.Value()];
      OneChanged(s);
    }

    method Forget(s: SubRequester)
      requires Valid() && Owns(s)
      modifies Repr
      ensures Valid() && Repr == old(Repr) && paths == old(paths)
      ensures Model == old(Model)[s.path := old(Model)[s.path].(sid := NO_SID, sent := [], at := [])]
    {
      hide SubRequester.Valid, SubRequester.Value, Apart;
      assert SubOk(s.path);
      s.Forget();
      Model := Model[s.path := s.Value()];
      OneChanged(s);
    }

    // The first loop of broker_remote_dslink_free over the subscriptions of QoS 2.
    method ClearQos2()
      requires Valid() && forall p | p in Model :: Model[p].inFlight < U32
      modifies Repr
      ensures Valid() && Repr == old(Repr) && paths == old(paths)
      ensures Model == ClearedMap(old(Model), old(Model).Keys)
      ensures forall p | p in paths :: paths[p].reqSid == old(paths[p].reqSid)
      ensures forall p | p in paths :: paths[p].qos == old(paths[p].qos)
      ensures forall p | p in paths :: paths[p].messageQueue == old(paths[p].messageQueue)
    {
      hide SubRequester.Valid, Valid, ClearedMap;
      ghost var m := Model;
      ClearedMapEnds(m);
      KeysAgree();
      var todo := paths.Keys;
      while todo != {}
        invariant Valid() && Repr == old(Repr) && paths == old(paths) && todo <= paths.Keys
        invariant Model == ClearedMap(m, m.Keys - todo)
        invariant forall p | p in paths :: paths[p].reqSid == old(paths[p].reqSid)
        invariant forall p | p in paths :: paths[p].qos == old(paths[p].qos)
        invariant forall p | p in paths :: paths[p].messageQueue == old(paths[p].messageQueue)
        decreases |todo|
      {
        var p :| p in todo;
        OwnsAt(p);
        Holds(paths[p]);
        ClearedMapStep(m, m.Keys - todo, p);
        ghost var was := todo;
        todo := todo - {p};
        assert m.Keys - todo == m.Keys - was + {p};
        if paths[p].qos >= 2 {
          ClearMessageIds(paths[p]);
        }
      }
    }

    // The last loop: every subscription that is left loses its sid.
    method ForgetAll()
      requires Valid()
      modifies Repr
      ensures Valid() && Repr == old(Repr) && paths == old(paths)
      ensures Model == ForgottenMap(old(Model), old(Model).Keys)
    {
      hide SubRequester.Valid, Valid, ForgottenMap;
      ghost var m := Model;
      ForgottenMapEnds(m);
      KeysAgree();
      var todo := paths.Keys;
      while todo != {}
        invariant Valid() && Repr == old(Repr) && paths == old(paths) && todo <= paths.Keys
        invariant Model == ForgottenMap(m, m.Keys - todo)
        decreases |todo|
      {
        var p :| p in todo;
        OwnsAt(p);
        ForgottenMapStep(m, m.Keys - todo, p);
        ghost var was := todo;
        todo := todo - {p};
        assert m.Keys - todo == m.Keys - was + {p};
        Forget(paths[p]);
      }
    }

    // Taking s in or out of the table touches no other subscription.
    twostate lemma Reshaped(s: SubRequester)
      requires old(Valid()) && this in Repr && old(Repr) - s.Repr <= Repr
      requires forall o: object | o in old(Repr) && o != this :: unchanged(o)
      requires paths.Keys == Model.Keys
      requires forall p | p in paths && paths[p] != s ::
                 p in old(paths) && paths[p] == old(paths[p]) && Model[p] == old(Model[p]) && old(paths[p].Repr) !! s.Repr
      requires forall p | p in paths && paths[p] == s :: p == s.path && s in Repr && SubOk(p)
      ensures Valid()
    {
      hide SubRequester.Valid, SubRequester.Value;
      forall p | p in paths ensures paths[p] in Repr && SubOk(p) {
        if paths[p] != s {
          assert old(SubOk(p));
          assert forall o | o in old(paths[p].Repr) :: unchanged(o);
        }
      }
      forall p, q | p in paths && q in paths && p != q ensures paths[p].Repr !! paths[q].Repr {
        if paths[p] != s {
          assert old(SubOk(p));
        }
        if paths[q] != s {
          assert old(SubOk(q));
        }
      }
    }

    method Insert(s: SubRequester)
      requires Valid() && s.path !in paths && s.Valid() && s.ring == ring && s.Repr !! Repr
      modifies this
      ensures Valid() && Repr == old(Repr) + s.Repr && paths == old(paths)[s.path := s]
      ensures Model == old(Model)[s.path := s.Value()]
    {
      hide SubRequester.Valid, SubRequester.Value, Apart;
      assert forall p | p in paths :: SubOk(p);
      paths := paths[s.path := s];
      Model := Model[s.path := s.Value()];
      Repr := Repr + s.Repr;
      assert SubOk(s.path);
      Reshaped(s);
    }

    method Remove(s: SubRequester)
      requires Valid() && Owns(s)
      modifies this
      ensures Valid() && Repr == old(Repr) - s.Repr && paths == old(paths) - {s.path} && Model == old(Model) - {s.path}
      ensures s.Valid() && s.Repr <= old(Repr) && this !in s.Repr
    {
      hide SubRequester.Valid, SubRequester.Value;
      assert SubOk(s.path);
      assert forall p | p in paths && p != s.path :: SubOk(p) && paths[p].path == p && paths[p].Repr !! s.Repr;
      paths := paths - {s.path};
      Model := Model - {s.path};
      Repr := Repr - s.Repr;
      Reshaped(s);
    }
  }

  // What the pending list says, with every subscription named by its path.
  ghost function Acks(packs: seq<Pack>): (r: seq<PendingAck>)
    requires forall x | x in packs :: x.subscription != null
    ensures |r| == |packs|
    ensures forall i | 0 <= i < |packs| :: r[i] == PendingAck(packs[i].subscription.path, packs[i].msgId)
  {
    seq(|packs|, i requires 0 <= i < |packs| => PendingAck(packs[i].subscription.path, packs[i].msgId))
  }

  // Erasing the entries of one subscription is erasing those of its path.
  lemma {:induction false} KeepIsOthers(packs: seq<Pack>, s: SubRequester, cmp: Pack -> int)
    requires forall x | x in packs :: x.subscription != null && (x.subscription == s <==> x.subscription.path == s.path)
    requires forall x :: cmp(x) == if x.subscription == s then 0 else -1
    ensures forall x | x in Keep(packs, cmp) :: x.subscription != null
    ensures Acks(Keep(packs, cmp)) == Others(Acks(packs), s.path)
  {
    hide Acks;
    KeepMembers(packs, cmp);
    if packs != [] {
      var front, x := packs[..|packs| - 1], packs[|packs| - 1];
      KeepIsOthers(front, s, cmp);
      KeepMembers(front, cmp);
      AcksAppend(front, x);
      assert front + [x] == packs;
      if x.subscription == s {
        assert Keep(packs, cmp) == Keep(front, cmp);
      } else {
        AcksAppend(Keep(front, cmp), x);
      }
    }
  }

  lemma AcksAppend(packs: seq<Pack>, x: Pack)
    requires x.subscription != null && forall y | y in packs :: y.subscription != null
    ensures forall y | y in packs + [x] :: y.subscription != null
    ensures Acks(packs + [x]) == Acks(packs) + [PendingAck(x.subscription.path, x.msgId)]
    ensures Acks(packs + [x])[..|packs|] == Acks(packs)
  {
  }

  ghost function Paths(subs: map<nat, SubRequester>): map<nat, Path> {
    map sid | sid in subs :: subs[sid].path
  }

  class DownstreamNode {
    const cfg: Config
    const table: SubTable  // req_sub_paths
    var link: RemoteDSLink?
    var pendingAcks: Vector?<Pack>
    var reqSubSids: map<nat, SubRequester>

    // The messages sent on the last connection, and the objects this node is made of.
    ghost var Total: nat
    ghost var Repr: set<object>

    ghost predicate AcksOk()
      reads `pendingAcks, table, pendingAcks, if pendingAcks == null then {} else {pendingAcks.data}
    {
      pendingAcks != null ==>
        pendingAcks.Valid() && forall x | x in pendingAcks.Contents :: x.subscription != null && table.Owns(x.subscription)
    }

    ghost predicate LinkOk()
      reads `link, `Total, link
    {
      link != null ==> link.msgId == Total % ID_PERIOD
    }

    ghost predicate Owned()
      reads this, table, pendingAcks
    {
      && this in Repr && table in Repr && table.Repr <= Repr && this !in table.Repr
      && (link != null ==> link in Repr && link !in table.Repr)
      && (pendingAcks != null ==>
            pendingAcks in Repr && pendingAcks.data in Repr && pendingAcks !in table.Repr && pendingAcks.data !in table.Repr)
    }

    ghost predicate SidsOk()
      reads `reqSubSids, table
    {
      forall sid | sid in reqSubSids :: table.Owns(reqSubSids[sid])
    }

    ghost predicate Valid()
      reads this, Repr
      ensures Valid() ==> this in Repr
    {
      && this in Repr && table in Repr && table.Repr <= Repr
      && (link != null ==> link in Repr)
      && (pendingAcks != null ==> pendingAcks in Repr && pendingAcks.data in Repr)
      && Owned()
      && 0 < cfg.ring <= 0x8000_0000 && cfg.window < U32 && table.ring == cfg.ring
      && table.Valid() && LinkOk() && AcksOk() && SidsOk()
    }

    ghost function AckList(): seq<PendingAck>
      reads this, Repr
      requires Valid()
    {
      if pendingAcks == null then [] else Acks(pendingAcks.Contents)
    }

    ghost function State(): Node
      reads this, Repr
      requires Valid()
    {
      Node(cfg, link != null, Total, pendingAcks != null, AckList(), table.Model, Paths(reqSubSids))
    }

    // broker_init_downstream_node, for the subscription side.
    constructor (cfg: Config)
      requires 0 < cfg.ring <= 0x8000_0000 && cfg.window < U32
      ensures Valid() && fresh(Repr) && State() == Initial(cfg)
    {
      this.cfg := cfg;
      var t := new SubTable(cfg.ring);
      table := t;
      link, pendingAcks := null, null;
      reqSubSids := map[];
      Total := 0;
      Repr := {this} + t.Repr;
    }

    // addPendingAck, for the list.
    method AddPendingAck(s: SubRequester, msgId: nat)
      requires Valid() && table.Owns(s)
      modifies this`pendingAcks, this`Repr, pendingAcks, if pendingAcks == null then {} else {pendingAcks.data}
      ensures Valid() && fresh(Repr - old(Repr)) && pendingAcks != null
      ensures State() == old(State()).(listed := true, acks := old(AckList()) + [PendingAck(s.path, msgId)])
    {
      hide SubTable.Valid;
      if pendingAcks == null {
        pendingAcks := new Vector<Pack>.Init(64);
        Repr := Repr + {pendingAcks, pendingAcks.data};
      }
      var _ := pendingAcks.Append(Pack(s, msgId));
      Repr := Repr + {pendingAcks.data};
      assert AckList() == old(AckList()) + [PendingAck(s.path, msgId)];
    }

    // An operation inside the table leaves the rest of the node as it was.
    twostate lemma TableChanged()
      requires old(Valid()) && table.Valid() && table.paths == old(table.paths)
      requires unchanged(`link) && unchanged(`pendingAcks) && unchanged(`reqSubSids) && unchanged(`Total)
      requires forall o: object | o in old(Repr) && o !in old(table.Repr) && o != this :: unchanged(o)
      requires fresh(table.Repr - old(table.Repr)) && Repr == old(Repr) + table.Repr
      ensures Valid() && State() == old(State()).(subs := table.Model)
    {
      hide SubTable.Valid;
      assert pendingAcks != null ==> unchanged(pendingAcks) && unchanged(pendingAcks.data);
      assert link != null ==> unchanged(link);
      assert AckList() == old(AckList());
    }

    // sendMessage on the slot at the counter.
    method SendMessage(s: SubRequester, at: nat, m: Slot)
      requires Valid() && table.Owns(s) && link != null
      requires s.messageQueue != null && s.Valid() && s.messageOutputQueueCount < s.messageQueue.count
      requires at == Index(s.messageQueue.current, s.messageQueue.count, s.messageQueue.size, s.messageOutputQueueCount)
      requires s.Value().inFlight < |s.Value().queue| && m == s.Value().queue[s.Value().inFlight]
      modifies Repr
      ensures Valid() && fresh(Repr - old(Repr))
      ensures unchanged(`link) && unchanged(`reqSubSids) && table.paths == old(table.paths)
      ensures s.path in old(State()).subs && old(State()).subs[s.path] == old(s.Value())
      ensures State() == SendOne(old(State()), s.path)
    {
      hide SubTable.Valid, SubRequester.Valid, SubRequester.Value;
      table.Holds(s);
      label before:
      var id := link.SendObj(Total);
      Total := Total + 1;
      table.RecordSent(s, at, m, id);
      AddPendingAck(s, id);
    }

    // One turn of the loop in sendQueuedMessages.
    method SendNext(s: SubRequester) returns (sent: bool)
      requires Valid() && table.Owns(s) && link != null && Live(State(), s.path)
      requires s.Valid() && s.messageOutputQueueCount < cfg.window
      modifies Repr
      ensures Valid() && fresh(Repr - old(Repr))
      ensures unchanged(`link) && unchanged(`reqSubSids) && table.paths == old(table.paths)
      ensures sent == CanSend(old(State()), s.path)
      ensures State() == (if sent then SendOne(old(State()), s.path) else old(State()))
    {
      hide SubTable.Valid, SubRequester.Valid, NextId, Acks, AcksOk, LinkOk;
      table.Holds(s);
      var at, m := s.Next();
      sent := at != -1 && m.id == 0;
      if sent {
        SendMessage(s, at, m);
      }
    }

    // sendQueuedMessages
    method SendQueuedMessages(s: SubRequester) returns (result: nat)
      requires Valid() && table.Owns(s)
      modifies Repr
      ensures Valid() && fresh(Repr - old(Repr))
      ensures unchanged(`link) && unchanged(`reqSubSids) && table.paths == old(table.paths)
      ensures State() == Pump(old(State()), s.path) && Total == old(Total) + result
    {
      hide SubTable.Valid, SubRequester.Valid, NextId, Acks, AcksOk, LinkOk, SidsOk;
      result := 0;
      table.Holds(s);
      if link == null || s.reqSid == NO_SID { return; }
      var count := s.QueueCount();
      if count == 0 { return; }
      while s.messageOutputQueueCount < cfg.window
        invariant Valid() && fresh(Repr - old(Repr))
        invariant link == old(link) && reqSubSids == old(reqSubSids) && table.paths == old(table.paths)
        invariant s in Repr && s.Valid() && Live(State(), s.path) && s.Value() == State().subs[s.path]
        invariant Pump(State(), s.path) == Pump(old(State()), s.path) && Total == old(Total) + result
        decreases cfg.window - s.messageOutputQueueCount
      {
        var sent := SendNext(s);
        if !sent { break; }
        table.Holds(s);
        result := result + 1;
      }
    }

    // broker_update_sub_req for QoS 0 to 2.
    method UpdateSubReq(s: SubRequester, msg: Message)
      requires Valid() && table.Owns(s)
      modifies Repr
      ensures Valid() && fresh(Repr - old(Repr))
      ensures unchanged(`link) && unchanged(`reqSubSids) && table.paths == old(table.paths)
      ensures s.path in old(State()).subs && State() == Offer(old(State()), s.path, msg)
    {
      hide SubTable.Valid, SubRequester.Valid, SubRequester.Value, Pump, AfterPush;
      table.Holds(s);
      table.AddToMessageQueue(s, msg);
      Repr := Repr + table.Repr;
      TableChanged();
      var sent := SendQueuedMessages(s);
    }

    // The counting down and the dropping of one turn.
    method SettleInTable(s: SubRequester, id: nat) returns (removed: nat)
      requires Valid() && table.Owns(s) && s.Valid() && s.Value().inFlight > 0
      modifies table.Repr
      ensures Valid() && table.paths == old(table.paths) && unchanged(`link)
      ensures s.path in old(State()).subs && State() == Settle(old(State()), s.path, id)
      ensures removed == AckedCount(old(State()).subs[s.path].queue, id)
    {
      hide SubTable.Valid, SubRequester.Valid, AckedCount, Acks, AcksOk, LinkOk, SidsOk;
      table.Holds(s);
      QueueOf(s);
      table.CountDown(s);
      removed := table.RemoveFromMessageQueue(s, id);
      TableChanged();
    }

    // The body of the loop in check_subscription_ack.
    method SettleAck(idx: nat)
      requires Valid() && idx < |State().acks|
      requires State().acks[idx].path in State().subs && State().subs[State().acks[idx].path].inFlight > 0
      modifies Repr
      ensures Valid() && fresh(Repr - old(Repr)) && unchanged(`link)
      ensures State() == AckOne(old(State()), idx)
    {
      hide SubTable.Valid, SubRequester.Valid, Pump, AckedCount, LinkOk, SidsOk;
      var ok, pack := pendingAcks.Get(idx);
      var s := pack.subscription;
      assert pack in pendingAcks.Contents;
      table.Holds(s);
      var removed := SettleInTable(s, pack.msgId);
      if removed > 0 {
        var sent := SendQueuedMessages(s);
      }
    }

    lemma QueueOf(s: SubRequester)
      requires s.Valid() && s.Value().inFlight > 0
      ensures s.messageQueue != null
    {
    }

    lemma AckTurn(n: Node, before: Node, i: nat, last: nat)
      requires i + 1 <= |n.acks| && last <= |before.acks|
      requires Invariants.Balanced(n, i + 1, last) && AckLoop(n, i + 1) == AckLoop(before, last)
      ensures i < |n.acks| && n.acks[i].path in n.subs && n.subs[n.acks[i].path].inFlight > 0
      ensures var m := AckOne(n, i);
              i <= |m.acks| && Invariants.Balanced(m, i, last) && AckLoop(m, i) == AckLoop(before, last)
    {
      hide AckOne, Invariants.BalancedSub, Invariants.IdsFor;
      Invariants.SettleKeepsBalance(n, i, last);
      Invariants.AckOneKeepsBalance(n, i, last);
    }

    // check_subscription_ack
    method CheckSubscriptionAck(ack: nat)
      requires Valid() && Invariants.Conserved(State())
      modifies Repr
      ensures Valid() && fresh(Repr - old(Repr)) && unchanged(`link)
      ensures State() == Acknowledge(old(State()), ack)
    {
      hide SubTable.Valid, AckOne, AckLoop, Invariants.Balanced, Invariants.Conserved, Retired, Acks, AcksOk, LinkOk;
      var last := UpperBoundOf(ack);
      ghost var before := State();
      Invariants.ConservedIsBalanced(before, last);
      var idx := last as int - 1;
      while idx >= 0
        invariant -1 <= idx < last
        invariant Valid() && fresh(Repr - old(Repr)) && link == old(link)
        invariant Invariants.Balanced(State(), idx + 1, last)
        invariant idx + 1 <= |State().acks| && AckLoop(State(), idx + 1) == AckLoop(before, last)
      {
        AckTurn(State(), before, idx, last);
        SettleAck(idx);
        idx := idx - 1;
      }
      AckLoopEnds(State(), last);
      EraseAcks(last);
    }

    lemma AckLoopEnds(n: Node, last: nat)
      requires Invariants.Balanced(n, 0, last)
      ensures last <= |n.acks| && AckLoop(n, 0) == n
    {
    }

    lemma SameSigns(packs: seq<Pack>, ack: nat, cmp: Pack -> int)
      requires forall x | x in packs :: x.subscription != null
      requires forall x :: cmp(x) == CompareIds(ack, x.msgId)
      ensures Signs(packs, cmp) == AckSigns(Acks(packs), ack)
    {
    }

    // vector_upper_bound on the pending list.
    method UpperBoundOf(ack: nat) returns (last: nat)
      requires Valid()
      ensures last <= |State().acks| && last == Retired(State(), ack)
    {
      hide Signs, AckSigns, Acks, UpperBound, SubTable.Valid;
      if pendingAcks == null { return 0; }
      var cmp := (x: Pack) => CompareIds(ack, x.msgId);
      var size := pendingAcks.Count();
      SameSigns(pendingAcks.Contents, ack, cmp);
      last := pendingAcks.UpperBoundRange(cmp, 0, size);
    }

    method EraseAcks(last: nat)
      requires Valid() && last <= |State().acks|
      modifies pendingAcks, if pendingAcks == null then {} else {pendingAcks.data}
      ensures Valid()
      ensures State() == old(State()).(acks := old(State()).acks[last..])
    {
      hide SubTable.Valid, Acks;
      if pendingAcks != null {
        ghost var was := pendingAcks.Contents;
        var _ := pendingAcks.EraseRange(0, last);
        NothingBefore(was[last..]);
        AcksDrop(was, last);
      }
    }

    lemma NothingBefore<T>(s: seq<T>)
      ensures [] + s == s
    {
    }

    lemma AcksDrop(packs: seq<Pack>, d: nat)
      requires d <= |packs| && forall x | x in packs :: x.subscription != null
      ensures Acks(packs[d..]) == Acks(packs)[d..]
    {
    }

    lemma {:induction false} OthersAll(acks: seq<PendingAck>, p: Path)
      requires Invariants.IdsFor(acks, p) == []
      ensures Others(acks, p) == acks && forall a | a in acks :: a.path != p
    {
      if acks != [] {
        OthersAll(acks[..|acks| - 1], p);
      }
    }

    // Every sid under which s can be found is its own.
    ghost predicate OnlyOwnSid(s: SubRequester)
      reads this, s
    {
      forall sid | sid in reqSubSids && reqSubSids[sid] == s :: sid == s.reqSid && sid != NO_SID
    }

    // vector_remove_if and vector_erase_range on the entries of s.
    method EraseAcksOf(s: SubRequester)
      requires Valid() && table.Owns(s) && pendingAcks != null
      modifies pendingAcks, pendingAcks.data
      ensures Valid()
      ensures State() == old(State()).(acks := Others(old(State()).acks, s.path))
      ensures forall x | x in pendingAcks.Contents :: x.subscription != s
    {
      hide SubTable.Valid, Acks, Keep, Others;
      var cmp := (x: Pack) => if x.subscription == s then 0 else -1;
      KeepIsOthers(pendingAcks.Contents, s, cmp);
      KeepMembers(pendingAcks.Contents, cmp);
      RemoveAll(pendingAcks, cmp);
    }

    // Removing a subscription that nothing else refers to.
    method RemovePath(s: SubRequester)
      requires Valid() && table.Owns(s)
      requires pendingAcks != null ==> forall x | x in pendingAcks.Contents :: x.subscription != s
      requires forall sid | sid in reqSubSids :: reqSubSids[sid] != s
      modifies table, s.Repr
      ensures Valid() && table.paths == old(table.paths) - {s.path}
      ensures State() == old(State()).(subs := old(State()).subs - {s.path})
      ensures forall p | p in table.paths :: unchanged(table.paths[p])
    {
      hide SubTable.Valid, SubRequester.Valid, Acks;
      table.Holds(s);
      table.OthersApart(s);
      table.Remove(s);
      s.Release();
    }

    /** broker_free_sub_requester. Once the subscription has a queue, the code relies on the
        list of pending acks to exist. The list and the two maps are independent of each
        other; they are updated here in an order that keeps the node valid throughout. */
    method FreeSubRequester(s: SubRequester)
      requires Valid() && table.Owns(s) && OnlyOwnSid(s)
      requires FreeDefined(State(), s.path)
      requires s.messageQueue == null ==> Invariants.IdsFor(State().acks, s.path) == []
      modifies Repr
      ensures Valid() && fresh(Repr - old(Repr)) && unchanged(`link) && unchanged(`pendingAcks)
      ensures State() == Free(old(State()), s.path)
      ensures table.paths == old(table.paths) - {s.path}
      ensures forall p | p in table.paths :: unchanged(table.paths[p])
      ensures reqSubSids == if old(s.reqSid) == NO_SID then old(reqSubSids) else old(reqSubSids) - {old(s.reqSid)}
    {
      hide SubTable.Valid, SubRequester.Valid, Acks, Others, AcksOk, LinkOk;
      table.Holds(s);
      DropAcksOf(s);
      table.Holds(s);
      DropSidOf(s);
      RemovePath(s);
    }

    method DropAcksOf(s: SubRequester)
      requires Valid() && table.Owns(s)
      requires FreeDefined(State(), s.path)
      requires s.messageQueue == null ==> Invariants.IdsFor(State().acks, s.path) == []
      modifies pendingAcks, if pendingAcks == null then {} else {pendingAcks.data}
      ensures Valid()
      ensures State() == old(State()).(acks := Others(old(State()).acks, s.path))
      ensures pendingAcks != null ==> forall x | x in pendingAcks.Contents :: x.subscription != s
    {
      hide SubTable.Valid, SubRequester.Valid, Acks, Others, Invariants.IdsFor;
      table.Holds(s);
      s.RingFromFirstValue();
      if s.messageQueue != null {
        EraseAcksOf(s);
      } else {
        OthersAll(State().acks, s.path);
        assert pendingAcks != null ==> forall i | 0 <= i < |pendingAcks.Contents| :: AckList()[i].path == pendingAcks.Contents[i].subscription.path;
      }
    }

    method DropSidOf(s: SubRequester)
      requires Valid() && table.Owns(s) && OnlyOwnSid(s)
      modifies `reqSubSids
      ensures Valid()
      ensures reqSubSids == if s.reqSid == NO_SID then old(reqSubSids) else old(reqSubSids) - {s.reqSid}
      ensures State() == old(State()).(sids := if s.reqSid == NO_SID then old(State()).sids else old(State()).sids - {s.reqSid})
      ensures forall sid | sid in reqSubSids :: reqSubSids[sid] != s
    {
      hide SubTable.Valid, SubRequester.Valid, Acks, AcksOk, LinkOk;
      if s.reqSid != NO_SID {
        UnsetSid(s.reqSid);
      }
    }

    lemma InvFreeable(s: SubRequester)
      requires Valid() && table.Owns(s) && Invariants.Inv(State())
      ensures OnlyOwnSid(s)
      ensures s.messageQueue == null ==> Invariants.IdsFor(State().acks, s.path) == []
    {
      hide SubTable.Valid, Invariants.SubInv, Acks, Invariants.IdsFor;
      table.Holds(s);
      assert Invariants.BalancedSub(State(), s.path, [], Invariants.IdsFor(State().acks, s.path));
      forall sid | sid in reqSubSids && reqSubSids[sid] == s ensures sid == s.reqSid && sid != NO_SID {
        assert sid in State().sids && State().sids[sid] == s.path;
      }
    }

    // handle_unsubscribe
    method HandleUnsubscribe(sid: Sid)
      requires Valid() && Invariants.Inv(State())
      requires Defined(State(), UnsubscribeEvent(sid))
      modifies Repr
      ensures Valid() && fresh(Repr - old(Repr)) && unchanged(`link)
      ensures State() == Unsubscribe(old(State()), sid)
    {
      hide SubTable.Valid, SubRequester.Valid, Invariants.Inv, Acks, AcksOk, LinkOk, Free, Invariants.IdsFor;
      if sid in reqSubSids {
        var s := reqSubSids[sid];
        InvFreeable(s);
        UnsetSid(sid);
        FreeSubRequester(s);
      }
    }

    method RenumberInTable(s: SubRequester, sid: Sid, qos: Qos)
      requires Valid() && table.Owns(s)
      modifies table.Repr
      ensures Valid() && unchanged(`link) && table.paths == old(table.paths)
      ensures var n := old(State());
              && s.path in n.subs
              && State() == n.(subs := n.subs[s.path := n.subs[s.path].(sid := sid, qos := qos)])
    {
      hide SubTable.Valid, SubRequester.Valid, Acks, AcksOk, LinkOk;
      table.Holds(s);
      table.Renumber(s, sid, qos);
      TableChanged();
    }

    method SetSid(sid: nat, s: SubRequester)
      requires Valid() && table.Owns(s)
      modifies `reqSubSids
      ensures Valid() && State() == old(State()).(sids := old(State()).sids[sid := s.path])
    {
      hide SubTable.Valid, AcksOk, LinkOk, Acks;
      ghost var sids := Paths(reqSubSids);
      reqSubSids := reqSubSids[sid := s];
      assert Paths(reqSubSids) == sids[sid := s.path];
    }

    method UnsetSid(sid: nat)
      requires Valid()
      modifies `reqSubSids
      ensures Valid() && reqSubSids == old(reqSubSids) - {sid}
      ensures State() == old(State()).(sids := old(State()).sids - {sid})
    {
      hide SubTable.Valid, AcksOk, LinkOk, Acks;
      ghost var sids := Paths(reqSubSids);
      reqSubSids := reqSubSids - {sid};
      assert Paths(reqSubSids) == sids - {sid};
    }

    // The part of handle_subscribe for a path that is subscribed under another sid.
    method RenewSub(s: SubRequester, sid: Sid, qos: Qos, last: Option<Message>)
      requires Valid() && table.Owns(s)
      modifies Repr
      ensures Valid() && fresh(Repr - old(Repr)) && unchanged(`link)
      ensures s.path in old(State()).subs && State() == Renew(old(State()), s.path, sid, qos, last)
    {
      hide SubTable.Valid, SubRequester.Valid, Acks, AcksOk, LinkOk, Pump, AfterPush;
      table.Holds(s);
      UnsetSid(s.reqSid);
      RenumberInTable(s, sid, qos);
      SetSid(sid, s);
      if qos == 2 {
        var sent := SendQueuedMessages(s);
      } else if last.Some? {
        UpdateSubReq(s, last.value);
      }
    }

    // A path that joins the table leaves the rest of the node as it was.
    twostate lemma TableGrown(new s: SubRequester)
      requires old(Valid()) && table.Valid() && s.path !in old(table.paths) && table.paths == old(table.paths)[s.path := s]
      requires unchanged(`link) && unchanged(`pendingAcks) && unchanged(`reqSubSids) && unchanged(`Total)
      requires forall o: object | o in old(Repr) && o != table && o != this :: unchanged(o)
      requires fresh(table.Repr - old(table.Repr)) && Repr == old(Repr) + table.Repr
      ensures Valid() && State() == old(State()).(subs := table.Model)
    {
      hide SubTable.Valid, Acks;
      assert pendingAcks != null ==> unchanged(pendingAcks) && unchanged(pendingAcks.data);
      assert link != null ==> unchanged(link);
      assert AckList() == old(AckList());
    }

    method InsertInTable(path: Path, sid: Sid, qos: Qos) returns (s: SubRequester)
      requires Valid() && path !in table.paths
      modifies `Repr, table
      ensures Valid() && fresh(Repr - old(Repr)) && s.path == path && table.Owns(s)
      ensures State() == old(State()).(subs := old(State()).subs[path := NewSub(sid, qos)])
    {
      hide SubTable.Valid, SubRequester.Valid, SubRequester.Value, Acks, LinkOk, AcksOk, SidsOk;
      s := new SubRequester(path, sid, qos, cfg.ring);
      table.Insert(s);
      Repr := Repr + s.Repr;
      TableGrown(s);
    }

    // broker_create_sub_requester and broker_add_new_subscription.
    method AddSub(path: Path, sid: Sid, qos: Qos, last: Option<Message>)
      requires Valid() && path !in table.paths
      modifies Repr
      ensures Valid() && fresh(Repr - old(Repr)) && unchanged(`link)
      ensures State() == Add(old(State()), path, sid, qos, last)
    {
      hide SubTable.Valid, SubRequester.Valid, SubRequester.Value, Acks, AcksOk, LinkOk, Pump, AfterPush;
      var s := InsertInTable(path, sid, qos);
      SetSid(sid, s);
      if last.Some? {
        UpdateSubReq(s, last.value);
      }
    }

    /** handle_subscribe, for a requester that may read the path; `last` is the last value
        of the stream behind the path, if it has one. */
    method HandleSubscribe(path: Path, sid: Sid, qos: Qos, last: Option<Message>)
      requires Valid() && Invariants.Inv(State()) && link != null
      requires Defined(State(), SubscribeEvent(path, sid, qos, last))
      modifies Repr
      ensures Valid() && fresh(Repr - old(Repr)) && unchanged(`link)
      ensures State() == Subscribe(old(State()), path, sid, qos, last)
      ensures sid != NO_SID ==> LeadsTo(path, sid, qos) && Paths(reqSubSids) == Runs.SidsWithout(old(Paths(reqSubSids)), path)[sid := path]
    {
      hide SubTable.Valid, SubRequester.Valid, Invariants.Inv, Acks, AcksOk, LinkOk, Free, Renew, Add, Invariants.IdsFor, LeadsTo,
           Runs.SidsWithout;
      ghost var n := State();
      table.KeysAgree();
      if sid in reqSubSids && path in table.paths && reqSubSids[sid] == table.paths[path] {
        var s := reqSubSids[sid];
        table.Holds(s);
        table.OwnsAt(path);
        table.Renumber(s, s.reqSid, qos);
        TableChanged();
      } else {
        if sid in reqSubSids {
          var s := reqSubSids[sid];
          InvFreeable(s);
          FreeSubRequester(s);
          table.KeysAgree();
        }
        if path in table.paths {
          table.OwnsAt(path);
          RenewSub(table.paths[path], sid, qos, last);
        } else {
          AddSub(path, sid, qos, last);
        }
      }
      if sid != NO_SID {
        Runs.SubscribeSids(n, path, sid, qos, last);
        LeadsAfter(n, path, sid, qos);
      }
    }

    // The sid leads to the object that the path leads to, which has it and the QoS.
    ghost predicate LeadsTo(path: Path, sid: Sid, qos: Qos)
      reads this, table, if path in table.paths then {table.paths[path]} else {}
    {
      && sid in reqSubSids && path in table.paths && reqSubSids[sid] == table.paths[path]
      && table.paths[path].path == path && table.paths[path].reqSid == sid && table.paths[path].qos == qos
    }

    lemma LeadsAfter(n: Node, path: Path, sid: Sid, qos: Qos)
      requires Valid() && Runs.Answers(n, State(), path, sid, qos)
      ensures LeadsTo(path, sid, qos) && Paths(reqSubSids) == Runs.SidsWithout(n.sids, path)[sid := path]
    {
      hide Runs.SidsWithout;
      table.KeysAgree();
      table.OwnsAt(path);
      table.Holds(table.paths[path]);
      assert Paths(reqSubSids)[sid] == path;
    }

    // vector_free on the pending list.
    method FreeAcks()
      requires Valid()
      modifies `Repr, pendingAcks
      ensures Valid() && fresh(Repr - old(Repr)) && State() == old(State()).(acks := [])
    {
      hide SubTable.Valid, SidsOk;
      if pendingAcks != null {
        pendingAcks.Free();
        Repr := Repr + {pendingAcks.data};
      }
    }

    // Every subscription is found under no sid but its own.
    ghost predicate SidsOwn()
      reads this, table, table.paths.Values
    {
      forall p | p in table.paths :: OnlyOwnSid(table.paths[p])
    }

    lemma NodeKeys()
      requires Valid()
      ensures table.paths.Keys == State().subs.Keys
    {
      hide SubTable.Valid, Acks;
      table.KeysAgree();
    }

    // The second loop of broker_remote_dslink_free frees the subscriptions below QoS 2.
    method FreeBelowQos2()
      requires Valid() && State().acks == [] && SidsOwn()
      requires Defined(State(), DisconnectEvent)
      modifies Repr
      ensures Valid() && fresh(Repr - old(Repr)) && unchanged(`link)
      ensures State() == old(State()).(sids := State().sids, subs := KeptMap(old(State()).subs, old(State()).subs.Keys))
    {
      hide Valid, State, KeptMap, SidsOwn, Defined, FreeDefined;
      ghost var n := State();
      KeptMapEnds(n.subs);
      NodeKeys();
      var todo := table.paths.Keys;
      while todo != {}
        invariant Valid() && fresh(Repr - old(Repr)) && link == old(link)
        invariant todo <= table.paths.Keys
        invariant State() == n.(sids := State().sids, subs := KeptMap(n.subs, n.subs.Keys - todo))
        invariant SidsOwn()
        decreases |todo|
      {
        var p :| p in todo;
        NodeKeys();
        KeptMapStep(n.subs, n.subs.Keys - todo, p);
        ghost var was := todo;
        todo := todo - {p};
        assert n.subs.Keys - todo == n.subs.Keys - was + {p};
        KeptDefined(n, State(), p);
        FreeIfBelowQos2(p);
      }
    }

    method FreeIfBelowQos2(p: Path)
      requires Valid() && State().acks == [] && SidsOwn() && p in table.paths
      requires p in State().subs && State().subs[p].qos < 2 ==> FreeDefined(State(), p)
      modifies Repr
      ensures Valid() && fresh(Repr - old(Repr)) && unchanged(`link) && SidsOwn()
      ensures forall q | q in old(table.paths) && q != p :: q in table.paths
      ensures p in old(State()).subs
      ensures State() == old(State()).(sids := State().sids, subs := if old(State()).subs[p].qos < 2 then old(State()).subs - {p} else old(State()).subs)
    {
      hide SubTable.Valid, SubRequester.Valid, Acks, AcksOk, LinkOk, SidsOk;
      table.OwnsAt(p);
      table.Holds(table.paths[p]);
      if table.paths[p].qos < 2 {
        FreeSubRequester(table.paths[p]);
      }
    }

    method ClearInTable()
      requires Valid() && forall p | p in table.Model :: table.Model[p].inFlight < U32
      modifies table.Repr
      ensures Valid() && table.paths == old(table.paths)
      ensures State() == old(State()).(subs := ClearedMap(old(State()).subs, old(State()).subs.Keys))
      ensures forall p | p in table.paths :: table.paths[p].reqSid == old(table.paths[p].reqSid)
      ensures forall p | p in table.paths :: table.paths[p].qos == old(table.paths[p].qos)
      ensures forall p | p in table.paths :: table.paths[p].messageQueue == old(table.paths[p].messageQueue)
    {
      hide SubTable.Valid, Acks, AcksOk, LinkOk, SidsOk;
      table.ClearQos2();
      TableChanged();
    }

    method ForgetInTable()
      requires Valid()
      modifies table.Repr
      ensures Valid() && table.paths == old(table.paths)
      ensures State() == old(State()).(subs := ForgottenMap(old(State()).subs, old(State()).subs.Keys))
    {
      hide SubTable.Valid, Acks, AcksOk, LinkOk, SidsOk;
      table.ForgetAll();
      TableChanged();
    }

    /** broker_remote_dslink_free and the end of broker_close_link, for the subscriptions. */
    method Disconnect()
      requires Valid() && Invariants.Inv(State())
      requires Defined(State(), DisconnectEvent)
      modifies Repr
      ensures Valid() && fresh(Repr - old(Repr)) && link == null
      ensures State() == Delivery.Disconnect(old(State()))
    {
      hide SubTable.Valid, Acks, AcksOk, LinkOk, SidsOk, ClearIds, ClearedMap, KeptMap, ForgottenMap, Invariants.Inv, Delivery.Disconnect;
      ghost var n := State();
      InvForDisconnect();
      LoopsPark(n);
      FreeAcks();
      ClearInTable();
      ClearedDefined(n, State());
      FreeBelowQos2();
      ForgetInTable();
      CutOff();
    }

    method CutOff()
      requires Valid()
      modifies `reqSubSids, `link
      ensures Valid() && link == null && State() == old(State()).(online := false, sids := map[])
    {
      hide SubTable.Valid, Acks, AcksOk;
      reqSubSids := map[];
      link := null;
    }

    lemma InvForDisconnect()
      requires Valid() && Invariants.Inv(State())
      ensures SidsOwn() && forall p | p in table.Model :: table.Model[p].inFlight < U32
    {
      hide SubTable.Valid, Acks, AcksOk, LinkOk, SidsOk, Invariants.SubInv, Invariants.IdsFor;
      forall p | p in table.paths ensures OnlyOwnSid(table.paths[p]) {
        table.OwnsAt(p);
        InvFreeable(table.paths[p]);
      }
      forall p | p in table.Model ensures table.Model[p].inFlight < U32 {
        assert Invariants.BalancedSub(State(), p, [], Invariants.IdsFor(State().acks, p));
      }
    }

    // broker_dslink_connect.
    method Connect()
      requires Valid() && link == null
      modifies this
      ensures Valid() && fresh(Repr - old(Repr)) && link != null
      ensures State() == Delivery.Connect(old(State()))
    {
      hide SubTable.Valid, Acks;
      link := new RemoteDSLink();
      Total := 0;
      Repr := Repr + {link};
    }

    // Any other message on the link.
    method SendOther() returns (id: nat)
      requires Valid() && link != null
      modifies `Total, link
      ensures Valid() && id == NextId(old(Total)) && State() == Step(old(State()), OtherTrafficEvent)
    {
      hide SubTable.Valid, Acks;
      id := link.SendObj(Total);
      Total := Total + 1;
    }

    /** The handler of each event computes its step, wherever the code is defined. */
    method Handle(e: Event)
      requires Valid() && Invariants.Inv(State()) && Enabled(State(), e) && Defined(State(), e)
      modifies Repr
      ensures Valid() && fresh(Repr - old(Repr)) && State() == Step(old(State()), e)
    {
      hide SubTable.Valid, Acks, AcksOk, LinkOk, SidsOk, Offer, Acknowledge, Subscribe, Unsubscribe, Delivery.Disconnect, Invariants.SubInv;
      match e
      case OfferEvent(path, msg) =>
        table.KeysAgree();
        table.OwnsAt(path);
        UpdateSubReq(table.paths[path], msg);
      case AckEvent(ack) => CheckSubscriptionAck(ack);
      case SubscribeEvent(path, sid, qos, last) => HandleSubscribe(path, sid, qos, last);
      case UnsubscribeEvent(sid) => HandleUnsubscribe(sid);
      case DisconnectEvent => Disconnect();
      case ConnectEvent => Connect();
      case OtherTrafficEvent => var _ := SendOther();
    }
  }

  /** The objects go through every run that strands no value: each handler finds what it
      relies on, and the end state is that of the run. */
  method Serve(cfg: Config, es: seq<Event>, ghost run: seq<Node>) returns (node: DownstreamNode)
    requires 0 < cfg.ring <= 0x8000_0000 && 0 < cfg.window < U32
    requires IsRun(run, es) && run[0] == Initial(cfg)
    requires forall e | e in es :: e.SubscribeEvent? ==> e.sid != NO_SID
    requires forall i | 0 <= i < |es| :: !Strands(run[i], es[i])
    ensures node.Valid() && fresh(node.Repr) && node.State() == run[|es|]
  {
    hide Step, Strands, Defined, Invariants.Inv, DownstreamNode.Valid, DownstreamNode.State;
    node := new DownstreamNode(cfg);
    RunDefined(run, es, cfg);
    for i := 0 to |es|
      invariant node.Valid() && fresh(node.Repr) && node.State() == run[i]
    {
      assert IsRun(run[..i + 1], es[..i]);
      Invariants.RunKeeps(run[..i + 1], es[..i], cfg);
      node.Handle(es[i]);
    }
  }
}
