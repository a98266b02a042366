/** What every run of the delivery protocol keeps, whatever is acknowledged and whatever
    is evicted: the in-flight counters agree with the pending acks, the window holds, no
    value leaves a ring silently, and the two subscription maps agree. */
module DeliveryInvariants {
  import opened Common
  import opened Ring
  import opened Vec
  import opened Delivery

  // ---------- the entries of one subscription ----------

  function IdsFor(acks: seq<PendingAck>, p: Path): (r: seq<nat>)
    ensures |r| <= |acks|
  {
    if acks == [] then []
    else IdsFor(acks[..|acks| - 1], p) + (if acks[|acks| - 1].path == p then [acks[|acks| - 1].id] else [])
  }

  lemma {:induction false} IdsForAppend(a: seq<PendingAck>, b: seq<PendingAck>, p: Path)
    ensures IdsFor(a + b, p) == IdsFor(a, p) + IdsFor(b, p)
  {
    if b == [] {
      assert a + b == a;
    } else {
      assert (a + b)[..|a + b| - 1] == a + b[..|b| - 1];
      IdsForAppend(a, b[..|b| - 1], p);
    }
  }

  lemma {:induction false} IdsForOthers(acks: seq<PendingAck>, p: Path, q: Path)
    ensures IdsFor(Others(acks, p), q) == if p == q then [] else IdsFor(acks, q)
  {
    if acks != [] {
      var front, a := acks[..|acks| - 1], acks[|acks| - 1];
      IdsForOthers(front, p, q);
      assert [a][..0] == [];
      IdsForAppend(Others(front, p), if a.path != p then [a] else [], q);
    }
  }

  lemma {:induction false} OthersAreOthers(acks: seq<PendingAck>, p: Path)
    ensures forall a | a in Others(acks, p) :: a in acks && a.path != p
  {
    if acks != [] {
      OthersAreOthers(acks[..|acks| - 1], p);
    }
  }

  lemma {:induction false} NoIdsFor(acks: seq<PendingAck>, p: Path)
    requires forall a | a in acks :: a.path != p
    ensures IdsFor(acks, p) == []
  {
    if acks != [] {
      NoIdsFor(acks[..|acks| - 1], p);
    }
  }

  // ---------- the exact effect of a pump ----------

  function Msgs(q: seq<Slot>): (r: seq<Message>)
    ensures |r| == |q| && forall i | 0 <= i < |q| :: r[i] == q[i].msg
  {
    seq(|q|, i requires 0 <= i < |q| => q[i].msg)
  }

  // The ids of k sends in a row, and the entries and slots they leave.
  function FreshIds(total: nat, k: nat): (r: seq<nat>)
    ensures |r| == k && forall j | 0 <= j < k :: r[j] == NextId(total + j)
  {
    seq<nat>(k, j requires 0 <= j < k => NextId(total + j))
  }

  function FreshAcks(p: Path, total: nat, k: nat): (r: seq<PendingAck>)
    ensures |r| == k && forall j | 0 <= j < k :: r[j] == PendingAck(p, NextId(total + j))
  {
    seq(k, j requires 0 <= j < k => PendingAck(p, NextId(total + j)))
  }

  function MarkSent(q: seq<Slot>, from: nat, total: nat, k: nat): (r: seq<Slot>)
    ensures |r| == |q|
    ensures forall i | 0 <= i < |q| ::
              r[i] == if from <= i < from + k then Slot(q[i].msg, NextId(total + (i - from))) else q[i]
  {
    seq(|q|, i requires 0 <= i < |q| => if from <= i < from + k then Slot(q[i].msg, NextId(total + (i - from))) else q[i])
  }

  // k positions in a row.
  function Positions(from: int, k: nat): (r: seq<int>)
    ensures |r| == k && forall j | 0 <= j < k :: r[j] == from + j
  {
    seq<int>(k, j requires 0 <= j < k => from + j)
  }

  /** n after sending the k slots of p that start at its counter. */
  function Send(n: Node, p: Path, k: nat): Node
    requires p in n.subs && n.subs[p].inFlight + k <= Max(n.subs[p].inFlight, |n.subs[p].queue|)
  {
    n.(total := n.total + k, listed := n.listed || k > 0, acks := n.acks + FreshAcks(p, n.total, k), subs := n.subs[p := SendSub(n.subs[p], n.total, k)])
  }

  function SendSub(s: Sub, total: nat, k: nat): Sub
    requires s.inFlight + k <= Max(s.inFlight, |s.queue|)
  {
    s.(queue := MarkSent(s.queue, s.inFlight, total, k),
       inFlight := s.inFlight + k,
       sent := s.sent + (if k == 0 then [] else Msgs(s.queue[s.inFlight..s.inFlight + k])),
       at := s.at + Positions(Base(s) + s.inFlight, k))
  }

  lemma {:induction false} PumpEffect(n: Node, p: Path) returns (k: nat)
    requires p in n.subs
    ensures n.subs[p].inFlight + k <= Max(n.subs[p].inFlight, |n.subs[p].queue|)
    ensures Pump(n, p) == Send(n, p, k)
    ensures !CanSend(Pump(n, p), p)
    ensures k > 0 ==> Live(n, p) && n.subs[p].inFlight + k <= n.cfg.window
    ensures forall i | n.subs[p].inFlight <= i < n.subs[p].inFlight + k :: n.subs[p].queue[i].id == 0
    decreases n.cfg.window - n.subs[p].inFlight
  {
    var s := n.subs[p];
    if CanSend(n, p) {
      var m := SendOne(n, p);
      k := PumpEffect(m, p);
      SendOneThenSend(n, p, k);
      forall i | s.inFlight <= i < s.inFlight + k + 1 ensures s.queue[i].id == 0 {
        assert i > s.inFlight ==> m.subs[p].queue[i] == s.queue[i];
      }
      k := k + 1;
    } else {
      k := 0;
      assert MarkSent(s.queue, s.inFlight, n.total, 0) == s.queue;
      assert n.subs[p := s] == n.subs;
      assert n.acks + FreshAcks(p, n.total, 0) == n.acks;
      assert s.at + Positions(Base(s) + s.inFlight, 0) == s.at;
      assert SendSub(s, n.total, 0) == s;
    }
  }

  lemma FreshAcksStep(p: Path, total: nat, k: nat)
    ensures FreshAcks(p, total, k + 1) == [PendingAck(p, NextId(total))] + FreshAcks(p, total + 1, k)
  {
  }

  lemma MarkSentStep(q: seq<Slot>, c: nat, total: nat, k: nat)
    requires c < |q|
    ensures MarkSent(q[c := q[c].(id := NextId(total))], c + 1, total + 1, k) == MarkSent(q, c, total, k + 1)
  {
  }

  lemma MsgsStep(q: seq<Slot>, c: nat, id: nat, k: nat)
    requires c + 1 + k <= |q|
    ensures Msgs(q[c..c + k + 1]) == [q[c].msg] + Msgs(q[c := q[c].(id := id)][c + 1..c + 1 + k])
  {
  }

  lemma SendSlotThenSendSub(s: Sub, total: nat, k: nat)
    requires s.inFlight + 1 + k <= |s.queue|
    ensures SendSub(SendSlot(s, NextId(total)), total + 1, k) == SendSub(s, total, k + 1)
  {
    QueueOfBoth(s, total, k);
    SentOfBoth(s, total, k);
    AtOfBoth(s, total, k);
    OthersOfBoth(s, total, k);
    hide SendSub, SendSlot;
  }

  lemma QueueOfBoth(s: Sub, total: nat, k: nat)
    requires s.inFlight + 1 + k <= |s.queue|
    ensures SendSub(SendSlot(s, NextId(total)), total + 1, k).queue == SendSub(s, total, k + 1).queue
  {
    hide NextId, MarkSent, Msgs, Positions, Base;
    MarkSentStep(s.queue, s.inFlight, total, k);
  }

  lemma SentOfBoth(s: Sub, total: nat, k: nat)
    requires s.inFlight + 1 + k <= |s.queue|
    ensures SendSub(SendSlot(s, NextId(total)), total + 1, k).sent == SendSub(s, total, k + 1).sent
  {
    hide NextId, MarkSent, Msgs, Positions, Base;
    SentStep(s.queue, s.inFlight, NextId(total), k, s.sent);
  }

  lemma AtOfBoth(s: Sub, total: nat, k: nat)
    requires s.inFlight + 1 + k <= |s.queue|
    ensures SendSub(SendSlot(s, NextId(total)), total + 1, k).at == SendSub(s, total, k + 1).at
  {
    hide NextId, MarkSent, Msgs, Positions, Base;
    SameBase(s, SendSlot(s, NextId(total)));
    AtStep(s.at, Base(s) + s.inFlight, k);
  }

  lemma OthersOfBoth(s: Sub, total: nat, k: nat)
    requires s.inFlight + 1 + k <= |s.queue|
    ensures var one, both := SendSub(SendSlot(s, NextId(total)), total + 1, k), SendSub(s, total, k + 1);
            one.sid == both.sid && one.qos == both.qos && one.inFlight == both.inFlight && one.offered == both.offered
  {
    hide NextId, MarkSent, Msgs, Positions, Base;
  }

  lemma SameBase(s: Sub, t: Sub)
    requires |t.queue| == |s.queue| && t.offered == s.offered
    ensures Base(t) == Base(s)
  {
  }

  lemma AtStep(at: seq<int>, from: int, k: nat)
    ensures at + [from] + Positions(from + 1, k) == at + Positions(from, k + 1)
  {
    hide Positions;
    PositionsStep(from, k);
    JoinThree(at, [from], Positions(from + 1, k));
  }

  lemma PositionsStep(from: int, k: nat)
    ensures Positions(from, k + 1) == [from] + Positions(from + 1, k)
  {
  }

  lemma SentStep(q: seq<Slot>, c: nat, id: nat, k: nat, sent: seq<Message>)
    requires c + 1 + k <= |q|
    ensures sent + [q[c].msg] + (if k == 0 then [] else Msgs(q[c := q[c].(id := id)][c + 1..c + 1 + k]))
         == sent + Msgs(q[c..c + (k + 1)])
  {
    hide Msgs, Logged;
    var rest := Msgs(q[c := q[c].(id := id)][c + 1..c + 1 + k]);
    MsgsStep(q, c, id, k);
    assert k == 0 ==> rest == [] by { assert |rest| == k; }
    JoinThree(sent, [q[c].msg], rest);
  }

  lemma SendOneThenSend(n: Node, p: Path, k: nat)
    requires p in n.subs && n.subs[p].inFlight + 1 + k <= |n.subs[p].queue|
    ensures Send(SendOne(n, p), p, k) == Send(n, p, k + 1)
  {
    hide NextId, FreshAcks, SendSub;
    var t := SendSlot(n.subs[p], NextId(n.total));
    FreshAcksStep(p, n.total, k);
    SendSlotThenSendSub(n.subs[p], n.total, k);
    UpdateTwice(n.subs, p, t, SendSub(t, n.total + 1, k));
    JoinThree(n.acks, [PendingAck(p, NextId(n.total))], FreshAcks(p, n.total + 1, k));
  }

  // ---------- the exact effect of an ack ----------

  /** What any number of sends and settlements may change: the entries grow by `tail`,
      whose ids are the next ones in order. */
  ghost predicate Grown(n: Node, m: Node, tail: seq<PendingAck>) {
    && m.cfg == n.cfg && m.online == n.online && m.sids == n.sids
    && m.acks == n.acks + tail && m.total == n.total + |tail| && m.listed == (n.listed || tail != [])
    && FreshTail(tail, n.total)
    && n.subs.Keys == m.subs.Keys
    && (forall p | p in n.subs :: SameIdentity(n.subs[p], m.subs[p]))
  }

  ghost predicate FreshTail(tail: seq<PendingAck>, total: nat) {
    forall j | 0 <= j < |tail| :: tail[j].id == NextId(total + j)
  }

  ghost predicate SameIdentity(s: Sub, t: Sub) {
    t.sid == s.sid && t.qos == s.qos && t.offered == s.offered
  }

  lemma SendGrown(n: Node, p: Path, k: nat)
    requires p in n.subs && n.subs[p].inFlight + k <= Max(n.subs[p].inFlight, |n.subs[p].queue|)
    ensures Grown(n, Send(n, p, k), FreshAcks(p, n.total, k))
  {
  }

  lemma AckOneGrown(n: Node, i: nat) returns (tail: seq<PendingAck>)
    requires i < |n.acks|
    ensures Grown(n, AckOne(n, i), tail)
    ensures forall a | a in tail :: a.path == n.acks[i].path
  {
    hide NextId, Pump, SendSub, FreshAcks, DropAcked;
    var a := n.acks[i];
    tail := [];
    if a.path in n.subs {
      var m := Settle(n, a.path, a.id);
      if |m.subs[a.path].queue| < |n.subs[a.path].queue| {
        var k := PumpEffect(m, a.path);
        SendGrown(m, a.path, k);
        tail := FreshAcks(a.path, n.total, k);
      }
    }
  }

  lemma GrownTwice(n: Node, m: Node, r: Node, tail: seq<PendingAck>, tail': seq<PendingAck>)
    requires Grown(n, m, tail) && Grown(m, r, tail')
    ensures Grown(n, r, tail + tail')
  {
  }

  lemma AckLoopDone(n: Node)
    ensures AckLoop(n, 0) == n && Grown(n, n, [])
  {
  }

  lemma AckLoopNext(n: Node, i: nat)
    requires 0 < i <= |n.acks|
    ensures i - 1 <= |AckOne(n, i - 1).acks|
    ensures AckLoop(n, i) == AckLoop(AckOne(n, i - 1), i - 1)
  {
    hide AckOne;
    var _ := AckOneGrown(n, i - 1);
  }

  lemma {:induction false} AckLoopGrown(n: Node, i: nat) returns (tail: seq<PendingAck>)
    requires i <= |n.acks|
    ensures Grown(n, AckLoop(n, i), tail)
    decreases i
  {
    hide AckLoop, AckOne, Grown;
    tail := [];
    if i == 0 {
      AckLoopDone(n);
    } else {
      AckLoopNext(n, i);
      var first := AckOneGrown(n, i - 1);
      var rest := AckLoopGrown(AckOne(n, i - 1), i - 1);
      GrownTwice(n, AckOne(n, i - 1), AckLoop(n, i), first, rest);
      tail := first + rest;
    }
  }

  // The ids of a connection's pending acks, as long as its counter has not wrapped.
  ghost predicate Sorted(n: Node) {
    && (forall i, j | 0 <= i < j < |n.acks| :: n.acks[i].id < n.acks[j].id)
    && (forall i | 0 <= i < |n.acks| :: 0 < n.acks[i].id <= n.total)
  }

  function Above(acks: seq<PendingAck>, ack: nat): seq<PendingAck> {
    if acks == [] then []
    else Above(acks[..|acks| - 1], ack) + (if acks[|acks| - 1].id > ack then [acks[|acks| - 1]] else [])
  }

  lemma {:induction false} AboveSplit(acks: seq<PendingAck>, ack: nat, r: nat)
    requires r <= |acks|
    requires forall i | 0 <= i < r :: acks[i].id <= ack
    requires forall i | r <= i < |acks| :: acks[i].id > ack
    ensures Above(acks, ack) == acks[r..]
  {
    if |acks| > 0 {
      AboveSplit(acks[..|acks| - 1], ack, if r == |acks| then r - 1 else r);
    }
  }

  // The retired entries are exactly those at or below the ack.
  lemma RetiredExact(n: Node, ack: nat)
    requires Sorted(n)
    ensures forall i | 0 <= i < Retired(n, ack) :: n.acks[i].id <= ack
    ensures forall i | Retired(n, ack) <= i < |n.acks| :: n.acks[i].id > ack
    ensures Above(n.acks, ack) == n.acks[Retired(n, ack)..]
  {
    UpperBoundExact(AckSigns(n.acks, ack), 0, |n.acks|);
    AboveSplit(n.acks, ack, Retired(n, ack));
  }

  lemma SortedAppend(n: Node, r: nat, tail: seq<PendingAck>, m: Node)
    requires Sorted(n) && r <= |n.acks| && FreshTail(tail, n.total)
    requires m.acks == n.acks[r..] + tail && m.total == n.total + |tail| <= ID_PERIOD
    ensures Sorted(m)
  {
    assert forall j | 0 <= j < |tail| :: tail[j].id == n.total + j + 1;
  }

  lemma DropJoin<T>(a: seq<T>, b: seq<T>, i: nat)
    requires i <= |a|
    ensures (a + b)[i..] == a[i..] + b
  {
  }

  /** The exact effect of any ack on the list it walks: the entries above the ack stay, the
      entries sent by the loop follow them under fresh ids, and the list is still sorted. */
  lemma AcknowledgeExact(n: Node, ack: nat) returns (tail: seq<PendingAck>)
    requires Sorted(n)
    ensures var m := Acknowledge(n, ack);
            && m.acks == Above(n.acks, ack) + tail
            && m.total == n.total + |tail| && FreshTail(tail, n.total)
            && (m.total <= ID_PERIOD ==> Sorted(m))
  {
    hide AckLoop, Retired, NextId;
    var last := Retired(n, ack);
    RetiredExact(n, ack);
    tail := AckLoopGrown(n, last);
    DropJoin(n.acks, tail, last);
    var m := Acknowledge(n, ack);
    if m.total <= ID_PERIOD {
      SortedAppend(n, last, tail, m);
    }
  }

  // ---------- conservation and the window ----------

  /** Inside the ack loop the entries in [i, last) have been settled. */
  ghost predicate Balanced(n: Node, i: nat, last: nat) {
    && i <= last <= |n.acks|
    && (forall p | p in n.subs :: BalancedSub(n, p, IdsFor(n.acks[..i], p), IdsFor(n.acks[last..], p)))
    && (forall a | a in n.acks[..i] || a in n.acks[last..] :: a.path in n.subs)
  }

  ghost predicate BalancedSub(n: Node, p: Path, unsettled: seq<nat>, kept: seq<nat>)
    requires p in n.subs
  {
    && n.subs[p].inFlight == |unsettled| + |kept| <= n.cfg.window
    && (n.subs[p].inFlight > 0 ==> Live(n, p))
  }

  // Between steps nothing is half settled.
  ghost predicate Conserved(n: Node) {
    && (forall p | p in n.subs :: BalancedSub(n, p, [], IdsFor(n.acks, p)))
    && (forall a | a in n.acks :: a.path in n.subs)
  }

  lemma ConservedIsBalanced(n: Node, last: nat)
    requires last <= |n.acks|
    ensures Conserved(n) ==> Balanced(n, last, last)
    ensures Balanced(n, 0, last) ==> Conserved(n.(acks := n.acks[last..]))
  {
    assert n.acks == n.acks[..last] + n.acks[last..];
    forall p | p in n.subs
      ensures IdsFor(n.acks, p) == IdsFor(n.acks[..last], p) + IdsFor(n.acks[last..], p)
    {
      IdsForAppend(n.acks[..last], n.acks[last..], p);
    }
    assert n.acks[..0] == [];
  }

  lemma {:induction false} IdsForFresh(p: Path, total: nat, k: nat, q: Path)
    ensures IdsFor(FreshAcks(p, total, k), q) == if p == q then FreshIds(total, k) else []
  {
    if k > 0 {
      IdsForFresh(p, total, k - 1, q);
      assert FreshAcks(p, total, k)[..k - 1] == FreshAcks(p, total, k - 1);
    }
  }

  lemma SendBalancedSub(n: Node, p: Path, k: nat, q: Path, unsettled: seq<nat>, kept: seq<PendingAck>)
    requires p in n.subs && q in n.subs
    requires n.subs[p].inFlight + k <= Max(n.subs[p].inFlight, |n.subs[p].queue|)
    requires k > 0 ==> Live(n, p) && n.subs[p].inFlight + k <= n.cfg.window
    requires BalancedSub(n, q, unsettled, IdsFor(kept, q))
    ensures BalancedSub(Send(n, p, k), q, unsettled, IdsFor(kept + FreshAcks(p, n.total, k), q))
  {
    IdsForAppend(kept, FreshAcks(p, n.total, k), q);
    IdsForFresh(p, n.total, k, q);
  }

  lemma SendKeepsBalance(n: Node, p: Path, k: nat, i: nat, last: nat)
    requires Balanced(n, i, last) && p in n.subs
    requires n.subs[p].inFlight + k <= Max(n.subs[p].inFlight, |n.subs[p].queue|)
    requires k > 0 ==> Live(n, p) && n.subs[p].inFlight + k <= n.cfg.window
    ensures Balanced(Send(n, p, k), i, last)
  {
    hide IdsFor, FreshAcks, BalancedSub;
    var m := Send(n, p, k);
    var kept := n.acks[last..];
    assert m.acks[..i] == n.acks[..i];
    assert m.acks[last..] == kept + FreshAcks(p, n.total, k);
    forall q | q in m.subs
      ensures BalancedSub(m, q, IdsFor(m.acks[..i], q), IdsFor(m.acks[last..], q))
    {
      SendBalancedSub(n, p, k, q, IdsFor(n.acks[..i], q), kept);
    }
  }

  lemma PumpKeepsBalance(n: Node, p: Path, i: nat, last: nat)
    requires Balanced(n, i, last) && p in n.subs
    ensures Balanced(Pump(n, p), i, last)
  {
    var k := PumpEffect(n, p);
    SendKeepsBalance(n, p, k, i, last);
  }

  lemma IdsForNext(acks: seq<PendingAck>, i: nat, p: Path)
    requires i < |acks|
    ensures IdsFor(acks[..i + 1], p) == IdsFor(acks[..i], p) + (if acks[i].path == p then [acks[i].id] else [])
  {
    assert acks[..i + 1][..i] == acks[..i];
  }

  lemma SettleKeepsBalance(n: Node, i: nat, last: nat)
    requires Balanced(n, i + 1, last)
    ensures n.acks[i].path in n.subs && n.subs[n.acks[i].path].inFlight > 0
    ensures Balanced(Settle(n, n.acks[i].path, n.acks[i].id), i, last)
  {
    hide IdsFor, DropAcked;
    var a := n.acks[i];
    assert a in n.acks[..i + 1];
    var m := Settle(n, a.path, a.id);
    forall q | q in m.subs
      ensures BalancedSub(m, q, IdsFor(m.acks[..i], q), IdsFor(m.acks[last..], q))
    {
      IdsForNext(n.acks, i, q);
      assert BalancedSub(n, q, IdsFor(n.acks[..i + 1], q), IdsFor(n.acks[last..], q));
    }
    IdsForNext(n.acks, i, a.path);
    assert BalancedSub(n, a.path, IdsFor(n.acks[..i + 1], a.path), IdsFor(n.acks[last..], a.path));
    assert forall x | x in n.acks[..i] :: x in n.acks[..i + 1];
  }

  lemma {:induction false} AckLoopKeepsBalance(n: Node, i: nat, last: nat)
    requires Balanced(n, i, last)
    ensures Balanced(AckLoop(n, i), 0, last)
    decreases i
  {
    hide AckLoop, AckOne, BalancedSub, IdsFor;
    if i == 0 {
      AckLoopDone(n);
    } else {
      AckLoopNext(n, i);
      AckOneKeepsBalance(n, i - 1, last);
      AckLoopKeepsBalance(AckOne(n, i - 1), i - 1, last);
    }
  }

  lemma AckOneKeepsBalance(n: Node, i: nat, last: nat)
    requires Balanced(n, i + 1, last)
    ensures Balanced(AckOne(n, i), i, last)
  {
    var a := n.acks[i];
    SettleKeepsBalance(n, i, last);
    PumpKeepsBalance(Settle(n, a.path, a.id), a.path, i, last);
  }

  lemma AcknowledgeKeepsConservation(n: Node, ack: nat)
    requires Conserved(n)
    ensures Conserved(Acknowledge(n, ack))
  {
    var last := Retired(n, ack);
    ConservedIsBalanced(n, last);
    AckLoopKeepsBalance(n, last, last);
    ConservedIsBalanced(AckLoop(n, last), last);
  }

  // ---------- the two subscription maps ----------

  /** req_sub_paths and req_sub_sids hold the same subscriptions, one that waits for its
      requester being in the path map only. */
  ghost predicate Indexed(n: Node) {
    && (forall sid | sid in n.sids :: sid != NO_SID && n.sids[sid] in n.subs && n.subs[n.sids[sid]].sid == sid)
    && (forall p | p in n.subs :: n.subs[p].sid != NO_SID ==> n.subs[p].sid in n.sids && n.sids[n.subs[p].sid] == p)
  }

  // ---------- no silent loss ----------

  /** The ring holds exactly the last values offered, in order; a subscription that is not
      live has sent nothing on this connection. */
  ghost predicate Lossless(s: Sub, ring: nat) {
    && |s.queue| <= ring && |s.queue| <= |s.offered|
    && Msgs(s.queue) == s.offered[|s.offered| - |s.queue|..]
    && Logged(s.at, s.sent, s.offered)
  }

  // Every value sent is the one offered at its position.
  ghost predicate Logged(at: seq<int>, sent: seq<Message>, offered: seq<Message>) {
    |at| == |sent| && forall i | 0 <= i < |at| :: 0 <= at[i] < |offered| && sent[i] == offered[at[i]]
  }

  ghost predicate SubInv(n: Node, p: Path)
    requires p in n.subs
  {
    && Lossless(n.subs[p], n.cfg.ring)
    && (!Live(n, p) ==> n.subs[p].sent == [])
  }

  /** The invariant of every run. */
  ghost predicate Inv(n: Node) {
    && n.cfg.ring > 0
    && Conserved(n) && Indexed(n)
    && (!n.online ==> n.sids == map[] && n.acks == [])
    && forall p | p in n.subs :: SubInv(n, p)
  }

  lemma BalancedAtZero(n: Node)
    ensures Conserved(n) <==> Balanced(n, 0, 0)
  {
    assert n.acks[..0] == [] && n.acks[0..] == n.acks;
  }

  lemma SendSubLossless(s: Sub, ring: nat, total: nat, k: nat)
    requires s.inFlight + k <= Max(s.inFlight, |s.queue|) && Lossless(s, ring)
    ensures Lossless(SendSub(s, total, k), ring)
  {
    hide Msgs, MarkSent, Positions, Logged, Lossless, Base;
    MarkedMsgs(s.queue, s.inFlight, total, k);
    SendLogged(s, ring, k);
    var t := SendSub(s, total, k);
    assert t.offered == s.offered && t.queue == MarkSent(s.queue, s.inFlight, total, k);
    SameLossless(s, t, ring);
  }

  lemma SameLossless(s: Sub, t: Sub, ring: nat)
    requires Lossless(s, ring) && t.offered == s.offered && |t.queue| == |s.queue| && Msgs(t.queue) == Msgs(s.queue)
    requires Logged(t.at, t.sent, t.offered)
    ensures Lossless(t, ring)
  {
    hide Msgs, Logged;
  }

  lemma MarkedMsgs(q: seq<Slot>, c: nat, total: nat, k: nat)
    ensures Msgs(MarkSent(q, c, total, k)) == Msgs(q) && |MarkSent(q, c, total, k)| == |q|
  {
  }

  lemma SendLogged(s: Sub, ring: nat, k: nat)
    requires s.inFlight + k <= Max(s.inFlight, |s.queue|) && Lossless(s, ring)
    ensures Logged(s.at + Positions(Base(s) + s.inFlight, k),
                   s.sent + (if k == 0 then [] else Msgs(s.queue[s.inFlight..s.inFlight + k])), s.offered)
  {
    hide Msgs, Positions, Logged;
    if k == 0 {
      assert s.at + Positions(Base(s) + s.inFlight, 0) == s.at && s.sent + [] == s.sent;
    } else {
      var c, b: nat := s.inFlight, Base(s);
      RunOfRing(s.queue, s.offered, b, c, k);
      LoggedRun(s.at, s.sent, s.offered, b + c, k);
    }
  }

  lemma RunOfRing(q: seq<Slot>, offered: seq<Message>, b: nat, c: nat, k: nat)
    requires b + |q| == |offered| && Msgs(q) == offered[b..] && c + k <= |q|
    ensures Msgs(q[c..c + k]) == offered[b + c..b + c + k]
  {
    assert Msgs(q[c..c + k]) == Msgs(q)[c..c + k];
  }

  lemma LoggedRun(at: seq<int>, sent: seq<Message>, offered: seq<Message>, from: nat, k: nat)
    requires Logged(at, sent, offered) && from + k <= |offered|
    ensures Logged(at + Positions(from, k), sent + offered[from..from + k], offered)
  {
  }

  lemma PumpKeepsSubInv(n: Node, p: Path, q: Path)
    requires p in n.subs && q in n.subs && SubInv(n, q)
    ensures q in Pump(n, p).subs && SubInv(Pump(n, p), q)
  {
    var k := PumpEffect(n, p);
    if q == p {
      SendSubLossless(n.subs[p], n.cfg.ring, n.total, k);
    }
  }

  lemma PumpKeeps(n: Node, p: Path)
    requires Inv(n) && p in n.subs
    ensures Inv(Pump(n, p))
  {
    var k := PumpEffect(n, p);
    SendGrown(n, p, k);
    BalancedAtZero(n);
    PumpKeepsBalance(n, p, 0, 0);
    BalancedAtZero(Pump(n, p));
    forall q | q in Pump(n, p).subs ensures SubInv(Pump(n, p), q) {
      PumpKeepsSubInv(n, p, q);
    }
  }

  lemma PushLossless(s: Sub, ring: nat, msg: Message)
    requires Lossless(s, ring) && ring > 0
    ensures Lossless(s.(queue := AfterPush(s.queue, ring, Slot(msg, 0)), offered := s.offered + [msg]), ring)
  {
    var q := AfterPush(s.queue, ring, Slot(msg, 0));
    assert Msgs(q) == (s.offered + [msg])[|s.offered| + 1 - |q|..];
  }

  lemma OfferKeeps(n: Node, p: Path, msg: Message)
    requires Inv(n) && p in n.subs
    ensures Inv(Offer(n, p, msg))
  {
    hide Pump, IdsFor, Lossless, AfterPush;
    var m := Enqueue(n, p, msg);
    PushLossless(n.subs[p], n.cfg.ring, msg);
    forall q | q in m.subs
      ensures SubInv(m, q) && BalancedSub(m, q, [], IdsFor(m.acks, q))
    {
      assert SubInv(n, q) && BalancedSub(n, q, [], IdsFor(n.acks, q));
    }
    PumpKeeps(m, p);
  }

  lemma MsgsDrop(q: seq<Slot>, d: nat)
    requires d <= |q|
    ensures Msgs(q[d..]) == Msgs(q)[d..]
  {
  }

  lemma SettleLossless(s: Sub, ring: nat, id: nat)
    requires Lossless(s, ring)
    ensures Lossless(s.(queue := DropAcked(s.queue, id)), ring)
  {
    hide Msgs, Logged, AckedCount;
    var d := AckedCount(s.queue, id);
    MsgsDrop(s.queue, d);
    assert s.offered[Base(s)..][d..] == s.offered[Base(s) + d..];
  }

  lemma SettleKeepsSubInv(n: Node, p: Path, id: nat, q: Path)
    requires p in n.subs && q in n.subs && SubInv(n, q)
    ensures SubInv(Settle(n, p, id), q)
  {
    hide DropAcked, Msgs, Logged;
    if q == p {
      SettleLossless(n.subs[q], n.cfg.ring, id);
    }
  }

  lemma AckOneKeepsSubInv(n: Node, i: nat, q: Path)
    requires i < |n.acks| && q in n.subs && SubInv(n, q)
    ensures q in AckOne(n, i).subs && SubInv(AckOne(n, i), q)
  {
    var a := n.acks[i];
    if a.path in n.subs {
      SettleKeepsSubInv(n, a.path, a.id, q);
      PumpKeepsSubInv(Settle(n, a.path, a.id), a.path, q);
    }
  }

  lemma {:induction false} AckLoopKeepsSubInv(n: Node, i: nat, q: Path)
    requires i <= |n.acks| && q in n.subs && SubInv(n, q)
    ensures q in AckLoop(n, i).subs && SubInv(AckLoop(n, i), q)
    decreases i
  {
    hide AckLoop, AckOne, SubInv;
    if i == 0 {
      AckLoopDone(n);
    } else {
      AckLoopNext(n, i);
      AckOneKeepsSubInv(n, i - 1, q);
      AckLoopKeepsSubInv(AckOne(n, i - 1), i - 1, q);
    }
  }

  lemma AcknowledgeKeeps(n: Node, ack: nat)
    requires Inv(n)
    ensures n.online ==> Inv(Acknowledge(n, ack))
  {
    AcknowledgeKeepsConservation(n, ack);
    var last := Retired(n, ack);
    var _ := AckLoopGrown(n, last);
    forall q | q in Acknowledge(n, ack).subs ensures SubInv(Acknowledge(n, ack), q) {
      AckLoopKeepsSubInv(n, last, q);
    }
  }

  lemma FreeKeepsSub(n: Node, p: Path, q: Path)
    requires Inv(n) && q in n.subs && q != p && p in n.subs
    ensures SubInv(Free(n, p), q) && BalancedSub(Free(n, p), q, [], IdsFor(Others(n.acks, p), q))
  {
    hide IdsFor, Others, Lossless;
    assert SubInv(n, q) && BalancedSub(n, q, [], IdsFor(n.acks, q));
    IdsForOthers(n.acks, p, q);
  }

  lemma FreeKeeps(n: Node, p: Path)
    requires Inv(n)
    ensures Inv(Free(n, p)) && Free(n, p).subs == n.subs - {p}
  {
    hide IdsFor, SubInv, BalancedSub;
    if p in n.subs {
      var m := Free(n, p);
      forall q | q in m.subs
        ensures SubInv(m, q) && BalancedSub(m, q, [], IdsFor(m.acks, q))
      {
        FreeKeepsSub(n, p, q);
      }
      OthersAreOthers(n.acks, p);
      assert n.acks == [] ==> m.acks == [];
    } else {
      assert n.subs - {p} == n.subs;
    }
  }

  lemma UnsubscribeKeeps(n: Node, sid: Sid)
    requires Inv(n)
    ensures Inv(Unsubscribe(n, sid))
  {
    if sid in n.sids {
      var p := n.sids[sid];
      assert (n.sids - {sid}) - {sid} == n.sids - {sid};
      assert Unsubscribe(n, sid) == Free(n, p);
      FreeKeeps(n, p);
    }
  }

  // A fresh subscription, or an old one under a new sid.
  ghost function Put(n: Node, p: Path, s: Sub): Node {
    n.(subs := n.subs[p := s], sids := (if p in n.subs then n.sids - {n.subs[p].sid} else n.sids)[s.sid := p])
  }

  lemma PutKeepsSub(n: Node, p: Path, s: Sub, q: Path)
    requires Inv(n) && n.online && s.sid != NO_SID && Lossless(s, n.cfg.ring)
    requires if p in n.subs then s.inFlight == n.subs[p].inFlight else s.inFlight == 0
    requires q in n.subs || q == p
    ensures SubInv(Put(n, p, s), q) && BalancedSub(Put(n, p, s), q, [], IdsFor(n.acks, q))
  {
    if q in n.subs {
      assert SubInv(n, q) && BalancedSub(n, q, [], IdsFor(n.acks, q));
    } else {
      NoIdsFor(n.acks, q);
    }
  }

  lemma PutIndexed(n: Node, p: Path, s: Sub)
    requires Indexed(n) && s.sid != NO_SID && s.sid !in n.sids
    ensures Indexed(Put(n, p, s))
  {
  }

  lemma PutKeeps(n: Node, p: Path, s: Sub)
    requires Inv(n) && n.online && s.sid != NO_SID && s.sid !in n.sids && Lossless(s, n.cfg.ring)
    requires if p in n.subs then s.inFlight == n.subs[p].inFlight else s.inFlight == 0
    ensures Inv(Put(n, p, s))
  {
    var m := Put(n, p, s);
    forall q | q in m.subs
      ensures SubInv(m, q) && BalancedSub(m, q, [], IdsFor(m.acks, q))
    {
      PutKeepsSub(n, p, s, q);
    }
    PutIndexed(n, p, s);
  }

  lemma AddKeeps(n: Node, p: Path, sid: Sid, qos: Qos, last: Option<Message>)
    requires Inv(n) && n.online && p !in n.subs && sid !in n.sids && sid != NO_SID
    ensures Inv(Add(n, p, sid, qos, last))
  {
    var m := Put(n, p, NewSub(sid, qos));
    PutKeeps(n, p, NewSub(sid, qos));
    if last.Some? {
      OfferKeeps(m, p, last.value);
    }
  }

  lemma PutAgain(n: Node, p: Path, sid: Sid, qos: Qos)
    requires Inv(n) && n.online && p in n.subs && sid !in n.sids && sid != NO_SID
    ensures Inv(Put(n, p, n.subs[p].(sid := sid, qos := qos)))
  {
    hide Conserved, Indexed, IdsFor, Msgs, Logged;
    assert SubInv(n, p);
    PutKeeps(n, p, n.subs[p].(sid := sid, qos := qos));
  }

  lemma RenewKeeps(n: Node, p: Path, sid: Sid, qos: Qos, last: Option<Message>)
    requires Inv(n) && n.online && p in n.subs && sid !in n.sids && sid != NO_SID
    ensures Inv(Renew(n, p, sid, qos, last))
  {
    hide Pump, Offer, Inv;
    var m := Put(n, p, n.subs[p].(sid := sid, qos := qos));
    PutAgain(n, p, sid, qos);
    if qos == 2 {
      PumpKeeps(m, p);
    } else if last.Some? {
      OfferKeeps(m, p, last.value);
    }
  }

  lemma RequalifyKeeps(n: Node, p: Path, qos: Qos)
    requires Inv(n) && p in n.subs
    ensures Inv(n.(subs := n.subs[p := n.subs[p].(qos := qos)]))
  {
    hide IdsFor, Lossless;
    var s := n.subs[p].(qos := qos);
    var m := n.(subs := n.subs[p := s]);
    assert Lossless(n.subs[p], n.cfg.ring) ==> Lossless(s, n.cfg.ring) by { RequalifyLossless(n.subs[p], n.cfg.ring, qos); }
    forall q | q in m.subs
      ensures SubInv(m, q) && BalancedSub(m, q, [], IdsFor(m.acks, q))
    {
      assert SubInv(n, q) && BalancedSub(n, q, [], IdsFor(n.acks, q));
    }
  }

  lemma RequalifyLossless(s: Sub, ring: nat, qos: Qos)
    ensures Lossless(s, ring) ==> Lossless(s.(qos := qos), ring)
  {
  }

  lemma SubscribeKeeps(n: Node, p: Path, sid: Sid, qos: Qos, last: Option<Message>)
    requires Inv(n) && n.online && sid != NO_SID
    ensures Inv(Subscribe(n, p, sid, qos, last))
  {
    if SameSub(n, p, sid) {
      RequalifyKeeps(n, p, qos);
    } else {
      var m := n;
      if sid in n.sids {
        FreeKeeps(n, n.sids[sid]);
        m := Free(n, n.sids[sid]);
      }
      if p in m.subs {
        RenewKeeps(m, p, sid, qos, last);
      } else {
        AddKeeps(m, p, sid, qos, last);
      }
    }
  }

  lemma {:induction false} ClearIdsEffect(q: seq<Slot>, k: nat)
    ensures Msgs(ClearIds(q, k)) == Msgs(q)
    ensures forall i | 0 <= i < |q| :: ClearIds(q, k)[i].id == if k <= |q| && i < k then 0 else q[i].id
    decreases k
  {
    if 0 < k <= |q| {
      ClearIdsEffect(q[k - 1 := q[k - 1].(id := 0)], k - 1);
      assert Msgs(q[k - 1 := q[k - 1].(id := 0)]) == Msgs(q);
    }
  }

  lemma AllBalanced(n: Node)
    requires n.acks == [] && forall q | q in n.subs :: BalancedSub(n, q, [], IdsFor(n.acks, q))
    ensures Conserved(n)
  {
  }

  lemma ParkedKeeps(n: Node, p: Path)
    requires Inv(n) && p in Disconnect(n).subs
    ensures var m := Disconnect(n); SubInv(m, p) && BalancedSub(m, p, [], IdsFor(m.acks, p))
  {
    hide ClearIds, Msgs, IdsFor, Conserved, Indexed, Lossless;
    var m, s := Disconnect(n), n.subs[p];
    assert SubInv(n, p) && p in n.subs;
    ClearIdsEffect(s.queue, s.inFlight);
    NothingLogged(s.offered);
    SameLossless(s, m.subs[p], n.cfg.ring);
    NoIdsFor(m.acks, p);
  }

  lemma NothingLogged(offered: seq<Message>)
    ensures Logged([], [], offered)
  {
  }

  lemma DisconnectKeeps(n: Node)
    requires Inv(n)
    ensures Inv(Disconnect(n))
  {
    hide Conserved, SubInv, BalancedSub, IdsFor;
    var m := Disconnect(n);
    forall q | q in m.subs ensures SubInv(m, q) && BalancedSub(m, q, [], IdsFor(m.acks, q)) {
      ParkedKeeps(n, q);
    }
    assert Conserved(m) by { AllBalanced(m); }
  }

  lemma ConnectKeeps(n: Node)
    requires Inv(n) && !n.online
    ensures Inv(Connect(n))
  {
    var m := Connect(n);
    forall q | q in m.subs
      ensures SubInv(m, q) && BalancedSub(m, q, [], IdsFor(m.acks, q))
    {
      assert SubInv(n, q) && BalancedSub(n, q, [], IdsFor(n.acks, q));
    }
  }

  lemma OtherKeeps(n: Node)
    requires Inv(n)
    ensures Inv(n.(total := n.total + 1))
  {
    hide IdsFor, Msgs, Logged;
    var m := n.(total := n.total + 1);
    forall q | q in m.subs
      ensures SubInv(m, q) && BalancedSub(m, q, [], IdsFor(m.acks, q))
    {
      assert SubInv(n, q) && BalancedSub(n, q, [], IdsFor(n.acks, q));
    }
  }

  /** Every event keeps the invariant, whatever it acknowledges and whatever it evicts, as
      long as no client subscribes under the reserved sid. */
  lemma StepKeeps(n: Node, e: Event)
    requires Inv(n) && Enabled(n, e)
    requires e.SubscribeEvent? ==> e.sid != NO_SID
    ensures Inv(Step(n, e))
  {
    hide Offer, Acknowledge, Subscribe, Unsubscribe, Disconnect, Connect, Conserved, Indexed, SubInv;
    match e
    case OfferEvent(path, msg) => OfferKeeps(n, path, msg);
    case AckEvent(ack) => AcknowledgeKeeps(n, ack);
    case SubscribeEvent(path, sid, qos, last) => SubscribeKeeps(n, path, sid, qos, last);
    case UnsubscribeEvent(sid) => UnsubscribeKeeps(n, sid);
    case DisconnectEvent => DisconnectKeeps(n);
    case ConnectEvent => ConnectKeeps(n);
    case OtherTrafficEvent => OtherKeeps(n);
  }

  // The reserved sid enters the sid map, where no unsubscription is meant to find it.
  lemma ReservedSid(n: Node, p: Path, qos: Qos, last: Option<Message>)
    requires Inv(n) && n.online
    ensures NO_SID in Subscribe(n, p, NO_SID, qos, last).sids
  {
    hide Pump;
    var s := if p in n.subs then n.subs[p].(sid := NO_SID, qos := qos) else NewSub(NO_SID, qos);
    var m := Put(n, p, s);
    var k := PumpEffect(m, p);
    if last.Some? {
      k := PumpEffect(Enqueue(m, p, last.value), p);
    }
  }

  /** One step keeps the invariant exactly when it does not subscribe under the reserved sid. */
  lemma StepExact(n: Node, e: Event)
    requires Inv(n) && Enabled(n, e)
    ensures Inv(Step(n, e)) <==> !(e.SubscribeEvent? && e.sid == NO_SID)
  {
    if e.SubscribeEvent? && e.sid == NO_SID {
      ReservedSid(n, e.path, e.qos, e.last);
    } else {
      StepKeeps(n, e);
    }
  }

  /** Conservation, the window, no silent loss and the agreement of the maps, over every
      run from a requester that has never been connected. */
  lemma {:induction false} RunKeeps(run: seq<Node>, es: seq<Event>, cfg: Config)
    requires IsRun(run, es) && run[0] == Initial(cfg) && cfg.ring > 0
    requires forall e | e in es :: e.SubscribeEvent? ==> e.sid != NO_SID
    ensures Inv(run[|es|])
  {
    if es != [] {
      var k := |es| - 1;
      RunKeeps(run[..k + 1], es[..k], cfg);
      StepKeeps(run[k], es[k]);
    }
  }
}
