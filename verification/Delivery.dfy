/** What the broker does with the values of one requester's subscriptions
    (broker/src/subscription.c and its callers), as a state machine on values.

    Every subscription has a ring of slots, a counter of the slots in flight, and shares
    the requester's list of pending acks. The classes in Subscription.dfy are proved to
    compute these functions; DeliveryInvariants.dfy and DeliveryOrder.dfy prove what the
    protocol keeps. Subscriptions are identified by their path. */
module Delivery {
  import opened Common
  import opened Ring
  import opened Vec

  // The sid of a subscription that waits for its requester to come back.
  const NO_SID: Sid := 0xFFFFFFFF

  // broker_ws_send_obj restarts its counter after this id.
  const ID_PERIOD: nat := 2147483647

  type Message = string
  type Path = string
  type Sid = n: nat | n < 0x1_0000_0000
  type Qos = q: nat | q <= 2

  // An id of 0 marks a slot that has not been sent on this connection.
  datatype Slot = Slot(msg: Message, id: nat)

  datatype PendingAck = PendingAck(path: Path, id: nat)

  // broker_max_ws_send_queue_size and broker_max_qos_queue_size.
  datatype Config = Config(window: nat, ring: nat)

  /** `offered`, `sent` and `at` are histories: every value handed to the subscription, the
      values sent for it on the current connection, and where these stand in `offered`. */
  datatype Sub = Sub(sid: Sid, qos: Qos, queue: seq<Slot>, inFlight: nat,
                     offered: seq<Message>, sent: seq<Message>, at: seq<int>)

  // How many of the offered values have left the ring.
  function Base(s: Sub): (r: int)
    ensures |s.queue| <= |s.offered| ==> r >= 0
  {
    |s.offered| - |s.queue|
  }

  /** `total` counts the messages sent on this connection; the link's own counter is its
      remainder, see `NextId`. `listed` says that the list of pending acks exists: the first
      value ever sent to the requester creates it, and closing a link only empties it. */
  datatype Node = Node(cfg: Config, online: bool, total: nat, listed: bool, acks: seq<PendingAck>,
                       subs: map<Path, Sub>, sids: map<nat, Path>)

  function NextId(total: nat): (id: nat)
    ensures 1 <= id <= ID_PERIOD
    ensures total < ID_PERIOD ==> id == total + 1
  {
    total % ID_PERIOD + 1
  }

  // ---------- sending ----------

  predicate Live(n: Node, p: Path) {
    p in n.subs && n.online && n.subs[p].sid != NO_SID
  }

  // sendMessage on the slot at the counter, with addPendingAck.
  function SendSlot(s: Sub, id: nat): Sub
    requires s.inFlight < |s.queue|
  {
    var slot := s.queue[s.inFlight];
    s.(queue := s.queue[s.inFlight := slot.(id := id)], inFlight := s.inFlight + 1,
       sent := s.sent + [slot.msg], at := s.at + [Base(s) + s.inFlight])
  }

  function SendOne(n: Node, p: Path): Node
    requires p in n.subs && n.subs[p].inFlight < |n.subs[p].queue|
  {
    var id := NextId(n.total);
    n.(total := n.total + 1,
       listed := true,
       acks := n.acks + [PendingAck(p, id)],
       subs := n.subs[p := SendSlot(n.subs[p], id)])
  }

  predicate CanSend(n: Node, p: Path) {
    && Live(n, p)
    && n.subs[p].inFlight < n.cfg.window
    && n.subs[p].inFlight < |n.subs[p].queue|
    && n.subs[p].queue[n.subs[p].inFlight].id == 0
  }

  // sendQueuedMessages
  function Pump(n: Node, p: Path): Node
    decreases if p in n.subs then n.cfg.window - n.subs[p].inFlight else 0
  {
    if CanSend(n, p) then Pump(SendOne(n, p), p) else n
  }

  // broker_update_sub_req for QoS 0 to 2.
  function Enqueue(n: Node, p: Path, msg: Message): Node
    requires p in n.subs
  {
    var s := n.subs[p];
    n.(subs := n.subs[p := s.(queue := AfterPush(s.queue, n.cfg.ring, Slot(msg, 0)),
                              offered := s.offered + [msg])])
  }

  function Offer(n: Node, p: Path, msg: Message): Node
    requires p in n.subs
  {
    Pump(Enqueue(n, p, msg), p)
  }

  // ---------- acknowledging ----------

  // removeFromMessageQueue drops the sent slots at the front up to the given id.
  function AckedCount(q: seq<Slot>, id: nat): (r: nat)
    ensures r <= |q|
    ensures forall i | 0 <= i < r :: 0 < q[i].id <= id
    ensures r < |q| ==> q[r].id == 0 || q[r].id > id
  {
    if q == [] || q[0].id == 0 || q[0].id > id then 0 else 1 + AckedCount(q[1..], id)
  }

  function DropAcked(q: seq<Slot>, id: nat): (r: seq<Slot>) {
    q[AckedCount(q, id)..]
  }

  // The unsigned decrement of the in-flight counter.
  function Decrement(x: nat): nat {
    if x == 0 then 0xFFFFFFFF else x - 1
  }

  function Settle(n: Node, p: Path, id: nat): Node
    requires p in n.subs
  {
    var s := n.subs[p];
    n.(subs := n.subs[p := s.(queue := DropAcked(s.queue, id), inFlight := Decrement(s.inFlight))])
  }

  // One turn of the loop in check_subscription_ack. A pending ack always belongs to a live
  // subscription (`Conserved`), so the first branch is never taken.
  function AckOne(n: Node, i: nat): Node
    requires i < |n.acks|
  {
    var a := n.acks[i];
    if a.path !in n.subs then n
    else
      var settled := Settle(n, a.path, a.id);
      if |settled.subs[a.path].queue| < |n.subs[a.path].queue| then Pump(settled, a.path) else settled
  }

  lemma {:induction false} PumpGrows(n: Node, p: Path)
    ensures n.acks <= Pump(n, p).acks
    decreases if p in n.subs then n.cfg.window - n.subs[p].inFlight else 0
  {
    if CanSend(n, p) {
      PumpGrows(SendOne(n, p), p);
    }
  }

  // The loop walks the entries below `i` from the newest to the oldest, while the pumping
  // inside it appends new entries behind them.
  function AckLoop(n: Node, i: nat): (r: Node)
    requires i <= |n.acks|
    ensures |n.acks| <= |r.acks|
    decreases i
  {
    if i == 0 then n
    else
      PumpGrows(if n.acks[i - 1].path in n.subs then Settle(n, n.acks[i - 1].path, n.acks[i - 1].id) else n, n.acks[i - 1].path);
      AckLoop(AckOne(n, i - 1), i - 1)
  }

  // cmp_pack of a search key with an entry.
  function CompareIds(x: nat, y: nat): int {
    if x == y then 0 else if x > y then 1 else -1
  }

  function AckSigns(acks: seq<PendingAck>, ack: nat): (r: seq<int>)
    ensures |r| == |acks|
    ensures forall i | 0 <= i < |acks| :: r[i] == CompareIds(ack, acks[i].id)
  {
    seq(|acks|, i requires 0 <= i < |acks| => CompareIds(ack, acks[i].id))
  }

  function Retired(n: Node, ack: nat): (r: nat)
    ensures r <= |n.acks|
  {
    UpperBound(AckSigns(n.acks, ack), 0, |n.acks|)
  }

  // check_subscription_ack
  function Acknowledge(n: Node, ack: nat): Node {
    var last := Retired(n, ack);
    var m := AckLoop(n, last);
    m.(acks := m.acks[last..])
  }

  // ---------- subscribing ----------

  function Others(acks: seq<PendingAck>, p: Path): seq<PendingAck> {
    if acks == [] then []
    else Others(acks[..|acks| - 1], p) + (if acks[|acks| - 1].path != p then [acks[|acks| - 1]] else [])
  }

  // broker_free_sub_requester, as far as the requester's own maps and acks go.
  function Free(n: Node, p: Path): Node {
    if p !in n.subs then n
    else n.(subs := n.subs - {p},
            sids := if n.subs[p].sid != NO_SID then n.sids - {n.subs[p].sid} else n.sids,
            acks := Others(n.acks, p))
  }

  function NewSub(sid: Sid, qos: Qos): Sub {
    Sub(sid, qos, [], 0, [], [], [])
  }

  // broker_add_new_subscription; `last` is the last value of the stream it was attached to.
  function Add(n: Node, p: Path, sid: Sid, qos: Qos, last: Option<Message>): Node {
    var m := n.(subs := n.subs[p := NewSub(sid, qos)], sids := n.sids[sid := p]);
    if last.Some? then Offer(m, p, last.value) else m
  }

  // handle_subscribe on a path that is already subscribed under another sid.
  function Renew(n: Node, p: Path, sid: Sid, qos: Qos, last: Option<Message>): Node
    requires p in n.subs
  {
    var s := n.subs[p];
    var m := n.(subs := n.subs[p := s.(sid := sid, qos := qos)], sids := (n.sids - {s.sid})[sid := p]);
    if qos == 2 then Pump(m, p)
    else if last.Some? then Offer(m, p, last.value)
    else m
  }

  // Subscribing the path under the sid that it has already.
  predicate SameSub(n: Node, p: Path, sid: nat) {
    sid in n.sids && p in n.subs && n.sids[sid] == p
  }

  // handle_subscribe, for a requester that may read the path.
  function Subscribe(n: Node, p: Path, sid: Sid, qos: Qos, last: Option<Message>): Node {
    if SameSub(n, p, sid) then
      n.(subs := n.subs[p := n.subs[p].(qos := qos)])
    else
      var m := if sid in n.sids then Free(n, n.sids[sid]) else n;
      if p in m.subs then Renew(m, p, sid, qos, last) else Add(m, p, sid, qos, last)
  }

  // handle_unsubscribe
  function Unsubscribe(n: Node, sid: Sid): Node {
    if sid in n.sids then
      Free(n.(sids := n.sids - {sid}), n.sids[sid])
    else n
  }

  // ---------- connecting ----------

  // broker_clear_messsage_ids, counting `k` down from the in-flight counter. A counter past
  // the end of the ring stops it at once.
  function ClearIds(q: seq<Slot>, k: nat): (r: seq<Slot>)
    ensures |r| == |q|
    decreases k
  {
    if k == 0 || k > |q| then q else ClearIds(q[k - 1 := q[k - 1].(id := 0)], k - 1)
  }

  function Park(s: Sub): Sub {
    s.(queue := ClearIds(s.queue, s.inFlight), inFlight := 0, sid := NO_SID, sent := [], at := [])
  }

  // broker_remote_dslink_free and the end of broker_close_link: subscriptions below QoS 2
  // are freed, the others wait without a sid.
  function Disconnect(n: Node): Node {
    n.(online := false, acks := [], sids := map[],
       subs := map p | p in n.subs && n.subs[p].qos >= 2 :: Park(n.subs[p]))
  }

  // broker_dslink_connect with a zeroed link.
  function Connect(n: Node): Node {
    n.(online := true, total := 0)
  }

  /** The events of a run. A request or an ack needs a link, a value needs a subscription,
      and a requester connects only after its old link is closed. */
  datatype Event =
    | OfferEvent(path: Path, msg: Message)
    | AckEvent(ack: nat)
    | SubscribeEvent(path: Path, sid: Sid, qos: Qos, last: Option<Message>)
    | UnsubscribeEvent(sid: Sid)
    | DisconnectEvent
    | ConnectEvent
    | OtherTrafficEvent  // any other message on the link takes an id

  predicate Enabled(n: Node, e: Event) {
    match e
    case OfferEvent(path, _) => path in n.subs
    case ConnectEvent => !n.online
    case _ => n.online
  }

  // broker_free_sub_requester reads the list of pending acks of a subscription with a ring,
  // and a subscription has one from the first value offered to it.
  predicate FreeDefined(n: Node, p: Path) {
    p in n.subs ==> n.subs[p].offered == [] || n.listed
  }

  /** The event dereferences no list of pending acks that does not exist. */
  predicate Defined(n: Node, e: Event) {
    match e
    case SubscribeEvent(path, sid, _, _) => sid in n.sids && !SameSub(n, path, sid) ==> FreeDefined(n, n.sids[sid])
    case UnsubscribeEvent(sid) => sid in n.sids ==> FreeDefined(n, n.sids[sid])
    case DisconnectEvent => forall p | p in n.subs && n.subs[p].qos < 2 :: FreeDefined(n, p)
    case _ => true
  }

  function Step(n: Node, e: Event): Node
    requires Enabled(n, e)
  {
    match e
    case OfferEvent(path, msg) => Offer(n, path, msg)
    case AckEvent(ack) => Acknowledge(n, ack)
    case SubscribeEvent(path, sid, qos, last) => Subscribe(n, path, sid, qos, last)
    case UnsubscribeEvent(sid) => Unsubscribe(n, sid)
    case DisconnectEvent => Disconnect(n)
    case ConnectEvent => Connect(n)
    case OtherTrafficEvent => n.(total := n.total + 1)
  }

  // A requester that has never been connected.
  function Initial(cfg: Config): Node {
    Node(cfg, false, 0, false, [], map[], map[])
  }

  /** A run lists the states it passes through: run[i + 1] is the step of run[i] by es[i]. */
  ghost predicate IsRun(run: seq<Node>, es: seq<Event>) {
    && |run| == |es| + 1
    && forall i | 0 <= i < |es| :: Enabled(run[i], es[i]) && run[i + 1] == Step(run[i], es[i])
  }
}
