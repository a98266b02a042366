/** How subscriptions hang on streams (broker/src/msg/msg_subscribe.c, the stream part of
    broker/src/subscription.c and broker/src/stream.c, and broker_dslink_connect), as a
    state machine on values.

    A subscription is named by its requester and its path, a stream by the node that answers
    it. Where broker_node_get leads for a path is an input here; NodeTree.dfy models it. */
module Registry {
  import opened Common
  import opened HashMap
  import opened IntrusiveList

  type Path = string
  type Qos = q: nat | q < 256

  // A responder has not been asked for a stream yet.
  const NO_QOS: Qos := 0xFF

  datatype SubKey = SubKey(req: Path, path: Path)

  // Where broker_node_get leads.
  datatype Target = Missing | Local(node: Path) | Remote(node: Path, rest: Path)

  datatype StreamKey = LocalStream(node: Path) | RemoteStream(node: Path, rest: Path)

  // The keys of remote_pending_sub and local_pending_sub.
  datatype PendingKey = RemotePending(node: Path) | LocalPending(path: Path)

  datatype Sub = Sub(qos: Qos, stream: Option<StreamKey>, pending: Option<PendingKey>)

  type Subs = seq<Pair<Path, SubKey>>

  // reqSubs is the content of the stream's map, by requester and in the order of insertion.
  datatype Stream = Stream(reqSubs: Subs, respQos: Qos)

  /** `online` holds the nodes whose link is up; `told` is a history: the last QoS that the
      responder of a stream was asked for on its present link. */
  datatype Reg = Reg(subs: map<SubKey, Sub>, streams: map<StreamKey, Stream>,
                     pending: map<PendingKey, seq<SubKey>>, online: set<Path>, told: map<StreamKey, Qos>)

  // ---------- the QoS of a stream ----------

  function QosOf(subs: map<SubKey, Sub>, k: SubKey): Qos {
    if k in subs then subs[k].qos else 0
  }

  function MaxQos(subs: map<SubKey, Sub>, m: Subs): (q: Qos)
    ensures forall i | 0 <= i < |m| :: QosOf(subs, m[i].val) <= q
    ensures q == 0 || exists i | 0 <= i < |m| :: QosOf(subs, m[i].val) == q
  {
    if m == [] then 0
    else
      var rest, last := MaxQos(subs, m[..|m| - 1]), QosOf(subs, m[|m| - 1].val);
      if rest < last then last else rest
  }

  // broker_update_stream_qos: a local stream has no remote path.
  function UpdateStreamQos(r: Reg, s: StreamKey): Reg
    requires s in r.streams
  {
    if s.LocalStream? then r
    else
      var max := MaxQos(r.subs, r.streams[s].reqSubs);
      r.(streams := r.streams[s := r.streams[s].(respQos := max)],
         told := if max != r.streams[s].respQos && s.node in r.online then r.told[s := max] else r.told)
  }

  // broker_update_sub_qos
  function UpdateQos(r: Reg, k: SubKey, qos: Qos): Reg
    requires k in r.subs
  {
    if r.subs[k].qos == qos then r
    else
      var t := r.(subs := r.subs[k := r.subs[k].(qos := qos)]);
      if r.subs[k].stream.Some? && r.subs[k].stream.value in r.streams
      then UpdateStreamQos(t, r.subs[k].stream.value) else t
  }

  // ---------- attaching ----------

  function Opened(r: Reg, s: StreamKey): Reg {
    if s in r.streams then r
    else r.(streams := r.streams[s := Stream([], if s.RemoteStream? then NO_QOS else 0)])
  }

  function Linked(r: Reg, k: SubKey, s: StreamKey): Reg
    requires k in r.subs && s in r.streams
  {
    r.(subs := r.subs[k := r.subs[k].(stream := Some(s))],
       streams := r.streams[s := r.streams[s].(reqSubs := Updated(r.streams[s].reqSubs, k.req, k))])
  }

  // broker_subscribe_remote and broker_handle_local_subscribe
  function Attach(r: Reg, k: SubKey, s: StreamKey): Reg
    requires k in r.subs
  {
    UpdateStreamQos(Linked(Opened(r, s), k, s), s)
  }

  const DOWNSTREAM := "/downstream/"
  const UPSTREAM := "/upstream/"

  function IndexOfSlash(path: Path, from: nat): (i: nat)
    decreases |path| - from
    ensures i < |path| ==> from <= i && path[i] == '/'
    ensures forall j | from <= j < i && j < |path| :: path[j] != '/'
    ensures i >= |path| || from <= i
  {
    if from >= |path| then |path| else if path[from] == '/' then from else IndexOfSlash(path, from + 1)
  }

  // broker_downstream_node_base_len; the search starts behind the first character of the
  // name, and a path that ends with the name has no length.
  function BaseLen(path: Path): (n: nat)
    ensures n <= |path|
    ensures n > 0 ==> n < |path| && path[n] == '/'
  {
    var from := if |path| > 1 && path[1] == 'd' then |DOWNSTREAM| + 1 else |UPSTREAM| + 1;
    var end := IndexOfSlash(path, from);
    if end < |path| then end else 0
  }

  predicate IsRemotePath(path: Path) {
    DOWNSTREAM <= path || UPSTREAM <= path
  }

  // The list that broker_subscribe_disconnected_remote puts a path in.
  function RemoteList(path: Path): Option<PendingKey> {
    if BaseLen(path) == 0 then None else Some(RemotePending(path[..BaseLen(path)]))
  }

  // The list a path without a node waits in, told by the path.
  function WaitsIn(path: Path): Option<PendingKey> {
    if IsRemotePath(path) then RemoteList(path) else Some(LocalPending(path))
  }

  // The list a path waits in when its stream is freed, told by the stream's node.
  function WaitsBehind(s: StreamKey, path: Path): Option<PendingKey> {
    if s.RemoteStream? then RemoteList(path) else Some(LocalPending(path))
  }

  // dslink_list_insert on the list under a pending key.
  function Waiting(r: Reg, k: SubKey, pk: PendingKey): Reg
    requires k in r.subs
  {
    r.(pending := r.pending[pk := (if pk in r.pending then r.pending[pk] else []) + [k]],
       subs := r.subs[k := r.subs[k].(pending := Some(pk))])
  }

  // broker_subscribe_disconnected_remote and broker_subscribe_local_nonexistent
  function Pend(r: Reg, k: SubKey, list: Option<PendingKey>): Reg
    requires k in r.subs
  {
    if list.Some? then Waiting(r, k, list.value) else r
  }

  // broker_add_new_subscription
  function Add(r: Reg, k: SubKey, qos: Qos, target: Target): Reg {
    var t := r.(subs := r.subs[k := Sub(qos, None, None)]);
    match target
    case Missing => Pend(t, k, WaitsIn(k.path))
    case Local(node) => Attach(t, k, LocalStream(node))
    case Remote(node, rest) => Attach(t, k, RemoteStream(node, rest))
  }

  // ---------- detaching ----------

  function RemoveKey(ks: seq<SubKey>, k: SubKey): seq<SubKey> {
    if ks == [] then []
    else RemoveKey(ks[..|ks| - 1], k) + (if ks[|ks| - 1] == k then [] else [ks[|ks| - 1]])
  }

  // list_remove_node on the pending list.
  function Unpend(r: Reg, k: SubKey): Reg
    requires k in r.subs
  {
    match r.subs[k].pending
    case None => r
    case Some(pk) =>
      r.(pending := if pk in r.pending then r.pending[pk := RemoveKey(r.pending[pk], k)] else r.pending,
         subs := r.subs[k := r.subs[k].(pending := None)])
  }

  // Closing a stream that nobody is on any more.
  function Close(r: Reg, s: StreamKey): Reg {
    r.(streams := r.streams - {s}, told := r.told - {s})
  }

  function Unlink(r: Reg, k: SubKey): Reg
    requires k in r.subs
  {
    match r.subs[k].stream
    case None => r
    case Some(s) =>
      if s !in r.streams then r
      else
        var m := Removed(r.streams[s].reqSubs, k.req);
        if m == [] then Close(r, s) else r.(streams := r.streams[s := r.streams[s].(reqSubs := m)])
  }

  // broker_free_sub_requester
  function Free(r: Reg, k: SubKey): Reg {
    if k !in r.subs then r
    else
      var t := Unlink(Unpend(r, k), k);
      t.(subs := t.subs - {k})
  }

  // The subscribers of a stream that is freed wait for its node again.
  function Scatter(r: Reg, m: Subs, s: StreamKey): Reg {
    if m == [] then r
    else
      var t, k := Scatter(r, m[..|m| - 1], s), m[|m| - 1].val;
      if k !in t.subs then t
      else Pend(t.(subs := t.subs[k := t.subs[k].(stream := None)]), k, WaitsBehind(s, k.path))
  }

  // broker_stream_free on a subscription stream.
  function FreeStream(r: Reg, s: StreamKey): Reg {
    if s !in r.streams then r else Close(Scatter(r, r.streams[s].reqSubs, s), s)
  }

  // ---------- connecting ----------

  // The stream that a waiting subscription gets when its node comes.
  function StreamFor(pk: PendingKey, path: Path): StreamKey {
    match pk
    case RemotePending(node) => RemoteStream(node, if |node| <= |path| then path[|node|..] else "")
    case LocalPending(p) => LocalStream(p)
  }

  function AttachAll(r: Reg, ks: seq<SubKey>, pk: PendingKey): Reg {
    if ks == [] then r
    else
      var t, k := AttachAll(r, ks[..|ks| - 1], pk), ks[|ks| - 1];
      if k !in t.subs then t else Attach(t, k, StreamFor(pk, k.path))
  }

  // subs_list_free
  function Dismiss(r: Reg, ks: seq<SubKey>): Reg {
    if ks == [] then r
    else
      var t, k := Dismiss(r, ks[..|ks| - 1]), ks[|ks| - 1];
      if k !in t.subs then t else t.(subs := t.subs[k := t.subs[k].(pending := None)])
  }

  // What becomes of a pending list when its node appears: the second half of
  // broker_dslink_connect, and handle_pending_sub of broker/src/data/data.c.
  function Arrive(r: Reg, pk: PendingKey): Reg {
    if pk !in r.pending then r
    else
      var ks := r.pending[pk];
      Dismiss(AttachAll(r.(pending := r.pending - {pk}), ks, pk), ks)
  }

  // A link comes up: the responder is asked again for every stream of its node.
  function Announce(r: Reg, node: Path): Reg {
    r.(online := r.online + {node},
       told := r.told + (map s | s in r.streams && s.RemoteStream? && s.node == node :: r.streams[s].respQos))
  }

  // broker_dslink_connect
  function Connect(r: Reg, node: Path): Reg {
    Arrive(Announce(r, node), RemotePending(node))
  }

  // The link of a responder goes down; what it was asked for is void.
  function ResponderGone(r: Reg, node: Path): Reg {
    r.(online := r.online - {node},
       told := map s | s in r.told && !(s.RemoteStream? && s.node == node) :: r.told[s])
  }

  function FreeAll(r: Reg, ks: seq<SubKey>): Reg {
    if ks == [] then r else Free(FreeAll(r, ks[..|ks| - 1]), ks[|ks| - 1])
  }

  // handle_subscribe; `displaced` is the other path that held the sid.
  function Subscribe(r: Reg, k: SubKey, qos: Qos, displaced: Option<Path>, target: Target): Reg {
    var t := if displaced.Some? then Free(r, SubKey(k.req, displaced.value)) else r;
    if k in t.subs then UpdateQos(t, k, qos) else Add(t, k, qos, target)
  }

  /** The events of a run. The list of a requester that goes away holds its subscriptions
      below QoS 2, in any order. */
  datatype Event =
    | SubscribeEvent(key: SubKey, qos: Qos, displaced: Option<Path>, target: Target)
    | UnsubscribeEvent(key: SubKey)
    | RequesterGoneEvent(req: Path, keys: seq<SubKey>)
    | ResponderGoneEvent(node: Path)
    | ConnectEvent(node: Path)
    | NodeAddedEvent(node: Path)
    | StreamFreedEvent(stream: StreamKey)

  predicate Enabled(r: Reg, e: Event) {
    match e
    case SubscribeEvent(k, _, displaced, _) => displaced != Some(k.path)
    case RequesterGoneEvent(req, keys) => forall k | k in keys :: k.req == req && k in r.subs && r.subs[k].qos <= 1
    case _ => true
  }

  function Step(r: Reg, e: Event): Reg
    requires Enabled(r, e)
  {
    match e
    case SubscribeEvent(k, qos, displaced, target) => Subscribe(r, k, qos, displaced, target)
    case UnsubscribeEvent(k) => Free(r, k)
    case RequesterGoneEvent(_, keys) => FreeAll(r, keys)
    case ResponderGoneEvent(node) => ResponderGone(r, node)
    case ConnectEvent(node) => Connect(r, node)
    case NodeAddedEvent(node) => Arrive(r, LocalPending(node))
    case StreamFreedEvent(s) => FreeStream(r, s)
  }
}
