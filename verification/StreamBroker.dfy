/** The broker's own code for streams and waiting lists (broker/src/msg/msg_subscribe.c,
    broker/src/subscription.c, broker/src/stream.c, broker/src/node/node.c), on subscribers,
    streams and lists that refer to each other. Every method is proved to compute the function
    of Registry.dfy of the same meaning; RegistryInvariants.dfy and RegistryRuns.dfy say what
    those functions keep. */
module StreamBroker {
  import opened Common
  import opened HashMap
  import opened IntrusiveList
  import opened Registry
  import opened StreamObjects
  import Invariants = RegistryInvariants
  import Runs = RegistryRuns

  // ---------- what the references mean ----------

  ghost function KeyOf(x: SubRequester?): SubKey {
    if x == null then SubKey("", "") else x.Key()
  }

  ghost function Named(m: seq<Pair<Path, SubRequester?>>): (r: Subs)
    ensures |r| == |m| && forall i | 0 <= i < |m| :: r[i] == Pair(m[i].key, KeyOf(m[i].val))
  {
    seq(|m|, i requires 0 <= i < |m| => Pair(m[i].key, KeyOf(m[i].val)))
  }

  ghost function Waiters(ps: seq<Place>): (r: seq<SubKey>)
    ensures |r| == |ps| && forall i | 0 <= i < |ps| :: r[i] == KeyOf(ps[i].sub)
  {
    seq(|ps|, i requires 0 <= i < |ps| => KeyOf(ps[i].sub))
  }

  ghost function StreamOf(c: Content): Stream {
    Stream(Named(c.reqSubs), c.respQos)
  }

  ghost function StreamsOf(m: map<StreamKey, Content>): (r: map<StreamKey, Stream>)
    ensures r.Keys == m.Keys
  {
    map s | s in m :: StreamOf(m[s])
  }

  ghost function ListsOf(m: map<PendingKey, seq<Place>>): (r: map<PendingKey, seq<SubKey>>)
    ensures r.Keys == m.Keys
  {
    map pk | pk in m :: Waiters(m[pk])
  }

  lemma StreamsOfUpdate(m: map<StreamKey, Content>, s: StreamKey, c: Content)
    ensures StreamsOf(m[s := c]) == StreamsOf(m)[s := StreamOf(c)]
    ensures s in m ==> StreamsOf(m)[s] == StreamOf(m[s])
  {
  }

  lemma StreamsOfRemove(m: map<StreamKey, Content>, s: StreamKey)
    ensures StreamsOf(m - {s}) == StreamsOf(m) - {s}
  {
  }

  lemma ListsOfUpdate(m: map<PendingKey, seq<Place>>, pk: PendingKey, ps: seq<Place>)
    ensures ListsOf(m[pk := ps]) == ListsOf(m)[pk := Waiters(ps)]
    ensures pk in m ==> ListsOf(m)[pk] == Waiters(m[pk])
  {
  }

  lemma ListsOfRemove(m: map<PendingKey, seq<Place>>, pk: PendingKey)
    ensures ListsOf(m - {pk}) == ListsOf(m) - {pk}
  {
  }

  lemma {:induction false} NamedIndex(m: seq<Pair<Path, SubRequester?>>, req: Path)
    ensures IndexOf(Named(m), req) == IndexOf(m, req)
  {
    if m != [] {
      assert Named(m)[..|m| - 1] == Named(m[..|m| - 1]);
      NamedIndex(m[..|m| - 1], req);
    }
  }

  lemma NamedUpdated(m: seq<Pair<Path, SubRequester?>>, req: Path, x: SubRequester)
    ensures Named(Updated(m, req, x)) == Updated(Named(m), req, x.Key())
  {
    NamedIndex(m, req);
  }

  lemma NamedRemoved(m: seq<Pair<Path, SubRequester?>>, req: Path)
    ensures Named(Removed(m, req)) == Removed(Named(m), req)
  {
    NamedIndex(m, req);
  }

  // A list without duplicates loses one place when it loses a key.
  lemma {:induction false} RemoveOne(ks: seq<SubKey>, i: nat)
    requires NoDup(ks) && i < |ks|
    ensures RemoveKey(ks, ks[i]) == DropAt(ks, i)
  {
    var front := ks[..|ks| - 1];
    if i == |ks| - 1 {
      RemoveNone(front, ks[i]);
      assert DropAt(ks, i) == front;
    } else {
      RemoveOne(front, i);
      assert DropAt(ks, i) == DropAt(front, i) + [ks[|ks| - 1]];
    }
  }

  lemma {:induction false} RemoveNone(ks: seq<SubKey>, k: SubKey)
    requires forall i | 0 <= i < |ks| :: ks[i] != k
    ensures RemoveKey(ks, k) == ks
  {
    if ks != [] {
      RemoveNone(ks[..|ks| - 1], k);
    }
  }

  lemma WaitersDrop(ps: seq<Place>, i: nat)
    requires i < |ps|
    ensures Waiters(DropAt(ps, i)) == DropAt(Waiters(ps), i)
  {
  }

  // Every list that somebody waits in is there.
  ghost predicate Settled(r: Reg) {
    forall k | k in r.subs && r.subs[k].pending.Some? :: r.subs[k].pending.value in r.pending
  }

  class Broker {
    const hash: Path -> nat
    const streams: StreamTable
    const waiting: WaitTable
    var subs: map<SubKey, SubRequester>  // req_sub_paths of all requesters
    var online: set<Path>

    // The last QoS sent to the responder of a stream on its present link.
    ghost var Told: map<StreamKey, Qos>
    ghost var Repr: set<object>

    ghost predicate Owns(x: SubRequester)
      reads `subs
    {
      x.Key() in subs && subs[x.Key()] == x
    }

    // What a subscriber refers to: its stream is in the table, and its node is where it waits.
    ghost predicate RefersOk(x: SubRequester)
      reads streams, waiting, x
    {
      && (x.stream != null ==> streams.Owns(x.stream))
      && (x.pendingNode != null <==> x.PendingIn.Some?)
      && (x.PendingIn.Some? && x.PendingIn.value in waiting.Model ==>
            Place(x.pendingNode, x) in waiting.Model[x.PendingIn.value])
    }

    ghost predicate SubOk(k: SubKey)
      reads this, streams, waiting, subs.Values
    {
      && k in subs && subs[k] in Repr && subs[k].Key() == k
      && subs[k] !in streams.Repr && subs[k] !in waiting.Repr
      && RefersOk(subs[k])
    }

    ghost predicate SubsOk()
      reads this, streams, waiting, subs.Values
    {
      forall k | k in subs :: SubOk(k)
    }

    // Every subscriber of a stream and of a list is one of the broker's.
    ghost predicate StreamMembers(m: map<StreamKey, Content>)
      reads `subs
    {
      forall s | s in m :: Members(m[s].reqSubs)
    }

    ghost predicate Members(reqSubs: seq<Pair<Path, SubRequester?>>)
      reads `subs
    {
      forall p | p in reqSubs :: p.val != null && Owns(p.val)
    }

    ghost predicate ListMembers(m: map<PendingKey, seq<Place>>)
      reads `subs
    {
      forall pk | pk in m :: forall p | p in m[pk] :: p.sub != null && Owns(p.sub)
    }

    ghost predicate MembersOk()
      reads `subs, streams, waiting
    {
      StreamMembers(streams.Model) && ListMembers(waiting.Model)
    }

    ghost predicate Apart()
      reads this, streams, waiting
    {
      && this in Repr && streams in Repr && waiting in Repr && streams.Repr <= Repr && waiting.Repr <= Repr
      && this !in streams.Repr && this !in waiting.Repr && streams.Repr !! waiting.Repr
    }

    ghost predicate Valid()
      reads this, Repr
      ensures Valid() ==> this in Repr
    {
      && this in Repr && streams in Repr && waiting in Repr && (forall k | k in subs :: subs[k] in Repr)
      && Apart()
      && streams.Valid() && waiting.Valid()
      && SubsOk() && MembersOk()
    }

    ghost function SubOf(x: SubRequester): Sub
      reads x
    {
      Sub(x.qos, if x.stream == null then None else Some(x.stream.key), x.PendingIn)
    }

    ghost function State(): Reg
      reads this, streams, waiting, subs.Values
    {
      Reg(map k | k in subs :: SubOf(subs[k]),
          StreamsOf(streams.Model), ListsOf(waiting.Model),
          online, Told)
    }

    constructor (hash: Path -> nat)
      ensures Valid() && fresh(Repr) && State() == Reg(map[], map[], map[], {}, map[])
    {
      this.hash := hash;
      var s := new StreamTable();
      var w := new WaitTable();
      streams, waiting := s, w;
      subs, online, Told := map[], {}, map[];
      Repr := {this, s, w} + s.Repr + w.Repr;
    }

    // ---------- what a change leaves as it was ----------

    // Only the stream table has changed.
    twostate lemma StreamsChanged()
      requires old(Valid()) && streams.Valid()
      requires unchanged(`subs) && unchanged(`online)
      requires forall o: object | o in old(Repr) && o !in old(streams.Repr) && o != this :: unchanged(o)
      requires fresh(streams.Repr - old(streams.Repr)) && Repr == old(Repr) + streams.Repr
      requires forall s | s in old(streams.streams) :: s in streams.streams && streams.streams[s] == old(streams.streams[s])
      requires StreamMembers(streams.Model)
      ensures Valid()
      ensures State() == old(State()).(streams := StreamsOf(streams.Model), told := Told)
    {
      hide StreamTable.Valid, WaitTable.Valid, StreamsOf, ListsOf, Members;
      assert unchanged(waiting);
      assert waiting.Valid() by { assert forall o | o in old(waiting.Repr) :: unchanged(o); WaitingSame(); }
      forall k | k in subs ensures SubOk(k) && SubOf(subs[k]) == old(SubOf(subs[k])) {
        assert old(SubOk(k));
        assert unchanged(subs[k]);
      }
    }

    twostate lemma WaitingSame()
      requires old(waiting.Valid()) && forall o | o in old(waiting.Repr) :: unchanged(o)
      ensures waiting.Valid()
    {
    }

    twostate lemma StreamsSame()
      requires old(streams.Valid()) && forall o | o in old(streams.Repr) :: unchanged(o)
      ensures streams.Valid()
    {
    }

    // Only the fields of x have changed.
    twostate lemma SubChanged(x: SubRequester)
      requires old(Valid()) && old(Owns(x)) && unchanged(this)
      requires forall o: object | o in old(Repr) && o != x :: unchanged(o)
      requires RefersOk(x)
      ensures Valid() && State() == old(State()).(subs := old(State()).subs[x.Key() := SubOf(x)])
    {
      hide StreamTable.Valid, WaitTable.Valid, RefersOk;
      assert old(SubOk(x.Key()));
      StreamsSame();
      WaitingSame();
      forall k | k in subs ensures SubOk(k) {
        assert old(SubOk(k));
        if subs[k] != x {
          RefersSame(subs[k]);
        }
      }
      assert State().subs == old(State()).subs[x.Key() := SubOf(x)];
    }

    twostate lemma RefersSame(y: SubRequester)
      requires old(RefersOk(y)) && unchanged(streams) && unchanged(waiting) && unchanged(y)
      ensures RefersOk(y)
    {
    }

    // ---------- the QoS of a stream ----------

    // send_subscribe_request
    method SendSubscribeRequest(s: StreamKey, qos: Qos)
      requires Valid()
      modifies `Told
      ensures Valid() && State() == old(State()).(told := old(State()).told[s := qos])
    {
      hide StreamTable.Valid, WaitTable.Valid;
      Told := Told[s := qos];
    }

    // What the state says of a stream, its map and its subscribers.
    lemma StreamState(st: SubStream)
      requires Valid() && streams.Owns(st)
      ensures st.Valid() && st.reqSubs.Valid() && st.reqSubs.list.Valid()
      ensures st.reqSubs.Model() == Pairs(st.reqSubs.list.Nodes) && State().online == online
      ensures st.key in State().streams && State().streams[st.key] == Stream(Named(st.reqSubs.Model()), st.respQos)
    {
      hide StreamTable.Valid, WaitTable.Valid, SubsOk, MembersOk, Apart;
      streams.Holds(st);
    }

    lemma Subscriber(st: SubStream, i: nat)
      requires Valid() && streams.Owns(st) && st.Valid() && i < |st.reqSubs.Model()|
      ensures var x := st.reqSubs.Model()[i].val; x != null && Owns(x) && QosOf(State().subs, x.Key()) == x.qos
    {
      hide StreamTable.Valid, WaitTable.Valid, SubsOk, Apart, Map.Valid, Map.Model;
      streams.Holds(st);
      assert st.reqSubs.Model()[i] in streams.Model[st.key].reqSubs;
    }

    // The loop of broker_update_stream_qos.
    method MaxQosOf(st: SubStream) returns (max: Qos)
      requires Valid() && streams.Owns(st)
      ensures st.key in State().streams && max == MaxQos(State().subs, State().streams[st.key].reqSubs)
    {
      hide Valid, State, Map.Valid, Map.Model, MaxQos, List.Valid, List.At;
      StreamState(st);
      var list := st.reqSubs.list;
      ghost var m := Named(st.reqSubs.Model());
      max := 0;
      ghost var i := 0;
      assert MaxQos(State().subs, m[..0]) == 0 by { NoQos(m); }
      var entry := list.head.next;
      st.reqSubs.Walk(0);
      while entry != list.head
        invariant i <= |m| && entry == list.At(i)
        invariant max == MaxQos(State().subs, m[..i])
        decreases |m| - i
      {
        st.reqSubs.Walk(i);
        var x := entry.value.val;
        Subscriber(st, i);
        QosNext(m, i);
        if max < x.qos {
          max := x.qos;
        }
        entry := entry.next;
        i := i + 1;
        st.reqSubs.Walk(i);
      }
      st.reqSubs.Walk(i);
      assert m[..i] == m;
    }

    lemma NoQos(m: Subs)
      ensures MaxQos(State().subs, m[..0]) == 0
    {
    }

    lemma QosNext(m: Subs, i: nat)
      requires i < |m|
      ensures MaxQos(State().subs, m[..i + 1]) ==
              Max(MaxQos(State().subs, m[..i]), QosOf(State().subs, m[i].val))
    {
      assert m[..i + 1][..i] == m[..i];
    }

    method SetQos(st: SubStream, qos: Qos)
      requires Valid() && streams.Owns(st)
      modifies `Repr, streams.Repr
      ensures Valid() && fresh(Repr - old(Repr)) && fresh(streams.Repr - old(streams.Repr))
      ensures unchanged(`subs) && unchanged(`online) && streams.streams == old(streams.streams)
      ensures var r := old(State()); st.key in r.streams && State() == r.(streams := r.streams[st.key := r.streams[st.key].(respQos := qos)])
    {
      hide StreamTable.Valid, WaitTable.Valid, SubsOk, RefersOk, StreamsOf, ListsOf, Members;
      streams.Holds(st);
      ghost var c := streams.Model[st.key];
      StreamsOfUpdate(streams.Model, st.key, c.(respQos := qos));
      streams.SetQos(st, qos);
      StreamsChanged();
    }

    // broker_update_stream_qos; a local stream has no remote path.
    method UpdateStreamQos(st: SubStream)
      requires Valid() && streams.Owns(st)
      modifies `Repr, `Told, streams.Repr
      ensures Valid() && fresh(Repr - old(Repr)) && fresh(streams.Repr - old(streams.Repr))
      ensures unchanged(`subs) && unchanged(`online) && streams.streams == old(streams.streams)
      ensures st.key in old(State()).streams && State() == Registry.UpdateStreamQos(old(State()), st.key)
    {
      hide Valid, State, MaxQos, Map.Valid, Map.Model, List.Valid, Named;
      StreamState(st);
      if st.key.LocalStream? { return; }
      var max := MaxQosOf(st);
      var changed := max != st.respQos && st.key.node in online;
      SetQos(st, max);
      if changed {
        SendSubscribeRequest(st.key, max);
      }
    }

    // broker_update_sub_qos
    method UpdateSubQos(x: SubRequester, qos: Qos)
      requires Valid() && Owns(x)
      modifies `Repr, `Told, streams.Repr, x
      ensures Valid() && fresh(Repr - old(Repr)) && unchanged(`subs) && unchanged(`online)
      ensures x.Key() in old(State()).subs && State() == UpdateQos(old(State()), x.Key(), qos)
    {
      hide Valid, State, Registry.UpdateStreamQos;
      Shape();
      Owned(x);
      if x.qos != qos {
        x.qos := qos;
        SubChanged(x);
        Shape();
        if x.stream != null {
          StreamState(x.stream);
          UpdateStreamQos(x.stream);
        }
      }
    }

    // ---------- attaching ----------

    // The stream under a key, opened on first use.
    method OpenStream(s: StreamKey) returns (st: SubStream)
      requires Valid()
      modifies `Repr, streams
      ensures Valid() && fresh(Repr - old(Repr)) && fresh(streams.Repr - old(streams.Repr)) && unchanged(`subs) && unchanged(`online)
      ensures st.key == s && streams.Owns(st) && State() == Opened(old(State()), s)
    {
      hide StreamTable.Valid, WaitTable.Valid, SubsOk, RefersOk, StreamsOf, ListsOf;
      streams.KeysAgree();
      if s in streams.streams {
        st := streams.streams[s];
        streams.OwnsAt(s);
        return;
      }
      StreamsOfUpdate(streams.Model, s, Content([], if s.RemoteStream? then NO_QOS else 0));
      assert Named([]) == [];
      st := streams.Add(s, hash);
      Repr := Repr + streams.Repr;
      StreamsChanged();
    }

    // The two references between a subscriber and its stream.
    method Link(x: SubRequester, st: SubStream)
      requires Valid() && Owns(x) && streams.Owns(st)
      modifies `Repr, streams.Repr, x
      ensures Valid() && fresh(Repr - old(Repr)) && fresh(streams.Repr - old(streams.Repr))
      ensures unchanged(`subs) && unchanged(`online) && streams.streams == old(streams.streams)
      ensures x.Key() in old(State()).subs && st.key in old(State()).streams && State() == Linked(old(State()), x.Key(), st.key)
    {
      hide StreamTable.Valid, WaitTable.Valid, Updated, Valid, State, Named;
      Owned(x);
      StreamState(st);
      x.stream := st;
      SubChanged(x);
      PutIn(x, st);
    }

    // What the state says of one subscriber.
    lemma Owned(x: SubRequester)
      requires Valid() && Owns(x)
      ensures x.Key() in State().subs && State().subs[x.Key()] == SubOf(x) && RefersOk(x)
      ensures x in Repr && x !in streams.Repr && x !in waiting.Repr
      ensures (x.stream != null ==> streams.Owns(x.stream)) && (x.pendingNode == null <==> x.PendingIn.None?)
    {
      hide StreamTable.Valid, WaitTable.Valid, MembersOk;
      assert SubOk(x.Key());
    }

    method PutIn(x: SubRequester, st: SubStream)
      requires Valid() && Owns(x) && streams.Owns(st)
      modifies `Repr, streams.Repr
      ensures Valid() && fresh(Repr - old(Repr)) && fresh(streams.Repr - old(streams.Repr))
      ensures unchanged(`subs) && unchanged(`online) && streams.streams == old(streams.streams)
      ensures var r := old(State());
              && st.key in r.streams
              && State() == r.(streams := r.streams[st.key := r.streams[st.key].(reqSubs := Updated(r.streams[st.key].reqSubs, x.req, x.Key()))])
    {
      hide StreamTable.Valid, WaitTable.Valid, SubsOk, RefersOk, Updated, StreamsOf, ListsOf, Named, StreamMembers, ListMembers;
      streams.Holds(st);
      ghost var c := streams.Model[st.key];
      NamedUpdated(c.reqSubs, x.req, x);
      MembersUpdated(streams.Model, st.key, x.req, x);
      StreamsOfUpdate(streams.Model, st.key, c.(reqSubs := Updated(c.reqSubs, x.req, x)));
      streams.Put(st, x.req, x);
      Repr := Repr + streams.Repr;
      StreamsChanged();
    }

    lemma MembersUpdated(m: map<StreamKey, Content>, s: StreamKey, req: Path, x: SubRequester)
      requires StreamMembers(m) && s in m && Owns(x)
      ensures StreamMembers(m[s := m[s].(reqSubs := Updated(m[s].reqSubs, req, x))])
    {
      forall p | p in Updated(m[s].reqSubs, req, x) ensures p.val != null && Owns(p.val) {
        assert p in m[s].reqSubs || p.val == x;
      }
    }

    // broker_subscribe_remote for a remote stream, broker_handle_local_subscribe for a local
    // one.
    method SubscribeTo(x: SubRequester, s: StreamKey)
      requires Valid() && Owns(x)
      modifies `Repr, `Told, streams.Repr, x
      ensures Valid() && fresh(Repr - old(Repr)) && unchanged(`subs) && unchanged(`online)
      ensures x.Key() in old(State()).subs && State() == Attach(old(State()), x.Key(), s)
    {
      hide Valid, State, Registry.UpdateStreamQos, Linked, Opened;
      Shape();
      Owned(x);
      var st := OpenStream(s);
      Shape();
      Link(x, st);
      Shape();
      UpdateStreamQos(st);
    }

    // Which objects the broker's methods may change.
    lemma Shape()
      requires Valid()
      ensures forall k | k in subs :: subs[k] in Repr
      ensures this in Repr && streams in streams.Repr && waiting in waiting.Repr && streams.Repr <= Repr && waiting.Repr <= Repr
      ensures this !in streams.Repr && this !in waiting.Repr && streams.Repr !! waiting.Repr
    {
    }

    // ---------- waiting ----------

    // strchr from the second character of the name on.
    method DownstreamBaseLen(path: Path) returns (n: nat)
      ensures n == BaseLen(path)
    {
      var from := if |path| > 1 && path[1] == 'd' then |DOWNSTREAM| + 1 else |UPSTREAM| + 1;
      var i := from;
      while i < |path| && path[i] != '/'
        invariant IndexOfSlash(path, i) == IndexOfSlash(path, from)
        decreases |path| - i
      {
        i := i + 1;
      }
      n := if i < |path| then i else 0;
    }

    // Only the lists and the fields of x have changed.
    twostate lemma WaitingChanged(x: SubRequester)
      requires old(Valid()) && old(Owns(x)) && waiting.Valid()
      requires unchanged(`subs) && unchanged(`online) && unchanged(`Told)
      requires forall o: object | o in old(Repr) && o !in old(waiting.Repr) && o != this && o != x :: unchanged(o)
      requires fresh(waiting.Repr - old(waiting.Repr)) && Repr == old(Repr) + waiting.Repr
      requires RefersOk(x) && ListMembers(waiting.Model)
      requires forall k | k in subs && subs[k] != x :: RefersOk(subs[k])
      ensures Valid()
      ensures State() == old(State()).(subs := old(State()).subs[x.Key() := SubOf(x)], pending := ListsOf(waiting.Model))
    {
      hide StreamTable.Valid, WaitTable.Valid, StreamsOf, ListsOf, RefersOk, StreamMembers, ListMembers;
      assert old(SubOk(x.Key()));
      StreamsSame();
      forall k | k in subs ensures SubOk(k) {
        assert old(SubOk(k));
        assert subs[k] != x ==> unchanged(subs[k]);
      }
      assert StreamMembers(streams.Model) by { MembersSame(); }
      assert State().subs == old(State()).subs[x.Key() := SubOf(x)];
    }

    twostate lemma MembersSame()
      requires old(StreamMembers(streams.Model)) && unchanged(streams) && unchanged(`subs)
      ensures StreamMembers(streams.Model)
    {
    }

    // x has joined the list under pk.
    twostate lemma Inserted(x: SubRequester, new pk: PendingKey)
      requires old(Valid()) && old(Owns(x)) && Settled(old(State()))
      requires unchanged(`subs) && unchanged(`online) && unchanged(`Told) && unchanged(x`qos) && unchanged(x`stream)
      requires forall o: object | o in old(Repr) && o !in old(waiting.Repr) && o != this && o != x :: unchanged(o)
      requires waiting.Valid() && fresh(waiting.Repr - old(waiting.Repr)) && Repr == old(Repr) + waiting.Repr
      requires x.pendingNode != null && x.PendingIn == Some(pk)
      requires waiting.Model == old(waiting.Model)[pk := (if pk in old(waiting.Model) then old(waiting.Model)[pk] else []) + [Place(x.pendingNode, x)]]
      ensures Valid() && State() == Waiting(old(State()), x.Key(), pk)
    {
      hide StreamTable.Valid, WaitTable.Valid, StreamsOf, ListsOf, Waiters, StreamMembers;
      ghost var was := old(waiting.Model);
      ghost var ps := if pk in was then was[pk] else [];
      assert old(SubOk(x.Key()));
      assert waiting.Model[pk][|ps|] == Place(x.pendingNode, x);
      forall k | k in subs && subs[k] != x ensures RefersOk(subs[k]) {
        assert old(SubOk(k)) && unchanged(subs[k]) && old(State()).subs[k] == old(SubOf(subs[k]));
      }
      WaitingChanged(x);
      ListsOfUpdate(was, pk, ps + [Place(x.pendingNode, x)]);
      WaitersNext(ps, Place(x.pendingNode, x));
    }

    lemma WaitersNext(ps: seq<Place>, p: Place)
      ensures Waiters(ps + [p]) == Waiters(ps) + [KeyOf(p.sub)] && Waiters([]) == []
    {
    }

    // The common end of the two ways to wait.
    method InsertPending(x: SubRequester, pk: PendingKey)
      requires Valid() && Owns(x) && Settled(State())
      modifies `Repr, waiting.Repr, x
      ensures Valid() && fresh(Repr - old(Repr)) && fresh(waiting.Repr - old(waiting.Repr)) && unchanged(`subs) && unchanged(`online)
      ensures x.Key() in old(State()).subs && State() == Waiting(old(State()), x.Key(), pk)
    {
      hide StreamTable.Valid, WaitTable.Valid, State, SubsOk, MembersOk, RefersOk;
      Owned(x);
      var node := waiting.Insert(pk, x);
      x.pendingNode := node;
      x.PendingIn := Some(pk);
      Repr := Repr + waiting.Repr;
      Inserted(x, pk);
    }

    method SubscribeDisconnectedRemote(x: SubRequester)
      requires Valid() && Owns(x) && Settled(State())
      modifies `Repr, waiting.Repr, x
      ensures Valid() && fresh(Repr - old(Repr)) && fresh(waiting.Repr - old(waiting.Repr)) && unchanged(`subs) && unchanged(`online)
      ensures x.Key() in old(State()).subs && State() == Pend(old(State()), x.Key(), RemoteList(x.path))
    {
      hide Valid, State, BaseLen, Waiting;
      Owned(x);
      var len := DownstreamBaseLen(x.path);
      if len == 0 { return; }
      InsertPending(x, RemotePending(x.path[..len]));
    }

    method SubscribeLocalNonexistent(x: SubRequester)
      requires Valid() && Owns(x) && Settled(State())
      modifies `Repr, waiting.Repr, x
      ensures Valid() && fresh(Repr - old(Repr)) && fresh(waiting.Repr - old(waiting.Repr)) && unchanged(`subs) && unchanged(`online)
      ensures x.Key() in old(State()).subs && State() == Pend(old(State()), x.Key(), Some(LocalPending(x.path)))
    {
      hide Valid, State, Waiting;
      Owned(x);
      InsertPending(x, LocalPending(x.path));
    }

    // ---------- new subscriptions ----------

    // x has joined the subscribers.
    twostate lemma Joined(new x: SubRequester)
      requires old(Valid()) && x.Key() !in old(subs) && subs == old(subs)[x.Key() := x] && fresh(x)
      requires unchanged(`online) && unchanged(`Told) && Repr == old(Repr) + {x}
      requires forall o: object | o in old(Repr) && o != this :: unchanged(o)
      requires x.stream == null && x.pendingNode == null && x.PendingIn == None
      ensures Valid() && State() == old(State()).(subs := old(State()).subs[x.Key() := SubOf(x)])
    {
      hide StreamTable.Valid, WaitTable.Valid, StreamsOf, ListsOf, StreamMembers, ListMembers, RefersOk;
      StreamsSame();
      WaitingSame();
      forall k | k in subs ensures SubOk(k) {
        if subs[k] != x {
          assert old(SubOk(k)) && unchanged(subs[k]);
          RefersSame(subs[k]);
        } else {
          assert RefersOk(x) by { RefersToNothing(x); }
        }
      }
      MembersGrown(x);
      assert State().subs == old(State()).subs[x.Key() := SubOf(x)];
    }

    lemma RefersToNothing(x: SubRequester)
      requires x.stream == null && x.pendingNode == null && x.PendingIn == None
      ensures RefersOk(x)
    {
    }

    twostate lemma MembersGrown(new x: SubRequester)
      requires x.Key() !in old(subs) && subs == old(subs)[x.Key() := x] && unchanged(streams) && unchanged(waiting)
      requires old(StreamMembers(streams.Model)) && old(ListMembers(waiting.Model))
      ensures StreamMembers(streams.Model) && ListMembers(waiting.Model)
    {
    }

    // broker_create_sub_requester
    method CreateSubRequester(k: SubKey, qos: Qos) returns (x: SubRequester)
      requires Valid() && k !in subs
      modifies `Repr, `subs
      ensures Valid() && fresh(Repr - old(Repr)) && unchanged(`online) && fresh(x) && x.Key() == k && Owns(x)
      ensures State() == old(State()).(subs := old(State()).subs[k := Sub(qos, None, None)])
    {
      hide StreamTable.Valid, WaitTable.Valid, State, SubsOk, MembersOk;
      x := new SubRequester(k.req, k.path, qos);
      subs := subs[k := x];
      Repr := Repr + {x};
      Joined(x);
    }

    // broker_create_sub_requester and broker_add_new_subscription
    method AddNewSubscription(k: SubKey, qos: Qos, target: Target)
      requires Valid() && k !in subs && Settled(State())
      modifies Repr
      ensures Valid() && fresh(Repr - old(Repr)) && unchanged(`online)
      ensures State() == Add(old(State()), k, qos, target)
    {
      hide Valid, State, Attach, Pend, BaseLen, RemoteList;
      Shape();
      var x := CreateSubRequester(k, qos);
      Shape();
      Owned(x);
      match target {
        case Missing =>
          if DOWNSTREAM <= k.path || UPSTREAM <= k.path {
            SubscribeDisconnectedRemote(x);
          } else {
            SubscribeLocalNonexistent(x);
          }
        case Local(node) => SubscribeTo(x, LocalStream(node));
        case Remote(node, rest) => SubscribeTo(x, RemoteStream(node, rest));
      }
    }

    // ---------- leaving ----------

    // What the state says of where x waits.
    lemma WaitsAt(x: SubRequester) returns (pk: PendingKey, i: nat)
      requires Valid() && Owns(x) && Invariants.Inv(State()) && x.pendingNode != null
      ensures x.PendingIn == Some(pk) && pk in waiting.Model && i < |waiting.Model[pk]|
      ensures waiting.Model[pk][i] == Place(x.pendingNode, x)
      ensures State().pending[pk] == Waiters(waiting.Model[pk]) && NoDup(State().pending[pk])
    {
      hide StreamTable.Valid, WaitTable.Valid, NoDup, Invariants.SubOk, Invariants.StreamsOk;
      Owned(x);
      pk := x.PendingIn.value;
      assert Invariants.WaitOk(State(), x.Key());
      assert Invariants.ListOk(State(), pk);
      i :| 0 <= i < |waiting.Model[pk]| && waiting.Model[pk][i] == Place(x.pendingNode, x);
    }

    // x has left the i-th place of its list.
    twostate lemma LeftList(x: SubRequester, new pk: PendingKey, new i: nat)
      requires old(Valid()) && old(Owns(x)) && Invariants.Inv(old(State())) && old(x.PendingIn) == Some(pk)
      requires unchanged(`subs) && unchanged(`online) && unchanged(`Told) && unchanged(x`qos) && unchanged(x`stream)
      requires forall o: object | o in old(Repr) && o !in old(waiting.Repr) && o != this && o != x :: unchanged(o)
      requires waiting.Valid() && waiting.Repr == old(waiting.Repr) && Repr == old(Repr)
      requires x.pendingNode == null && x.PendingIn == None
      requires pk in old(waiting.Model) && i < |old(waiting.Model)[pk]| && old(waiting.Model)[pk][i].sub == x
      requires waiting.Model == old(waiting.Model)[pk := DropAt(old(waiting.Model)[pk], i)]
      requires old(State()).pending[pk] == Waiters(old(waiting.Model)[pk]) && NoDup(old(State()).pending[pk])
      ensures Valid() && State() == Registry.Unpend(old(State()), x.Key())
    {
      hide StreamTable.Valid, WaitTable.Valid, StreamsOf, ListsOf, Waiters, StreamMembers, Invariants.Inv, NoDup, RemoveKey;
      ghost var ps := old(waiting.Model)[pk];
      assert old(SubOk(x.Key()));
      forall k | k in subs && subs[k] != x ensures RefersOk(subs[k]) {
        assert old(SubOk(k)) && unchanged(subs[k]);
        if subs[k].pendingNode != null {
          PlaceKept(ps, i, Place(subs[k].pendingNode, subs[k]));
        }
      }
      PlacesFrom(ps, i);
      WaitingChanged(x);
      ListsOfUpdate(old(waiting.Model), pk, DropAt(ps, i));
      WaitersDrop(ps, i);
      RemoveOne(Waiters(ps), i);
      assert Waiters(ps)[i] == x.Key();
    }

    lemma PlaceKept(ps: seq<Place>, i: nat, p: Place)
      requires i < |ps| && ps[i].sub != p.sub
      ensures p in ps ==> p in DropAt(ps, i)
    {
      if p in ps {
        var j :| 0 <= j < |ps| && ps[j] == p;
        assert DropAt(ps, i)[if j < i then j else j - 1] == p;
      }
    }

    lemma PlacesFrom(ps: seq<Place>, i: nat)
      requires i < |ps|
      ensures forall p | p in DropAt(ps, i) :: p in ps
    {
    }

    // list_remove_node on the node that a subscriber waits with.
    method Unpend(x: SubRequester)
      requires Valid() && Owns(x) && Invariants.Inv(State())
      modifies waiting.Repr, x
      ensures Valid() && Repr == old(Repr) && unchanged(`subs) && unchanged(`online) && waiting.Repr == old(waiting.Repr)
      ensures x.Key() in old(State()).subs && State() == Registry.Unpend(old(State()), x.Key())
    {
      hide StreamTable.Valid, WaitTable.Valid, State, SubsOk, MembersOk, RefersOk, Invariants.Inv, NoDup, DropAt, Waiters, RemoveKey;
      Owned(x);
      if x.pendingNode != null {
        ghost var pk, i := WaitsAt(x);
        waiting.Remove(x.pendingNode, pk, i);
        x.pendingNode := null;
        x.PendingIn := None;
        LeftList(x, pk, i);
      }
    }

    // x has left the subscribers, and nothing in the new state refers to it any more.
    twostate lemma Parted(x: SubRequester)
      requires old(Valid()) && old(Owns(x)) && Invariants.Inv(State()) && subs == old(subs) - {x.Key()}
      requires unchanged(`online) && Repr == old(Repr) && streams.Valid() && streams.Repr == old(streams.Repr)
      requires forall o: object | o in old(Repr) && o !in old(streams.Repr) && o != this :: unchanged(o)
      requires forall s | s in streams.streams :: s in old(streams.streams) && streams.streams[s] == old(streams.streams[s])
      requires forall s | s in streams.Model :: s in old(streams.Model) &&
                 forall p | p in streams.Model[s].reqSubs :: p in old(streams.Model)[s].reqSubs
      ensures Valid()
    {
      hide StreamTable.Valid, WaitTable.Valid, Invariants.Inv, StreamMembers, ListMembers, RefersOk;
      WaitingSame();
      forall k | k in subs ensures SubOk(k) {
        assert old(SubOk(k)) && unchanged(subs[k]);
        StillRefers(subs[k]);
      }
      StillMembers();
    }

    twostate lemma StillRefers(y: SubRequester)
      requires old(RefersOk(y)) && unchanged(y) && unchanged(waiting) && Owns(y) && Invariants.Inv(State()) && streams.Valid()
      requires forall s | s in streams.streams :: s in old(streams.streams) && streams.streams[s] == old(streams.streams[s])
      ensures RefersOk(y)
    {
      hide StreamTable.Valid, Invariants.WaitOk;
      streams.KeysAgree();
      assert Invariants.SubOk(State(), y.Key());
    }

    twostate lemma StillMembers()
      requires old(MembersOk()) && Invariants.Inv(State()) && unchanged(waiting)
      requires forall k | k in subs :: k in old(subs) && subs[k] == old(subs[k])
      requires forall s | s in streams.Model :: s in old(streams.Model) &&
                 forall p | p in streams.Model[s].reqSubs :: p in old(streams.Model)[s].reqSubs
      ensures MembersOk()
    {
      hide Invariants.SubsOk, Invariants.ToldOk;
      forall s | s in streams.Model ensures Members(streams.Model[s].reqSubs) {
        var m := streams.Model[s].reqSubs;
        assert Invariants.StreamOk(State(), s);
        forall i | 0 <= i < |m| ensures m[i].val != null && Owns(m[i].val) {
          assert m[i] in old(streams.Model)[s].reqSubs;
          assert Named(m)[i] in Named(m) && Invariants.MemberOk(State(), s, Named(m)[i]);
        }
      }
      forall pk | pk in waiting.Model ensures forall p | p in waiting.Model[pk] :: p.sub != null && Owns(p.sub) {
        var ps := waiting.Model[pk];
        assert Invariants.ListOk(State(), pk);
        forall i | 0 <= i < |ps| ensures ps[i].sub != null && Owns(ps[i].sub) {
          assert ps[i] in old(waiting.Model)[pk];
          assert Waiters(ps)[i] in State().pending[pk];
        }
      }
    }

    // Taking a requester off a stream closes the stream when that was the last one.
    method TakeFrom(st: SubStream, req: Path)
      requires streams.Valid() && streams.Owns(st) && this !in streams.Repr
      modifies `Told, streams.Repr
      ensures streams.Valid() && streams.Repr == old(streams.Repr)
      ensures forall s | s in streams.streams :: s in old(streams.streams) && streams.streams[s] == old(streams.streams[s])
      ensures st.key in old(streams.Model)
      ensures var c := old(streams.Model)[st.key];
              var m := Removed(c.reqSubs, req);
              if m == [] then streams.Model == old(streams.Model) - {st.key} && Told == old(Told) - {st.key}
              else streams.Model == old(streams.Model)[st.key := c.(reqSubs := m)] && Told == old(Told)
    {
      hide StreamTable.Valid, SubStream.Valid, SubStream.Value, Removed;
      streams.Holds(st);
      streams.Take(st, req);
      streams.Holds(st);
      var empty := st.IsEmpty();
      if empty {
        SendUnsubscribe(st.key);
        streams.Drop(st.key);
      }
    }

    // broker_msg_send_unsubscribe, which sends only when the link is up.
    method SendUnsubscribe(s: StreamKey)
      modifies `Told
      ensures Told == old(Told) - {s}
    {
      Told := Told - {s};
    }

    // What taking x off its stream makes of the state.
    twostate lemma TakenFrom(x: SubRequester, new st: SubStream)
      requires old(Valid()) && old(Owns(x)) && old(x.stream) == st && old(streams.Owns(st)) && subs == old(subs) - {x.Key()}
      requires unchanged(`online) && unchanged(waiting) && forall k | k in subs :: unchanged(subs[k])
      requires st.key in old(streams.Model)
      requires var c := old(streams.Model)[st.key];
               var m := Removed(c.reqSubs, x.req);
               if m == [] then streams.Model == old(streams.Model) - {st.key} && Told == old(Told) - {st.key}
               else streams.Model == old(streams.Model)[st.key := c.(reqSubs := m)] && Told == old(Told)
      ensures x.Key() in old(State()).subs
      ensures var t := Registry.Unlink(old(State()), x.Key()); State() == t.(subs := t.subs - {x.Key()})
    {
      hide Removed, StreamsOf, ListsOf, Named, StreamTable.Valid, WaitTable.Valid, MembersOk, SubsOk;
      ghost var c := old(streams.Model)[st.key];
      ghost var m := Removed(c.reqSubs, x.req);
      NamedRemoved(c.reqSubs, x.req);
      StreamsOfUpdate(old(streams.Model), st.key, c.(reqSubs := m));
      StreamsOfRemove(old(streams.Model), st.key);
      assert |Named(m)| == |m|;
      assert State().subs == old(State()).subs - {x.Key()};
    }

    // broker_free_sub_requester
    method FreeSubRequester(x: SubRequester)
      requires Valid() && Owns(x) && Invariants.Inv(State())
      modifies Repr
      ensures Valid() && Repr == old(Repr) && unchanged(`online) && subs == old(subs) - {x.Key()}
      ensures State() == Free(old(State()), x.Key())
    {
      hide Valid, State, Invariants.Inv, Registry.Unpend, Registry.Unlink, StreamTable.Valid, WaitTable.Valid, Removed;
      Shape();
      Owned(x);
      Invariants.UnpendKeeps(State(), x.Key());
      Unpend(x);
      Invariants.LeaveKeeps(State(), x.Key());
      RemoveSub(x);
    }

    // The end of broker_free_sub_requester, for a subscription that does not wait.
    method RemoveSub(x: SubRequester)
      requires Valid() && Owns(x) && x.Key() in State().subs
      requires var t := Registry.Unlink(State(), x.Key()); Invariants.Inv(t.(subs := t.subs - {x.Key()}))
      modifies `subs, `Told, streams.Repr
      ensures Valid() && Repr == old(Repr) && unchanged(`online) && subs == old(subs) - {x.Key()}
      ensures var t := Registry.Unlink(old(State()), x.Key()); State() == t.(subs := t.subs - {x.Key()})
    {
      hide State, Invariants.Inv, Registry.Unlink, StreamTable.Valid, WaitTable.Valid, Removed, StreamMembers, ListMembers;
      Owned(x);
      subs := subs - {x.Key()};
      if x.stream != null {
        TakeFrom(x.stream, x.req);
        TakenFrom(x, x.stream);
        RemovedFrom(old(streams.Model)[x.stream.key].reqSubs, x.req);
      } else {
        NotOnStream(x);
        StreamsSame();
      }
      Parted(x);
    }

    lemma RemovedFrom(m: seq<Pair<Path, SubRequester?>>, req: Path)
      ensures forall p | p in Removed(m, req) :: p in m
    {
    }

    twostate lemma NotOnStream(x: SubRequester)
      requires old(Owns(x)) && old(x.stream) == null && subs == old(subs) - {x.Key()}
      requires unchanged(`online) && unchanged(`Told) && unchanged(streams) && unchanged(waiting) && forall k | k in subs :: unchanged(subs[k])
      ensures x.Key() in old(State()).subs
      ensures var t := Registry.Unlink(old(State()), x.Key()); State() == t.(subs := t.subs - {x.Key()})
    {
      assert State().subs == old(State()).subs - {x.Key()};
    }

    // ---------- freeing a stream ----------

    // The stream st has left the table, and nothing in the new state refers to it any more.
    twostate lemma Closed()
      requires old(Valid()) && Invariants.Inv(State()) && unchanged(`subs) && unchanged(`online) && Repr == old(Repr)
      requires streams.Valid() && streams.Repr == old(streams.Repr)
      requires forall o: object | o in old(Repr) && o !in old(streams.Repr) && o != this :: unchanged(o)
      requires forall s | s in streams.streams :: s in old(streams.streams) && streams.streams[s] == old(streams.streams[s])
      requires forall s | s in streams.Model :: s in old(streams.Model) && streams.Model[s] == old(streams.Model)[s]
      ensures Valid()
    {
      hide StreamTable.Valid, WaitTable.Valid, Invariants.Inv, StreamMembers, ListMembers, RefersOk;
      WaitingSame();
      forall k | k in subs ensures SubOk(k) {
        assert old(SubOk(k)) && unchanged(subs[k]);
        StillRefers(subs[k]);
      }
      StillMembers();
    }

    // The end of broker_stream_free.
    method CloseStream(st: SubStream)
      requires Valid() && streams.Owns(st) && Invariants.Inv(Close(State(), st.key))
      modifies `Told, streams.Repr
      ensures Valid() && Repr == old(Repr) && unchanged(`subs) && unchanged(`online)
      ensures State() == Close(old(State()), st.key)
    {
      hide StreamTable.Valid, WaitTable.Valid, Invariants.Inv, SubsOk, MembersOk, RefersOk, StreamsOf, ListsOf;
      StreamsOfRemove(streams.Model, st.key);
      SendUnsubscribe(st.key);
      streams.Drop(st.key);
      assert State().subs == old(State()).subs;
      Closed();
    }

    // One turn of the loop: the subscriber lets go of the stream and waits for its node.
    method Release(x: SubRequester, s: StreamKey)
      requires Valid() && Owns(x) && Settled(State())
      modifies `Repr, waiting.Repr, x
      ensures Valid() && fresh(Repr - old(Repr)) && fresh(waiting.Repr - old(waiting.Repr)) && unchanged(`subs) && unchanged(`online)
      ensures x.Key() in old(State()).subs
      ensures var r, k := old(State()), x.Key();
              State() == Pend(r.(subs := r.subs[k := r.subs[k].(stream := None)]), k, WaitsBehind(s, x.path)) && Settled(State())
    {
      hide Valid, State, RemoteList, Waiting;
      Owned(x);
      Shape();
      x.stream := null;
      SubChanged(x);
      PendSettled(State(), x.Key(), WaitsBehind(s, x.path));
      if s.RemoteStream? {
        SubscribeDisconnectedRemote(x);
      } else {
        SubscribeLocalNonexistent(x);
      }
    }

    lemma PendSettled(r: Reg, k: SubKey, list: Option<PendingKey>)
      requires Settled(r) && k in r.subs
      ensures Settled(Pend(r, k, list))
    {
    }

    // The objects of a stream belong to the table.
    lemma Parts(st: SubStream)
      requires Valid() && streams.Owns(st)
      ensures st in streams.Repr && st.reqSubs in streams.Repr && st.reqSubs.list in streams.Repr && st.reqSubs.list.head in streams.Repr
      ensures forall n | n in st.reqSubs.list.Nodes :: n in streams.Repr
    {
      hide StreamTable.Valid, WaitTable.Valid, SubsOk, MembersOk, Apart;
      streams.Holds(st);
    }

    // The subscriber at an entry is released, and the walk goes on behind it.
    method ReleaseAt(st: SubStream, entry: ListNode<Binding<Path, SubRequester?>>, ghost i: nat) returns (next: ListNode<Binding<Path, SubRequester?>>)
      requires Valid() && streams.Owns(st) && Settled(State())
      requires i < |st.reqSubs.list.Nodes| && entry == st.reqSubs.list.At(i)
      modifies `Repr, waiting.Repr, subs.Values
      ensures Valid() && fresh(Repr - old(Repr)) && fresh(waiting.Repr - old(waiting.Repr))
      ensures unchanged(`subs) && unchanged(`online) && unchanged(streams)
      ensures unchanged(st.reqSubs.list) && next == st.reqSubs.list.At(i + 1)
      ensures st.key in old(State()).streams && i < |old(State()).streams[st.key].reqSubs|
      ensures var r := old(State()); var k := r.streams[st.key].reqSubs[i].val;
              k in r.subs && State() == Pend(r.(subs := r.subs[k := r.subs[k].(stream := None)]), k, WaitsBehind(st.key, k.path)) && Settled(State())
    {
      hide Valid, State, Map.Valid, Map.Model, List.Valid, List.At, WaitsBehind, Pend, Named, SubStream.Valid, Settled;
      Shape();
      StreamState(st);
      Parts(st);
      st.reqSubs.Walk(i);
      Subscriber(st, i);
      var x := entry.value.val;
      Owned(x);
      next := entry.next;
      Release(x, st.key);
      assert unchanged(st.reqSubs.list);
    }

    // The loop of broker_stream_free.
    method ReleaseAll(st: SubStream)
      requires Valid() && streams.Owns(st) && Settled(State())
      modifies `Repr, waiting.Repr, subs.Values
      ensures Valid() && fresh(Repr - old(Repr)) && fresh(waiting.Repr - old(waiting.Repr))
      ensures unchanged(`subs) && unchanged(`online) && streams.Owns(st) && st.key in old(State()).streams
      ensures State() == Scatter(old(State()), old(State()).streams[st.key].reqSubs, st.key)
    {
      hide Valid, State, Map.Valid, Map.Model, List.Valid, List.At, Scatter, WaitsBehind, Pend, Named, SubStream.Valid, StreamTable.Valid, Settled;
      StreamState(st);
      var list := st.reqSubs.list;
      ghost var was := State();
      ghost var m := was.streams[st.key].reqSubs;
      ScatterNone(was, m, st.key);
      ghost var i := 0;
      var entry := list.head.next;
      st.reqSubs.Walk(0);
      while entry != list.head
        invariant i <= |m| && |list.Nodes| == |m| && entry == list.At(i)
        invariant Valid() && fresh(Repr - old(Repr)) && fresh(waiting.Repr - old(waiting.Repr))
        invariant unchanged(`subs) && unchanged(`online) && unchanged(streams)
        invariant State() == Scatter(was, m[..i], st.key) && Settled(State()) && State().streams == was.streams
        decreases |m| - i
      {
        StreamState(st);
        st.reqSubs.Walk(i);
        ScatterNext(was, m, i, st.key);
        entry := ReleaseAt(st, entry, i);
        i := i + 1;
      }
      StreamState(st);
      st.reqSubs.Walk(i);
      assert m[..i] == m;
    }

    // broker_stream_free on any subscription stream.
    method StreamFree(st: SubStream)
      requires Valid() && streams.Owns(st) && Invariants.Inv(State())
      modifies Repr
      ensures Valid() && fresh(Repr - old(Repr)) && unchanged(`subs) && unchanged(`online)
      ensures State() == FreeStream(old(State()), st.key)
    {
      hide Valid, State, Invariants.Inv, Scatter, StreamTable.Valid, Settled;
      Shape();
      StreamState(st);
      ghost var was := State();
      Runs.FreeStreamKeeps(was, st.key);
      InvSettled(was);
      ReleaseAll(st);
      FreeStreamIs(was, st.key);
      CloseStream(st);
    }

    lemma InvSettled(r: Reg)
      requires Invariants.Inv(r)
      ensures Settled(r)
    {
      forall k | k in r.subs && r.subs[k].pending.Some? ensures r.subs[k].pending.value in r.pending {
        assert Invariants.WaitOk(r, k);
      }
    }

    lemma ScatterNone(r: Reg, m: Subs, s: StreamKey)
      ensures Scatter(r, m[..0], s) == r
    {
    }

    lemma ScatterNext(r: Reg, m: Subs, i: nat, s: StreamKey)
      requires i < |m|
      ensures var t, k := Scatter(r, m[..i], s), m[i].val;
              && (k in t.subs ==> Scatter(r, m[..i + 1], s) == Pend(t.(subs := t.subs[k := t.subs[k].(stream := None)]), k, WaitsBehind(s, k.path)))
              && Scatter(r, m[..i + 1], s).streams == t.streams
    {
      assert m[..i + 1][..i] == m[..i];
    }

    lemma FreeStreamIs(r: Reg, s: StreamKey)
      requires s in r.streams
      ensures FreeStream(r, s) == Close(Scatter(r, r.streams[s].reqSubs, s), s)
    {
    }

    // ---------- a node appears ----------

    // The subscribers of a list are the broker's, and the list is not.
    ghost predicate Held(l: WaitingList)
      reads `subs, `Repr, l, l.Repr
    {
      l.Valid() && l.Repr !! Repr && forall p | p in l.Value() :: p.sub != null && Owns(p.sub)
    }

    // The list has left the table.
    twostate lemma ListTaken(pk: PendingKey)
      requires old(Valid()) && waiting.Valid() && this in Repr && waiting.Repr <= Repr && streams.Repr <= Repr
      requires unchanged(`subs) && unchanged(`online) && unchanged(`Told) && waiting.Repr <= old(waiting.Repr) && Repr <= old(Repr)
      requires forall o: object | o in old(Repr) && o != this && o != waiting :: unchanged(o)
      requires forall k | k in subs :: subs[k] in Repr
      requires waiting.Model == old(waiting.Model) - {pk}
      ensures Valid() && State() == old(State()).(pending := old(State()).pending - {pk})
    {
      hide StreamTable.Valid, WaitTable.Valid, StreamsOf, ListsOf, StreamMembers;
      ListsOfRemove(old(waiting.Model), pk);
      StreamsSame();
      forall k | k in subs ensures SubOk(k) {
        assert old(SubOk(k)) && unchanged(subs[k]);
      }
      assert State().subs == old(State()).subs;
    }

    // dslink_map_remove_get on the waiting lists.
    method TakeList(pk: PendingKey) returns (l: WaitingList?)
      requires Valid()
      modifies `Repr, waiting
      ensures Valid() && Repr <= old(Repr) && unchanged(`subs) && unchanged(`online)
      ensures State() == old(State()).(pending := old(State()).pending - {pk})
      ensures l == null <==> pk !in old(State()).pending
      ensures l != null ==> l in old(Repr) && l.Repr <= old(Repr) && Held(l) && Waiters(l.Value()) == old(State()).pending[pk]
    {
      hide StreamTable.Valid, WaitTable.Valid, StreamsOf, RefersOk, StreamMembers, WaitingList.Valid, WaitingList.Value;
      assert forall k | k in subs :: SubOk(k);
      l := waiting.TakeOut(pk);
      if l != null {
        Repr := Repr - l.Repr;
      }
      ListTaken(pk);
    }

    // One turn of the loop over a waiting list.
    method SubscribeAt(l: WaitingList, entry: ListNode<SubRequester?>, ghost i: nat, pk: PendingKey) returns (next: ListNode<SubRequester?>)
      requires Valid() && Held(l) && i < |l.list.Nodes| && entry == l.list.At(i)
      modifies Repr
      ensures Valid() && fresh(Repr - old(Repr)) && unchanged(`subs) && unchanged(`online)
      ensures Held(l) && l.Value() == old(l.Value()) && unchanged(l.list) && next == l.list.At(i + 1)
      ensures i < |l.Value()| && var k := KeyOf(l.Value()[i].sub);
              k in old(State()).subs && State() == Attach(old(State()), k, StreamFor(pk, k.path))
    {
      hide Valid, State, WaitingList.Valid, WaitingList.Value, List.At, List.Valid, Attach, StreamFor;
      Shape();
      l.Walk(i);
      ListParts(l);
      var x := entry.value;
      assert l.Value()[i] in l.Value();
      Owned(x);
      next := entry.next;
      SubscribeTo(x, StreamFor(pk, x.path));
      ListSame(l);
    }

    lemma ListParts(l: WaitingList)
      requires l.Valid()
      ensures l in l.Repr && l.list in l.Repr
    {
    }

    twostate lemma ListSame(l: WaitingList)
      requires old(l.Valid()) && forall o | o in old(l.Repr) :: unchanged(o)
      ensures l.Valid() && l.Value() == old(l.Value()) && l.Repr == old(l.Repr)
    {
      assert unchanged(l) && unchanged(l.list) && unchanged(l.list.head);
      assert forall n | n in l.list.Nodes :: unchanged(n);
    }

    // The loop of broker_dslink_connect and of handle_pending_sub over a waiting list.
    method SubscribeAll(l: WaitingList, pk: PendingKey)
      requires Valid() && Held(l)
      modifies Repr
      ensures Valid() && fresh(Repr - old(Repr)) && unchanged(`subs) && unchanged(`online)
      ensures Held(l) && l.Value() == old(l.Value())
      ensures State() == AttachAll(old(State()), Waiters(l.Value()), pk)
    {
      hide Valid, State, WaitingList.Valid, WaitingList.Value, List.At, List.Valid, Attach, AttachAll, StreamFor, Waiters, Held;
      HeldValid(l);
      ghost var was, ks := State(), Waiters(l.Value());
      AttachNext(was, ks, 0, pk);
      ghost var i := 0;
      l.Walk(0);
      var node := l.list.head.next;
      while node != l.list.head
        invariant i <= |l.list.Nodes| && node == l.list.At(i) && |ks| == |l.list.Nodes| && unchanged(l.list)
        invariant Valid() && fresh(Repr - old(Repr)) && unchanged(`subs) && unchanged(`online)
        invariant Held(l) && l.Valid() && l.Value() == old(l.Value())
        invariant State() == AttachAll(was, ks[..i], pk)
        decreases |ks| - i
      {
        HeldValid(l);
        l.Walk(i);
        AttachNext(was, ks, i, pk);
        node := SubscribeAt(l, node, i, pk);
        i := i + 1;
        HeldValid(l);
      }
      HeldValid(l);
      l.Walk(i);
      assert ks[..i] == ks;
    }

    lemma HeldValid(l: WaitingList)
      requires Held(l)
      ensures l.Valid() && |Waiters(l.Value())| == |l.list.Nodes|
    {
    }

    lemma AttachNext(r: Reg, ks: seq<SubKey>, i: nat, pk: PendingKey)
      requires i <= |ks|
      ensures i == 0 ==> AttachAll(r, ks[..i], pk) == r
      ensures i < |ks| ==>
                var t := AttachAll(r, ks[..i], pk);
                ks[i] in t.subs ==> AttachAll(r, ks[..i + 1], pk) == Attach(t, ks[i], StreamFor(pk, ks[i].path))
    {
      assert i < |ks| ==> ks[..i + 1][..i] == ks[..i];
    }

    // subs_list_free
    method FreeList(l: WaitingList)
      requires Valid() && Held(l)
      modifies subs.Values
      ensures Valid() && unchanged(this)
      ensures State() == Dismiss(old(State()), Waiters(l.Value()))
    {
      hide Valid, State, WaitingList.Valid, WaitingList.Value, List.At, List.Valid, Dismiss, Waiters, Held;
      HeldValid(l);
      ghost var was, ks := State(), Waiters(l.Value());
      DismissNext(was, ks, 0);
      ghost var i := 0;
      l.Walk(0);
      var node := l.list.head.next;
      while node != l.list.head
        invariant i <= |l.list.Nodes| && node == l.list.At(i) && |ks| == |l.list.Nodes| && unchanged(l.list)
        invariant Valid() && unchanged(this) && Held(l) && l.Valid() && l.Value() == old(l.Value())
        invariant State() == Dismiss(was, ks[..i])
        decreases |ks| - i
      {
        HeldValid(l);
        l.Walk(i);
        DismissNext(was, ks, i);
        node := DismissAt(l, node, i);
        i := i + 1;
        HeldValid(l);
      }
      HeldValid(l);
      l.Walk(i);
      assert ks[..i] == ks;
    }

    method DismissAt(l: WaitingList, entry: ListNode<SubRequester?>, ghost i: nat) returns (next: ListNode<SubRequester?>)
      requires Valid() && Held(l) && i < |l.list.Nodes| && entry == l.list.At(i)
      modifies subs.Values
      ensures Valid() && unchanged(this)
      ensures Held(l) && l.Value() == old(l.Value()) && unchanged(l.list) && next == l.list.At(i + 1)
      ensures i < |l.Value()| && var k := KeyOf(l.Value()[i].sub);
              var r := old(State()); k in r.subs && State() == r.(subs := r.subs[k := r.subs[k].(pending := None)])
    {
      hide Valid, State, WaitingList.Valid, WaitingList.Value, List.At, List.Valid;
      Shape();
      l.Walk(i);
      ListParts(l);
      var x := entry.value;
      assert l.Value()[i] in l.Value();
      Owned(x);
      next := entry.next;
      x.pendingNode := null;
      x.PendingIn := None;
      SubChanged(x);
      ListSame(l);
    }

    lemma DismissNext(r: Reg, ks: seq<SubKey>, i: nat)
      requires i <= |ks|
      ensures i == 0 ==> Dismiss(r, ks[..i]) == r
      ensures i < |ks| ==>
                var t := Dismiss(r, ks[..i]);
                ks[i] in t.subs ==> Dismiss(r, ks[..i + 1]) == t.(subs := t.subs[ks[i] := t.subs[ks[i]].(pending := None)])
    {
      assert i < |ks| ==> ks[..i + 1][..i] == ks[..i];
    }

    // What a node that appears does with the list that waits for it.
    method Summon(pk: PendingKey)
      requires Valid()
      modifies Repr
      ensures Valid() && fresh(Repr - old(Repr)) && unchanged(`subs) && unchanged(`online)
      ensures State() == Arrive(old(State()), pk)
    {
      hide Valid, State, AttachAll, Dismiss, Waiters, Held;
      Shape();
      ghost var r := State();
      var l := TakeList(pk);
      assert pk !in r.pending ==> r.pending - {pk} == r.pending;
      if l != null {
        Shape();
        SubscribeAll(l, pk);
        Shape();
        FreeList(l);
      }
    }

    // ---------- links ----------

    // What the state says of the streams in the table.
    lemma StreamsState()
      requires Valid()
      ensures streams.streams.Keys == State().streams.Keys && State().online == online && State().told == Told
      ensures forall s | s in streams.streams :: State().streams[s].respQos == streams.streams[s].respQos
    {
      hide StreamTable.Valid, WaitTable.Valid, SubsOk, MembersOk, Apart, SubStream.Valid;
      streams.KeysAgree();
      forall s | s in streams.streams ensures State().streams[s].respQos == streams.streams[s].respQos {
        streams.OwnsAt(s);
        StreamState(streams.streams[s]);
      }
    }

    // Only the links and what was told them have changed.
    twostate lemma LinksChanged()
      requires old(Valid()) && unchanged(`subs) && unchanged(`Repr)
      requires forall o: object | o in old(Repr) && o != this :: unchanged(o)
      ensures Valid() && State() == old(State()).(online := online, told := Told)
    {
      hide StreamTable.Valid, WaitTable.Valid, StreamsOf, ListsOf, StreamMembers, ListMembers, RefersOk;
      StreamsSame();
      WaitingSame();
      forall k | k in subs ensures SubOk(k) {
        assert old(SubOk(k)) && unchanged(subs[k]);
        RefersSame(subs[k]);
      }
      assert State().subs == old(State()).subs;
    }

    // The first half of broker_dslink_connect; the streams of the node come in any order.
    method AnnounceAll(node: Path)
      requires Valid()
      modifies `online, `Told
      ensures Valid() && State() == Announce(old(State()), node) && online == old(online) + {node}
      ensures forall s | s in streams.streams && s.RemoteStream? && s.node == node ::
                s in Told && Told[s] == streams.streams[s].respQos
    {
      hide Valid, State, StreamTable.Valid, WaitTable.Valid;
      StreamsState();
      ghost var r := State();
      online := online + {node};
      ghost var was := Told;
      var todo := set s | s in streams.streams && s.RemoteStream? && s.node == node;
      ghost var all := todo;
      while todo != {}
        invariant todo <= all && online == old(online) + {node}
        invariant forall s :: s in Told <==> s in was || (s in all && s !in todo)
        invariant forall s | s in Told :: Told[s] == if s in all && s !in todo then r.streams[s].respQos else was[s]
        decreases todo
      {
        var s :| s in todo;
        Told := Told[s := streams.streams[s].respQos];
        todo := todo - {s};
      }
      LinksChanged();
      ghost var news := map s | s in r.streams && s.RemoteStream? && s.node == node :: r.streams[s].respQos;
      assert Told == was + news;
    }

    // broker_dslink_connect
    method DslinkConnect(node: Path)
      requires Valid()
      modifies Repr
      ensures Valid() && fresh(Repr - old(Repr)) && unchanged(`subs)
      ensures State() == Connect(old(State()), node)
    {
      hide Valid, State, Announce, Arrive;
      Shape();
      AnnounceAll(node);
      Summon(RemotePending(node));
    }

    // handle_pending_sub of broker/src/data/data.c
    method HandlePendingSub(node: Path)
      requires Valid()
      modifies Repr
      ensures Valid() && fresh(Repr - old(Repr)) && unchanged(`subs)
      ensures State() == Arrive(old(State()), LocalPending(node))
    {
      hide Valid, State, Arrive;
      Summon(LocalPending(node));
    }

    // The link of a responder is gone.
    method LinkGone(node: Path)
      requires Valid()
      modifies `online, `Told
      ensures Valid() && State() == ResponderGone(old(State()), node) && online == old(online) - {node}
      ensures forall s | s in Told :: !(s.RemoteStream? && s.node == node)
    {
      hide Valid, State;
      StreamsState();
      online := online - {node};
      Told := map s | s in Told && !(s.RemoteStream? && s.node == node) :: Told[s];
      LinksChanged();
    }

    // The loop of broker_remote_dslink_free over the subscriptions it has collected.
    method FreeCollected(ks: seq<SubKey>)
      requires Valid() && Invariants.Inv(State())
      modifies Repr
      ensures Valid() && Repr == old(Repr)
      ensures State() == FreeAll(old(State()), ks)
    {
      hide Valid, State, Invariants.Inv, FreeAll, Free;
      ghost var was := State();
      FreeNext(was, ks, 0);
      var i := 0;
      while i < |ks|
        invariant i <= |ks| && Valid() && Repr == old(Repr) && Invariants.Inv(State()) && State() == FreeAll(was, ks[..i])
      {
        FreeNext(was, ks, i);
        Known(ks[i]);
        Invariants.FreeKeeps(State(), ks[i]);
        if ks[i] in subs {
          FreeSubRequester(subs[ks[i]]);
        }
        i := i + 1;
      }
      assert ks[..i] == ks;
    }

    lemma FreeNext(r: Reg, ks: seq<SubKey>, i: nat)
      requires i <= |ks|
      ensures i == 0 ==> FreeAll(r, ks[..i]) == r
      ensures i < |ks| ==> FreeAll(r, ks[..i + 1]) == Free(FreeAll(r, ks[..i]), ks[i])
    {
      assert i < |ks| ==> ks[..i + 1][..i] == ks[..i];
    }

    // The state holds the subscriptions that the map holds.
    lemma Known(k: SubKey)
      requires Valid()
      ensures k in subs <==> k in State().subs
      ensures k in subs ==> subs[k].Key() == k && Owns(subs[k])
      ensures k !in subs ==> Free(State(), k) == State()
    {
      hide StreamTable.Valid, WaitTable.Valid, MembersOk, RefersOk;
      assert k in subs ==> SubOk(k);
    }

    // ---------- subscribing ----------

    // handle_subscribe; `displaced` is the other path that held the sid.
    method HandleSubscribe(k: SubKey, qos: Qos, displaced: Option<Path>, target: Target)
      requires Valid() && Invariants.Inv(State())
      modifies Repr
      ensures Valid() && fresh(Repr - old(Repr))
      ensures State() == Subscribe(old(State()), k, qos, displaced, target)
    {
      hide Valid, State, Invariants.Inv, Free, UpdateQos, Add, Settled;
      Shape();
      if displaced.Some? {
        var other := SubKey(k.req, displaced.value);
        Known(other);
        Invariants.FreeKeeps(State(), other);
        if other in subs {
          FreeSubRequester(subs[other]);
        }
      }
      Shape();
      Known(k);
      InvSettled(State());
      if k in subs {
        UpdateSubQos(subs[k], qos);
      } else {
        AddNewSubscription(k, qos, target);
      }
    }

    // handle_unsubscribe, for a sid that is found.
    method HandleUnsubscribe(k: SubKey)
      requires Valid() && Invariants.Inv(State())
      modifies Repr
      ensures Valid() && Repr == old(Repr) && State() == Free(old(State()), k)
    {
      hide Valid, State, Invariants.Inv, Free;
      Known(k);
      if k in subs {
        FreeSubRequester(subs[k]);
      }
    }

    /** The two ends of the link as references: a subscriber refers to a stream exactly when
        the stream's map leads from the requester to the subscriber, and then it does not
        wait. */
    lemma BothEnds(x: SubRequester, st: SubStream)
      requires Valid() && Invariants.Inv(State()) && Owns(x) && streams.Owns(st)
      ensures st.reqSubs.Valid() && (x.stream == st <==> Lookup(st.reqSubs.Model(), x.req) == Some(x))
      ensures x.stream != null ==> x.pendingNode == null
    {
      hide Valid, State, Invariants.Inv, Map.Valid, Map.Model, Named, IndexOf;
      Owned(x);
      StreamState(st);
      Invariants.LinkBothWays(State(), x.Key(), st.key);
      if x.stream != null {
        OwnsStream(x.stream.key);
        OwnsStream(st.key);
      }
      var m := st.reqSubs.Model();
      NamedIndex(m, x.req);
      var i := IndexOf(m, x.req);
      if i >= 0 {
        Subscriber(st, i);
        NamedAt(m, i);
      }
      NamedLength(m);
    }

    lemma NamedAt(m: seq<Pair<Path, SubRequester?>>, i: nat)
      requires i < |m|
      ensures Named(m)[i] == Pair(m[i].key, KeyOf(m[i].val))
    {
    }

    lemma NamedLength(m: seq<Pair<Path, SubRequester?>>)
      ensures |Named(m)| == |m|
    {
    }

    /** The handler of each event computes its step. */
    method Handle(e: Event)
      requires Valid() && Invariants.Inv(State()) && Enabled(State(), e)
      modifies Repr
      ensures Valid() && fresh(Repr - old(Repr)) && State() == Step(old(State()), e)
    {
      hide Valid, State, Invariants.Inv, Subscribe, Free, FreeAll, ResponderGone, Connect, Arrive;
      Shape();
      match e
      case SubscribeEvent(k, qos, displaced, target) => HandleSubscribe(k, qos, displaced, target);
      case UnsubscribeEvent(k) => HandleUnsubscribe(k);
      case RequesterGoneEvent(_, keys) => FreeCollected(keys);
      case ResponderGoneEvent(node) => LinkGone(node);
      case ConnectEvent(node) => DslinkConnect(node);
      case NodeAddedEvent(node) => HandlePendingSub(node);
      case StreamFreedEvent(s) =>
        StreamsState();
        if s in streams.streams {
          OwnsStream(s);
          StreamFree(streams.streams[s]);
        }
    }

    lemma OwnsStream(s: StreamKey)
      requires Valid() && s in streams.streams
      ensures streams.Owns(streams.streams[s]) && streams.streams[s].key == s
    {
      hide StreamTable.Valid, WaitTable.Valid;
      streams.OwnsAt(s);
    }
  }

  /** The objects go through every clean run, and end in the state of the run. */
  method Serve(hash: Path -> nat, es: seq<Event>, ghost run: seq<Reg>) returns (broker: Broker)
    requires Runs.IsRun(run, es) && run[0] == Reg(map[], map[], map[], {}, map[])
    ensures broker.Valid() && fresh(broker.Repr) && broker.State() == run[|es|]
  {
    hide Step, Enabled, Runs.Clean, Runs.Tame, Invariants.Inv, Broker.Valid, Broker.State;
    broker := new Broker(hash);
    for i := 0 to |es|
      invariant broker.Valid() && fresh(broker.Repr) && broker.State() == run[i]
    {
      Runs.RunKeeps(run, es, {}, i);
      broker.Handle(es[i]);
    }
  }
}