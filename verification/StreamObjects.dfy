/** The objects that the broker links with each other: subscribers, streams and waiting lists,
    and the tables that hold the streams and the lists. Subscribers and streams refer to each
    other; every other object belongs to one stream or one list. */
module StreamObjects {
  import opened Common
  import opened HashMap
  import opened IntrusiveList
  import opened Registry

  class SubRequester {
    const req: Path
    const path: Path
    var qos: Qos
    var stream: SubStream?
    var pendingNode: ListNode?<SubRequester?>

    // The key of the list that pendingNode was inserted in.
    ghost var PendingIn: Option<PendingKey>

    function Key(): SubKey {
      SubKey(req, path)
    }

    // broker_create_sub_requester
    constructor (req: Path, path: Path, qos: Qos)
      ensures this.req == req && this.path == path && this.qos == qos
      ensures stream == null && pendingNode == null && PendingIn == None
    {
      this.req, this.path, this.qos := req, path, qos;
      stream, pendingNode := null, null;
      PendingIn := None;
    }
  }

  // The subscribers of a stream by requester, and what its responder was asked for.
  datatype Content = Content(reqSubs: seq<Pair<Path, SubRequester?>>, respQos: Qos)

  class SubStream {
    const key: StreamKey
    const reqSubs: Map<Path, SubRequester?>
    var respQos: Qos

    ghost var Repr: set<object>

    ghost predicate Valid()
      reads this, Repr
      ensures Valid() ==> this in Repr
    {
      && this in Repr && reqSubs in Repr && reqSubs.Repr <= Repr && this !in reqSubs.Repr
      && reqSubs.Valid() && !reqSubs.locked
    }

    ghost function Value(): Content
      reads this, Repr
      requires Valid()
    {
      Content(reqSubs.Model(), respQos)
    }

    // broker_stream_sub_init; a responder has not been asked for anything yet.
    constructor (key: StreamKey, hash: Path -> nat)
      ensures this.key == key && Valid() && fresh(Repr)
      ensures Value() == Content([], if key.RemoteStream? then NO_QOS else 0)
    {
      this.key := key;
      var m := new Map<Path, SubRequester?>(hash);
      reqSubs := m;
      respQos := if key.RemoteStream? then NO_QOS else 0;
      Repr := {this} + m.Repr;
    }

    method Put(req: Path, x: SubRequester)
      requires Valid()
      modifies Repr
      ensures Valid() && old(Repr) <= Repr && fresh(Repr - old(Repr))
      ensures Value() == old(Value()).(reqSubs := Updated(old(Value()).reqSubs, req, x))
    {
      hide Map.Valid, Map.Model, Updated;
      reqSubs.Set(req, x);
      Repr := Repr + reqSubs.Repr;
    }

    method Take(req: Path)
      requires Valid()
      modifies Repr
      ensures Valid() && Repr == old(Repr)
      ensures Value() == old(Value()).(reqSubs := Removed(old(Value()).reqSubs, req))
    {
      hide Map.Valid, Map.Model, Removed;
      var _ := reqSubs.Remove(req);
    }

    method SetQos(qos: Qos)
      requires Valid()
      modifies Repr
      ensures Valid() && Repr == old(Repr)
      ensures Value() == old(Value()).(respQos := qos)
    {
      hide Map.Valid, Map.Model;
      respQos := qos;
    }

    method IsEmpty() returns (empty: bool)
      requires Valid()
      ensures empty <==> Value().reqSubs == []
    {
      empty := reqSubs.size == 0;
    }
  }

  class StreamTable {
    var streams: map<StreamKey, SubStream>

    ghost var Model: map<StreamKey, Content>
    ghost var Repr: set<object>

    ghost predicate Owns(st: SubStream)
      reads this
    {
      st.key in streams && streams[st.key] == st
    }

    ghost predicate StreamOk(s: StreamKey)
      reads this, Repr
    {
      && s in streams && s in Model
      && var st := streams[s];
         && st in Repr && st.Repr <= Repr && this !in st.Repr && st.key == s
         && st.Valid() && st.Value() == Model[s]
    }

    ghost predicate Apart()
      reads this, streams.Values
    {
      forall s, t | s in streams && t in streams && s != t :: streams[s].Repr !! streams[t].Repr
    }

    ghost predicate Valid()
      reads this, Repr
      ensures Valid() ==> this in Repr
    {
      && this in Repr
      && streams.Keys == Model.Keys
      && (forall s | s in streams :: streams[s] in Repr && StreamOk(s))
      && Apart()
    }

    lemma Holds(st: SubStream)
      requires Valid() && Owns(st)
      ensures StreamOk(st.key)
    {
    }

    lemma KeysAgree()
      requires Valid()
      ensures streams.Keys == Model.Keys
    {
    }

    lemma OwnsAt(s: StreamKey)
      requires Valid() && s in streams
      ensures streams[s].key == s && Owns(streams[s])
    {
      assert StreamOk(s);
    }

    constructor ()
      ensures Valid() && fresh(Repr) && streams == map[] && Model == map[]
    {
      streams, Model := map[], map[];
      Repr := {this};
    }

    // An operation that changes only st, and the model only at st, keeps the table valid.
    twostate lemma OneChanged(st: SubStream)
      requires old(Valid()) && Owns(st) && streams == old(streams)
      requires forall o: object | o in old(Repr) && o !in old(st.Repr) && o != this :: unchanged(o)
      requires st.Valid() && old(st.Repr) <= st.Repr && fresh(st.Repr - old(st.Repr))
      requires Repr == old(Repr) + st.Repr && Model == old(Model)[st.key := st.Value()]
      ensures Valid()
    {
      hide SubStream.Valid, SubStream.Value;
      assert old(StreamOk(st.key));
      forall s | s in streams ensures streams[s] in Repr && StreamOk(s) {
        assert old(StreamOk(s));
        if s != st.key {
          assert old(streams[s].Repr !! st.Repr);
          assert forall o | o in old(streams[s].Repr) :: unchanged(o);
        }
      }
      forall s, t | s in streams && t in streams && s != t ensures streams[s].Repr !! streams[t].Repr {
        assert old(StreamOk(s)) && old(StreamOk(t));
      }
    }

    method Put(st: SubStream, req: Path, x: SubRequester)
      requires Valid() && Owns(st)
      modifies Repr
      ensures Valid() && fresh(Repr - old(Repr)) && streams == old(streams)
      ensures Model == old(Model)[st.key := old(Model)[st.key].(reqSubs := Updated(old(Model)[st.key].reqSubs, req, x))]
    {
      hide SubStream.Valid, SubStream.Value, Apart;
      assert StreamOk(st.key);
      st.Put(req, x);
      Model := Model[st.key := st.Value()];
      Repr := Repr + st.Repr;
      OneChanged(st);
    }

    method Take(st: SubStream, req: Path)
      requires Valid() && Owns(st)
      modifies Repr
      ensures Valid() && Repr == old(Repr) && streams == old(streams)
      ensures Model == old(Model)[st.key := old(Model)[st.key].(reqSubs := Removed(old(Model)[st.key].reqSubs, req))]
    {
      hide SubStream.Valid, SubStream.Value, Apart;
      assert StreamOk(st.key);
      st.Take(req);
      Model := Model[st.key := st.Value()];
      OneChanged(st);
    }

    method SetQos(st: SubStream, qos: Qos)
      requires Valid() && Owns(st)
      modifies Repr
      ensures Valid() && Repr == old(Repr) && streams == old(streams)
      ensures Model == old(Model)[st.key := old(Model)[st.key].(respQos := qos)]
    {
      hide SubStream.Valid, SubStream.Value, Apart;
      assert StreamOk(st.key);
      st.SetQos(qos);
      Model := Model[st.key := st.Value()];
      OneChanged(st);
    }

    // A stream that joins the table.
    method Add(s: StreamKey, hash: Path -> nat) returns (st: SubStream)
      requires Valid() && s !in streams
      modifies this
      ensures Valid() && fresh(Repr - old(Repr)) && st.key == s && streams == old(streams)[s := st] && fresh(st)
      ensures Model == old(Model)[s := Content([], if s.RemoteStream? then NO_QOS else 0)]
    {
      hide SubStream.Valid, SubStream.Value, Apart;
      assert forall t | t in streams :: StreamOk(t);
      label before:
      st := new SubStream(s, hash);
      streams := streams[s := st];
      Model := Model[s := st.Value()];
      Repr := Repr + st.Repr;
      Added(st);
    }

    twostate lemma Added(new st: SubStream)
      requires old(Valid()) && st.key !in old(streams) && streams == old(streams)[st.key := st]
      requires forall o: object | o in old(Repr) && o != this :: unchanged(o)
      requires st.Valid() && fresh(st.Repr) && fresh(st)
      requires Repr == old(Repr) + st.Repr && Model == old(Model)[st.key := st.Value()]
      ensures Valid()
    {
      hide SubStream.Valid, SubStream.Value;
      forall s | s in streams ensures streams[s] in Repr && StreamOk(s) {
        if s != st.key {
          assert old(StreamOk(s));
          assert forall o | o in old(streams[s].Repr) :: unchanged(o);
        }
      }
      forall s, t | s in streams && t in streams && s != t ensures streams[s].Repr !! streams[t].Repr {
        assert s != st.key ==> old(StreamOk(s));
        assert t != st.key ==> old(StreamOk(t));
      }
    }

    // dslink_map_remove on the table.
    method Drop(s: StreamKey)
      requires Valid()
      modifies this
      ensures Valid() && Repr == old(Repr) && streams == old(streams) - {s} && Model == old(Model) - {s}
    {
      hide SubStream.Valid, SubStream.Value;
      assert forall t | t in streams :: StreamOk(t);
      streams := streams - {s};
      Model := Model - {s};
      forall t | t in streams ensures streams[t] in Repr && StreamOk(t) {
        assert old(StreamOk(t));
      }
    }
  }

  // A place in a waiting list.
  datatype Place = Place(node: ListNode<SubRequester?>, sub: SubRequester?)

  ghost function Places(nodes: seq<ListNode<SubRequester?>>): (r: seq<Place>)
    reads nodes
    ensures |r| == |nodes|
    ensures forall i | 0 <= i < |nodes| :: r[i] == Place(nodes[i], nodes[i].value)
  {
    seq(|nodes|, i requires 0 <= i < |nodes| reads nodes => Place(nodes[i], nodes[i].value))
  }

  /** A waiting list, with the objects it is made of. */
  class WaitingList {
    const list: List<SubRequester?>

    ghost var Repr: set<object>

    ghost predicate Valid()
      reads this, Repr
      ensures Valid() ==> this in Repr
    {
      && this in Repr && list in Repr && list.head in Repr
      && (forall n: ListNode<SubRequester?> | n in list.Nodes :: n in Repr)
      && list.Valid()
    }

    ghost function Value(): seq<Place>
      reads this, Repr
      requires Valid()
    {
      Places(list.Nodes)
    }

    // list_init
    constructor ()
      ensures Valid() && fresh(Repr) && Value() == []
    {
      var l := new List<SubRequester?>();
      list := l;
      Repr := {this, l, l.head};
    }

    // dslink_list_insert
    method Insert(x: SubRequester) returns (node: ListNode<SubRequester?>)
      requires Valid()
      modifies Repr
      ensures Valid() && old(Repr) <= Repr && fresh(Repr - old(Repr)) && fresh(node)
      ensures Value() == old(Value()) + [Place(node, x)]
    {
      hide List.Valid;
      node := list.Insert(x);
      Repr := Repr + {node};
    }

    lemma NodeOf(i: nat)
      requires Valid() && i < |list.Nodes|
      ensures list.Nodes[i].list == list
    {
      assert list.Linked(list.Nodes[i], i);
    }

    // The k-th step along the list.
    lemma Walk(k: nat)
      requires Valid() && k <= |list.Nodes|
      ensures |Value()| == |list.Nodes| && list.head.next == list.At(0)
      ensures list.At(k) == list.head <==> k == |list.Nodes|
      ensures k < |list.Nodes| ==>
                list.At(k) == list.Nodes[k] && list.Nodes[k].next == list.At(k + 1) && Value()[k] == Place(list.Nodes[k], list.Nodes[k].value)
    {
      assert k < |list.Nodes| ==> list.Linked(list.Nodes[k], k);
    }

    // list_remove_node on the i-th node.
    twostate lemma Shrunk(new i: nat)
      requires old(Valid()) && i < |old(list.Nodes)| && Repr == old(Repr)
      requires list.Valid() && list.Nodes == DropAt(old(list.Nodes), i)
      requires forall m | m in old(list.Nodes) :: m.value == old(m.value)
      ensures Valid() && Value() == DropAt(old(Value()), i)
    {
      hide List.Valid;
      assert forall n | n in list.Nodes :: n in old(list.Nodes);
    }
  }

  /** remote_pending_sub and local_pending_sub. */
  class WaitTable {
    var lists: map<PendingKey, WaitingList>

    ghost var Model: map<PendingKey, seq<Place>>
    ghost var Repr: set<object>

    ghost predicate ListOk(pk: PendingKey)
      reads this, Repr
    {
      && pk in lists && pk in Model
      && var l := lists[pk];
         && l in Repr && l.Repr <= Repr && this !in l.Repr
         && l.Valid() && l.Value() == Model[pk]
    }

    ghost predicate Apart()
      reads this, lists.Values
    {
      forall p, q | p in lists && q in lists && p != q :: lists[p].Repr !! lists[q].Repr
    }

    ghost predicate Valid()
      reads this, Repr
      ensures Valid() ==> this in Repr
    {
      && this in Repr
      && lists.Keys == Model.Keys
      && (forall pk | pk in lists :: lists[pk] in Repr && ListOk(pk))
      && Apart()
    }

    lemma KeysAgree()
      requires Valid()
      ensures lists.Keys == Model.Keys
    {
    }

    lemma Holds(pk: PendingKey)
      requires Valid() && pk in lists
      ensures ListOk(pk)
    {
    }

    constructor ()
      ensures Valid() && fresh(Repr) && lists == map[] && Model == map[]
    {
      lists, Model := map[], map[];
      Repr := {this};
    }

    // An operation that changes only the list under pk keeps the table valid.
    twostate lemma OneChanged(pk: PendingKey)
      requires old(Valid()) && pk in lists && lists == old(lists)
      requires forall o: object | o in old(Repr) && o !in old(lists[pk].Repr) && o != this :: unchanged(o)
      requires lists[pk].Valid() && old(lists[pk].Repr) <= lists[pk].Repr && fresh(lists[pk].Repr - old(lists[pk].Repr))
      requires Repr == old(Repr) + lists[pk].Repr && Model == old(Model)[pk := lists[pk].Value()]
      ensures Valid()
    {
      hide WaitingList.Valid, WaitingList.Value;
      assert old(ListOk(pk));
      forall q | q in lists ensures lists[q] in Repr && ListOk(q) {
        assert old(ListOk(q));
        if q != pk {
          assert old(lists[q].Repr !! lists[pk].Repr);
          assert forall o | o in old(lists[q].Repr) :: unchanged(o);
        }
      }
      forall p, q | p in lists && q in lists && p != q ensures lists[p].Repr !! lists[q].Repr {
        assert old(ListOk(p)) && old(ListOk(q));
      }
    }

    // A list that joins the table.
    twostate lemma Added(pk: PendingKey, new l: WaitingList)
      requires old(Valid()) && pk !in old(lists) && lists == old(lists)[pk := l]
      requires forall o: object | o in old(Repr) && o != this :: unchanged(o)
      requires l.Valid() && fresh(l.Repr) && fresh(l)
      requires Repr == old(Repr) + l.Repr && Model == old(Model)[pk := l.Value()]
      ensures Valid()
    {
      hide WaitingList.Valid, WaitingList.Value;
      forall q | q in lists ensures lists[q] in Repr && ListOk(q) {
        if q != pk {
          assert old(ListOk(q));
          assert forall o | o in old(lists[q].Repr) :: unchanged(o);
        }
      }
      forall p, q | p in lists && q in lists && p != q ensures lists[p].Repr !! lists[q].Repr {
        assert p != pk ==> old(ListOk(p));
        assert q != pk ==> old(ListOk(q));
      }
    }

    // The list under a key, made on first use.
    method Open(pk: PendingKey)
      requires Valid()
      modifies this
      ensures Valid() && old(Repr) <= Repr && fresh(Repr - old(Repr)) && pk in lists
      ensures Model == if pk in old(Model) then old(Model) else old(Model)[pk := []]
    {
      hide WaitingList.Valid, WaitingList.Value, Apart;
      KeysAgree();
      if pk !in lists {
        assert forall q | q in lists :: ListOk(q);
        var l := new WaitingList();
        lists := lists[pk := l];
        Model := Model[pk := l.Value()];
        Repr := Repr + l.Repr;
        Added(pk, l);
      }
    }

    method InsertIn(pk: PendingKey, x: SubRequester) returns (node: ListNode<SubRequester?>)
      requires Valid() && pk in lists
      modifies Repr
      ensures Valid() && old(Repr) <= Repr && fresh(Repr - old(Repr)) && fresh(node)
      ensures pk in old(Model) && Model == old(Model)[pk := old(Model)[pk] + [Place(node, x)]]
    {
      hide WaitingList.Valid, WaitingList.Value, Apart;
      assert ListOk(pk);
      node := lists[pk].Insert(x);
      Model := Model[pk := lists[pk].Value()];
      Repr := Repr + lists[pk].Repr;
      OneChanged(pk);
    }

    // dslink_list_insert on the list under a key.
    method Insert(pk: PendingKey, x: SubRequester) returns (node: ListNode<SubRequester?>)
      requires Valid()
      modifies Repr
      ensures Valid() && fresh(Repr - old(Repr)) && fresh(node)
      ensures Model == old(Model)[pk := (if pk in old(Model) then old(Model)[pk] else []) + [Place(node, x)]]
    {
      hide Valid;
      Open(pk);
      node := InsertIn(pk, x);
    }

    // list_remove_node, which finds the list through the node.
    method Remove(node: ListNode<SubRequester?>, ghost pk: PendingKey, ghost i: nat)
      requires Valid() && pk in Model && i < |Model[pk]| && Model[pk][i].node == node
      modifies Repr
      ensures Valid() && Repr == old(Repr)
      ensures Model == old(Model)[pk := DropAt(old(Model)[pk], i)]
    {
      hide List.Valid, Apart, DropAt;
      KeysAgree();
      assert ListOk(pk);
      lists[pk].NodeOf(i);
      node.list.RemoveNode(node, i);
      lists[pk].Shrunk(i);
      Model := Model[pk := lists[pk].Value()];
      hide WaitingList.Valid, WaitingList.Value;
      OneChanged(pk);
    }

    // dslink_map_remove_get
    method TakeOut(pk: PendingKey) returns (l: WaitingList?)
      requires Valid()
      modifies this
      ensures Valid() && Model == old(Model) - {pk}
      ensures l == null <==> pk !in old(Model)
      ensures l == null ==> Repr == old(Repr)
      ensures l != null ==>
                && Repr == old(Repr) - l.Repr && l.Repr <= old(Repr) && this !in l.Repr
                && l.Valid() && l.Value() == old(Model)[pk] && l.Repr == old(l.Repr)
    {
      hide WaitingList.Valid, WaitingList.Value;
      if pk !in lists {
        assert Model - {pk} == Model;
        return null;
      }
      l := lists[pk];
      assert ListOk(pk);
      assert forall q | q in lists && q != pk :: ListOk(q) && lists[q].Repr !! l.Repr && lists[q] in lists[q].Repr;
      lists := lists - {pk};
      Model := Model - {pk};
      Repr := Repr - l.Repr;
      LeftOut(l);
    }

    // What is left of the table when the list l is gone.
    twostate lemma LeftOut(new l: WaitingList)
      requires old(Valid()) && this in Repr && Repr == old(Repr) - l.Repr && lists.Keys == Model.Keys
      requires forall o: object | o in old(Repr) && o != this :: unchanged(o)
      requires forall q | q in lists :: q in old(lists) && lists[q] == old(lists[q]) && Model[q] == old(Model[q]) && old(lists[q].Repr) !! l.Repr
      ensures Valid()
    {
      hide WaitingList.Valid, WaitingList.Value;
      forall q | q in lists ensures lists[q] in Repr && ListOk(q) && lists[q].Repr == old(lists[q].Repr) {
        assert old(ListOk(q));
        assert forall o | o in old(lists[q].Repr) :: unchanged(o);
      }
      forall p, q | p in lists && q in lists && p != q ensures lists[p].Repr !! lists[q].Repr {
        assert old(lists[p].Repr !! lists[q].Repr);
      }
    }
  }
}
