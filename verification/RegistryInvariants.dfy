/** What every run keeps between subscriptions, streams, waiting lists and responders. */
module RegistryInvariants {
  import opened Common
  import opened HashMap
  import opened IntrusiveList
  import opened Registry

  // ---------- the invariant ----------

  // A subscription on a stream is the stream's one for its requester, and does not wait.
  ghost predicate SubOk(r: Reg, k: SubKey)
    requires k in r.subs
  {
    match r.subs[k].stream
    case None => true
    case Some(s) =>
      s in r.streams && Lookup(r.streams[s].reqSubs, k.req) == Some(k) && r.subs[k].pending == None
  }

  ghost predicate MemberOk(r: Reg, s: StreamKey, p: Pair<Path, SubKey>) {
    p.val.req == p.key && p.val in r.subs && r.subs[p.val].stream == Some(s)
  }

  // No live stream is empty, and all on it name it as their stream.
  ghost predicate StreamOk(r: Reg, s: StreamKey)
    requires s in r.streams
  {
    var m := r.streams[s].reqSubs;
    m != [] && DistinctKeys(m) && forall p | p in m :: MemberOk(r, s, p)
  }

  // The QoS of a remote stream covers its subscribers, and a responder that is there was
  // last asked for it.
  ghost predicate Agreed(r: Reg, s: StreamKey)
    requires s in r.streams
  {
    s.RemoteStream? ==>
      && (forall p | p in r.streams[s].reqSubs :: QosOf(r.subs, p.val) <= r.streams[s].respQos)
      && (s.node in r.online ==> s in r.told && r.told[s] == r.streams[s].respQos)
  }

  // The lists a path can wait in.
  predicate CanWaitIn(path: Path, pk: PendingKey) {
    RemoteList(path) == Some(pk) || pk == LocalPending(path)
  }

  ghost predicate WaitOk(r: Reg, k: SubKey)
    requires k in r.subs
  {
    match r.subs[k].pending
    case None => true
    case Some(pk) => CanWaitIn(k.path, pk) && pk in r.pending && k in r.pending[pk]
  }

  ghost predicate ListOk(r: Reg, pk: PendingKey)
    requires pk in r.pending
  {
    NoDup(r.pending[pk]) && forall k | k in r.pending[pk] :: k in r.subs && r.subs[k].pending == Some(pk)
  }

  ghost predicate SubsOk(r: Reg) {
    forall k | k in r.subs :: SubOk(r, k) && WaitOk(r, k)
  }

  // Only responders that are there count as told, and only of live streams.
  ghost predicate ToldOk(r: Reg) {
    forall s | s in r.told :: s in r.streams && s.RemoteStream? && s.node in r.online
  }

  ghost predicate StreamsOk(r: Reg) {
    (forall s | s in r.streams :: StreamOk(r, s) && Agreed(r, s)) && ToldOk(r)
  }

  ghost predicate ListsOk(r: Reg) {
    forall pk | pk in r.pending :: ListOk(r, pk)
  }

  ghost predicate Inv(r: Reg) {
    SubsOk(r) && StreamsOk(r) && ListsOk(r)
  }

  // The two ends of a link agree.
  lemma LinkBothWays(r: Reg, k: SubKey, s: StreamKey)
    requires Inv(r) && k in r.subs
    ensures r.subs[k].stream == Some(s) <==> s in r.streams && Lookup(r.streams[s].reqSubs, k.req) == Some(k)
    ensures !(r.subs[k].stream.Some? && r.subs[k].pending.Some?)
  {
    assert SubOk(r, k);
    if s in r.streams && Lookup(r.streams[s].reqSubs, k.req) == Some(k) {
      LookupFound(r.streams[s].reqSubs, k.req);
      assert StreamOk(r, s) && MemberOk(r, s, Pair(k.req, k));
    }
  }

  // ---------- maps as sequences of bindings ----------

  lemma LookupFound(m: Subs, req: Path)
    ensures Lookup(m, req).Some? ==> Pair(req, Lookup(m, req).value) in m
    ensures Lookup(m, req) == None ==> forall p | p in m :: p.key != req
  {
    var i := IndexOf(m, req);
    assert i >= 0 ==> m[i] == Pair(req, m[i].val);
  }

  lemma UpdatedMembers(m: Subs, req: Path, k: SubKey)
    requires Lookup(m, req) == None
    ensures Updated(m, req, k) == m + [Pair(req, k)]
  {
  }

  lemma RemovedMembers(m: Subs, req: Path)
    requires DistinctKeys(m)
    ensures forall p | p in Removed(m, req) :: p in m && p.key != req
    ensures forall p | p in m && p.key != req :: p in Removed(m, req)
  {
    var k := IndexOf(m, req);
    if k >= 0 {
      hide DropAt;
      assert Removed(m, req) == DropAt(m, k) && m[k].key == req;
      forall p | p in DropAt(m, k) ensures p in m && p.key != req {
        var i := Pos(DropAt(m, k), p);
        assert p == m[if i < k then i else i + 1];
      }
      forall p | p in m && p.key != req ensures p in DropAt(m, k) {
        DropMember(m, k, p);
      }
    }
  }

  lemma DropMember(m: Subs, k: nat, p: Pair<Path, SubKey>)
    requires k < |m| && p in m && p != m[k]
    ensures p in DropAt(m, k)
  {
    var i := Pos(m, p);
    assert DropAt(m, k)[if i < k then i else i - 1] == p;
  }

  lemma MaxQosCovers(subs: map<SubKey, Sub>, m: Subs)
    ensures forall p | p in m :: QosOf(subs, p.val) <= MaxQos(subs, m)
  {
  }

  // ---------- attaching ----------

  // The requester has no other subscription on the stream.
  predicate Vacant(r: Reg, k: SubKey, s: StreamKey) {
    s in r.streams ==> Lookup(r.streams[s].reqSubs, k.req) == None
  }

  // The responder of a new stream is never asked for a QoS of 255.
  predicate Unasked(r: Reg, k: SubKey, s: StreamKey)
    requires k in r.subs
  {
    s !in r.streams && s.RemoteStream? && s.node in r.online && r.subs[k].qos == NO_QOS
  }

  function Members(r: Reg, s: StreamKey): Subs {
    if s in r.streams then r.streams[s].reqSubs else []
  }

  // What attaching changes; t is r afterwards.
  ghost predicate Attached(r: Reg, t: Reg, k: SubKey, s: StreamKey)
    requires k in r.subs
  {
    && t.subs == r.subs[k := r.subs[k].(stream := Some(s))] && t.pending == r.pending && t.online == r.online
    && t.streams.Keys == r.streams.Keys + {s} && t.told.Keys <= r.told.Keys + {s}
    && (s in t.told ==> s in r.told || (s.RemoteStream? && s.node in r.online))
    && t.streams[s].reqSubs == Updated(Members(r, s), k.req, k)
    && (s.RemoteStream? ==> t.streams[s].respQos == MaxQos(t.subs, t.streams[s].reqSubs))
    && (forall s' | s' in r.streams && s' != s :: t.streams[s'] == r.streams[s'])
    && (forall s' | s' in r.told && s' != s :: s' in t.told && t.told[s'] == r.told[s'])
  }

  lemma AttachEffect(r: Reg, k: SubKey, s: StreamKey)
    requires k in r.subs
    ensures Attached(r, Attach(r, k, s), k, s)
  {
    hide Updated, MaxQos;
  }

  // When the responder has been asked for the new QoS.
  lemma AttachTells(r: Reg, k: SubKey, s: StreamKey)
    requires k in r.subs && s.RemoteStream? && s.node in r.online
    ensures var t := Attach(r, k, s);
            && s in t.streams
            && (s in r.streams && s in r.told && r.told[s] == r.streams[s].respQos ==> s in t.told && t.told[s] == t.streams[s].respQos)
            && (s !in r.streams && t.streams[s].respQos != NO_QOS ==> s in t.told && t.told[s] == t.streams[s].respQos)
            && (s !in r.streams && t.streams[s].respQos == NO_QOS && s !in r.told ==> s !in t.told)
  {
    hide Updated, MaxQos;
  }

  lemma SoleQos(subs: map<SubKey, Sub>, req: Path, k: SubKey)
    requires k in subs
    ensures MaxQos(subs, [Pair(req, k)]) == subs[k].qos
  {
    assert [Pair(req, k)][..0] == [];
  }

  lemma AttachedSub(r: Reg, t: Reg, k: SubKey, s: StreamKey, q: SubKey)
    requires Inv(r) && k in r.subs && r.subs[k].stream == None && r.subs[k].pending == None
    requires Vacant(r, k, s) && Attached(r, t, k, s) && q in t.subs
    ensures SubOk(t, q) && WaitOk(t, q)
  {
    hide Updated, Lookup, DistinctKeys, MaxQos, CanWaitIn;
    assert SubOk(r, q) && WaitOk(r, q);
    var m := Members(r, s);
    assert s in r.streams ==> StreamOk(r, s);
    EmptyDistinct();
    LookupUpdated(m, k.req, k, q.req);
    if q != k && r.subs[q].stream == Some(s) {
      assert q.req != k.req;
    }
  }

  lemma EmptyDistinct()
    ensures DistinctKeys<Path, SubKey>([])
  {
  }

  lemma AttachedStream(r: Reg, t: Reg, k: SubKey, s: StreamKey, s': StreamKey)
    requires Inv(r) && k in r.subs && r.subs[k].stream == None
    requires Vacant(r, k, s) && Attached(r, t, k, s) && s' in t.streams
    ensures StreamOk(t, s')
  {
    hide Updated, Lookup, DistinctKeys, MaxQos, IndexOf;
    var m := Members(r, s);
    assert s' in r.streams ==> StreamOk(r, s');
    assert s in r.streams ==> StreamOk(r, s);
    if s' == s {
      EmptyDistinct();
      LookupUpdated(m, k.req, k, k.req);
      AbsentUpdated(r, k, s);
    }
    forall p | p in t.streams[s'].reqSubs ensures MemberOk(t, s', p) {
      assert p == Pair(k.req, k) || MemberOk(r, s', p);
    }
  }

  lemma AbsentUpdated(r: Reg, k: SubKey, s: StreamKey)
    requires Vacant(r, k, s)
    ensures Updated(Members(r, s), k.req, k) == Members(r, s) + [Pair(k.req, k)]
  {
    UpdatedMembers(Members(r, s), k.req, k);
  }

  lemma AgreesElsewhere(r: Reg, t: Reg, k: SubKey, s: StreamKey, s': StreamKey)
    requires Inv(r) && k in r.subs && Attached(r, t, k, s) && s' in t.streams && s' != s
    ensures Agreed(t, s')
  {
    hide Updated, MaxQos, SubOk, WaitOk, StreamOk, ListOk;
    assert Agreed(r, s');
  }

  lemma AgreesHere(r: Reg, k: SubKey, s: StreamKey)
    requires Inv(r) && k in r.subs && Vacant(r, k, s) && !Unasked(r, k, s)
    ensures s in Attach(r, k, s).streams && Agreed(Attach(r, k, s), s)
  {
    var t := Attach(r, k, s);
    AttachEffect(r, k, s);
    if s.RemoteStream? {
      if s.node in r.online {
        AttachTells(r, k, s);
      }
      hide Attach, MaxQos, SubOk, WaitOk, StreamOk, ListOk;
      MaxQosCovers(t.subs, t.streams[s].reqSubs);
      if s in r.streams {
        assert Agreed(r, s);
      } else {
        AbsentUpdated(r, k, s);
        SoleQos(t.subs, k.req, k);
      }
    }
  }

  lemma SameLists(r: Reg, t: Reg)
    requires ListsOk(r) && t.pending == r.pending
    requires forall q | q in r.subs && r.subs[q].pending.Some? :: q in t.subs && t.subs[q].pending == r.subs[q].pending
    ensures ListsOk(t)
  {
    hide NoDup;
    forall pk | pk in t.pending ensures ListOk(t, pk) {
      assert ListOk(r, pk);
    }
  }

  lemma AttachedTold(r: Reg, t: Reg, k: SubKey, s: StreamKey)
    requires k in r.subs && ToldOk(r) && Attached(r, t, k, s)
    ensures ToldOk(t)
  {
    hide Updated, MaxQos;
  }

  lemma AttachedSubs(r: Reg, t: Reg, k: SubKey, s: StreamKey)
    requires Inv(r) && k in r.subs && r.subs[k].stream == None && r.subs[k].pending == None
    requires Vacant(r, k, s) && Attached(r, t, k, s)
    ensures SubsOk(t) && ListsOk(t)
  {
    forall q | q in t.subs ensures SubOk(t, q) && WaitOk(t, q) {
      AttachedSub(r, t, k, s, q);
    }
    hide SubOk, WaitOk, StreamsOk, ListsOk, Updated, MaxQos;
    SameLists(r, t);
  }

  lemma AttachedStreams(r: Reg, t: Reg, k: SubKey, s: StreamKey)
    requires Inv(r) && k in r.subs && r.subs[k].stream == None
    requires Vacant(r, k, s) && Attached(r, t, k, s) && s in t.streams && Agreed(t, s)
    ensures StreamsOk(t)
  {
    hide SubsOk, ListsOk, StreamOk, Agreed, Updated, MaxQos;
    AttachedTold(r, t, k, s);
    hide ToldOk;
    forall s' | s' in t.streams ensures StreamOk(t, s') && Agreed(t, s') {
      AttachedStream(r, t, k, s, s');
      if s' != s {
        AgreesElsewhere(r, t, k, s, s');
      }
    }
  }

  lemma AttachKeeps(r: Reg, k: SubKey, s: StreamKey)
    requires Inv(r) && k in r.subs && r.subs[k].stream == None && r.subs[k].pending == None
    requires Vacant(r, k, s) && !Unasked(r, k, s)
    ensures Inv(Attach(r, k, s))
  {
    var t := Attach(r, k, s);
    AttachEffect(r, k, s);
    AgreesHere(r, k, s);
    hide Attach, Attached, SubsOk, StreamsOk, ListsOk, Vacant, Agreed;
    AttachedSubs(r, t, k, s);
    AttachedStreams(r, t, k, s);
  }

  /** Attaching keeps the invariant exactly when the requester has no other subscription on
      the stream and a new responder stream is not asked for QoS 255. */
  lemma AttachExact(r: Reg, k: SubKey, s: StreamKey)
    requires Inv(r) && k in r.subs && r.subs[k].stream == None && r.subs[k].pending == None
    ensures Inv(Attach(r, k, s)) <==> Vacant(r, k, s) && !Unasked(r, k, s)
  {
    if Vacant(r, k, s) && !Unasked(r, k, s) {
      AttachKeeps(r, k, s);
    } else if !Vacant(r, k, s) {
      Crowded(r, k, s);
    } else {
      var t := Attach(r, k, s);
      AttachEffect(r, k, s);
      AttachTells(r, k, s);
      AbsentUpdated(r, k, s);
      SoleQos(t.subs, k.req, k);
      assert !Agreed(t, s);
    }
  }

  // The older subscription still names the stream, which has forgotten it.
  lemma Crowded(r: Reg, k: SubKey, s: StreamKey)
    requires Inv(r) && k in r.subs && r.subs[k].stream == None && !Vacant(r, k, s)
    ensures !Inv(Attach(r, k, s))
  {
    var t, m := Attach(r, k, s), r.streams[s].reqSubs;
    AttachEffect(r, k, s);
    hide Attach, MaxQos, IndexOf, Updated;
    var other := Lookup(m, k.req).value;
    LookupFound(m, k.req);
    assert StreamOk(r, s) && MemberOk(r, s, Pair(k.req, other));
    LookupUpdated(m, k.req, k, k.req);
    assert other in t.subs && !SubOk(t, other);
  }

  // ---------- waiting ----------

  lemma PendKeeps(r: Reg, k: SubKey, list: Option<PendingKey>)
    requires Inv(r) && k in r.subs && r.subs[k].stream == None && r.subs[k].pending == None
    requires list.Some? ==> CanWaitIn(k.path, list.value)
    ensures Inv(Pend(r, k, list))
  {
    hide CanWaitIn, Lookup, DistinctKeys;
    var t := Pend(r, k, list);
    if list.Some? {
      forall q | q in t.subs ensures SubOk(t, q) && WaitOk(t, q) {
        assert SubOk(r, q) && WaitOk(r, q);
      }
      SameStreams(r, t);
      forall pk' | pk' in t.pending ensures ListOk(t, pk') {
        assert pk' in r.pending ==> ListOk(r, pk');
      }
    }
  }

  // The streams see nothing of a subscription but its stream and its QoS.
  lemma SameStreams(r: Reg, t: Reg)
    requires t.streams == r.streams && t.told == r.told && t.online == r.online && t.subs.Keys == r.subs.Keys
    requires forall q | q in r.subs :: t.subs[q].stream == r.subs[q].stream && t.subs[q].qos == r.subs[q].qos
    requires forall s | s in r.streams :: StreamOk(r, s) && Agreed(r, s)
    ensures forall s | s in t.streams :: StreamOk(t, s) && Agreed(t, s)
  {
    hide DistinctKeys;
    forall s | s in t.streams ensures StreamOk(t, s) && Agreed(t, s) {
      assert StreamOk(r, s) && Agreed(r, s);
      forall p | p in t.streams[s].reqSubs ensures MemberOk(t, s, p) {
        assert MemberOk(r, s, p);
      }
    }
  }

  lemma {:induction false} RemoveKeyMembers(ks: seq<SubKey>, k: SubKey)
    ensures forall x :: x in RemoveKey(ks, k) <==> x in ks && x != k
    ensures NoDup(ks) ==> NoDup(RemoveKey(ks, k))
  {
    if ks != [] {
      var front, last := ks[..|ks| - 1], ks[|ks| - 1];
      RemoveKeyMembers(front, k);
      assert ks == front + [last];
      if NoDup(ks) && last != k {
        assert last !in front;
        NoDupAppend(RemoveKey(front, k), last);
      }
    }
  }

  lemma UnpendKeeps(r: Reg, k: SubKey)
    requires Inv(r) && k in r.subs
    ensures Inv(Unpend(r, k))
    ensures Unpend(r, k).subs == r.subs[k := r.subs[k].(pending := None)] && Unpend(r, k).streams == r.streams
  {
    hide CanWaitIn, Lookup, DistinctKeys, RemoveKey, NoDup;
    var t := Unpend(r, k);
    assert WaitOk(r, k);
    if r.subs[k].pending.Some? {
      var pk := r.subs[k].pending.value;
      RemoveKeyMembers(r.pending[pk], k);
      forall q | q in t.subs ensures SubOk(t, q) && WaitOk(t, q) {
        assert SubOk(r, q) && WaitOk(r, q);
      }
      SameStreams(r, t);
      forall pk' | pk' in t.pending ensures ListOk(t, pk') {
        assert ListOk(r, pk') && ListOk(r, pk);
      }
    } else {
      assert t.subs == r.subs;
    }
  }

  // ---------- leaving ----------

  // What leaving a stream changes; t is r afterwards, without the subscription.
  ghost predicate Left(r: Reg, t: Reg, k: SubKey, s: StreamKey)
    requires s in r.streams
  {
    && t.subs == r.subs - {k} && t.pending == r.pending && t.online == r.online
    && (forall s' | s' in r.streams && s' != s :: s' in t.streams && t.streams[s'] == r.streams[s'])
    && (forall s' | s' in r.told && s' != s :: s' in t.told && t.told[s'] == r.told[s'])
    && var m := Removed(r.streams[s].reqSubs, k.req);
       if m == [] then t.streams.Keys == r.streams.Keys - {s} && t.told.Keys == r.told.Keys - {s}
       else && t.streams.Keys == r.streams.Keys && t.told == r.told
            && t.streams[s] == r.streams[s].(reqSubs := m)
  }

  lemma LeftSub(r: Reg, t: Reg, k: SubKey, s: StreamKey, q: SubKey)
    requires Inv(r) && k in r.subs && r.subs[k].stream == Some(s) && s in r.streams
    requires Left(r, t, k, s) && q in t.subs
    ensures SubOk(t, q) && WaitOk(t, q)
  {
    hide Removed, Lookup, DistinctKeys, CanWaitIn, Agreed;
    var m := r.streams[s].reqSubs;
    assert SubOk(r, q) && WaitOk(r, q) && SubOk(r, k) && StreamOk(r, s);
    if r.subs[q].stream == Some(s) {
      assert q.req != k.req;
      LookupRemoved(m, k.req, q.req);
      LookupFound(Removed(m, k.req), q.req);
      assert Removed(m, k.req) != [];
    }
  }

  lemma LeftStream(r: Reg, t: Reg, k: SubKey, s: StreamKey, s': StreamKey)
    requires Inv(r) && k in r.subs && r.subs[k].stream == Some(s) && s in r.streams
    requires Left(r, t, k, s) && s' in t.streams
    ensures StreamOk(t, s') && Agreed(t, s')
  {
    hide Removed, Lookup, DistinctKeys, SubOk, WaitOk;
    var m := r.streams[s].reqSubs;
    assert StreamOk(r, s) && StreamOk(r, s') && Agreed(r, s');
    RemovedMembers(m, k.req);
    LookupRemoved(m, k.req, k.req);
    forall p | p in t.streams[s'].reqSubs ensures MemberOk(t, s', p) {
      assert MemberOk(r, s', p);
      assert s' == s ==> p.key != k.req;
    }
  }

  lemma LeaveKeeps(r: Reg, k: SubKey)
    requires Inv(r) && k in r.subs && r.subs[k].pending == None
    ensures var t := Unlink(r, k); Inv(t.(subs := t.subs - {k}))
    ensures Unlink(r, k).subs == r.subs
  {
    hide Lookup, DistinctKeys, Removed, CanWaitIn, ListsOk, StreamOk, Agreed, WaitOk;
    var u := Unlink(r, k);
    var t := u.(subs := u.subs - {k});
    SameLists(r, t);
    assert SubOk(r, k);
    if r.subs[k].stream.Some? {
      var s := r.subs[k].stream.value;
      assert Left(r, t, k, s);
      hide Unlink, SubOk;
      LeftKeeps(r, t, k, s);
    } else {
      Unattached(r, k);
    }
  }

  lemma LeftKeeps(r: Reg, t: Reg, k: SubKey, s: StreamKey)
    requires Inv(r) && k in r.subs && r.subs[k].stream == Some(s) && s in r.streams && Left(r, t, k, s)
    ensures SubsOk(t) && StreamsOk(t)
  {
    hide SubOk, WaitOk, StreamOk, Agreed, ListsOk, Removed;
    forall q | q in t.subs ensures SubOk(t, q) && WaitOk(t, q) {
      LeftSub(r, t, k, s, q);
    }
    forall s' | s' in t.streams ensures StreamOk(t, s') && Agreed(t, s') {
      LeftStream(r, t, k, s, s');
    }
  }

  lemma Unattached(r: Reg, k: SubKey)
    requires Inv(r) && k in r.subs && r.subs[k].stream == None
    ensures SubsOk(r.(subs := r.subs - {k})) && StreamsOk(r.(subs := r.subs - {k}))
  {
    hide DistinctKeys, Lookup, CanWaitIn;
    var t := r.(subs := r.subs - {k});
    forall q | q in t.subs ensures SubOk(t, q) && WaitOk(t, q) {
      assert SubOk(r, q) && WaitOk(r, q);
    }
    forall s | s in r.streams ensures StreamOk(t, s) && Agreed(t, s) {
      assert StreamOk(r, s) && Agreed(r, s);
      forall p | p in r.streams[s].reqSubs ensures MemberOk(t, s, p) {
        assert MemberOk(r, s, p);
      }
    }
  }

  lemma FreeKeeps(r: Reg, k: SubKey)
    requires Inv(r)
    ensures Inv(Free(r, k)) && Free(r, k).subs == r.subs - {k}
  {
    if k in r.subs {
      hide Unpend, Unlink, Inv;
      UnpendKeeps(r, k);
      LeaveKeeps(Unpend(r, k), k);
    }
  }
}
