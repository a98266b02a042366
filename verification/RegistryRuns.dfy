/** The remaining steps of the registry, and whole runs. */
module RegistryRuns {
  import opened Common
  import opened HashMap
  import opened IntrusiveList
  import opened Registry
  import opened RegistryInvariants

  // ---------- changing a QoS ----------

  // What a change of QoS does; t is r afterwards.
  ghost predicate Requalified(r: Reg, t: Reg, k: SubKey, qos: Qos)
    requires k in r.subs
  {
    && t.subs == r.subs[k := r.subs[k].(qos := qos)] && t.pending == r.pending && t.online == r.online
    && t.streams.Keys == r.streams.Keys
    && (forall s | s in t.told :: s in r.told || (s in r.streams && s.RemoteStream? && s.node in r.online))
    && (forall s | s in r.streams :: t.streams[s].reqSubs == r.streams[s].reqSubs)
    && (forall s | s in r.streams && r.subs[k].stream != Some(s) :: t.streams[s] == r.streams[s] && (s in r.told ==> s in t.told && t.told[s] == r.told[s]))
    && (forall s: StreamKey | s in r.streams && r.subs[k].stream == Some(s) && s.RemoteStream? ::
          && t.streams[s].respQos == MaxQos(t.subs, t.streams[s].reqSubs)
          && (s.node in r.online && s in r.told && r.told[s] == r.streams[s].respQos ==> s in t.told && t.told[s] == t.streams[s].respQos))
  }

  lemma UpdateQosEffect(r: Reg, k: SubKey, qos: Qos)
    requires k in r.subs && r.subs[k].qos != qos
    ensures Requalified(r, UpdateQos(r, k, qos), k, qos)
  {
    hide MaxQos;
  }

  lemma RequalifiedStream(r: Reg, t: Reg, k: SubKey, qos: Qos, s: StreamKey)
    requires Inv(r) && k in r.subs && Requalified(r, t, k, qos) && s in t.streams
    ensures StreamOk(t, s) && Agreed(t, s)
  {
    hide DistinctKeys, MaxQos, SubOk, WaitOk, ListsOk;
    assert StreamOk(r, s) && Agreed(r, s);
    MaxQosCovers(t.subs, t.streams[s].reqSubs);
    forall p | p in t.streams[s].reqSubs ensures MemberOk(t, s, p) {
      assert MemberOk(r, s, p);
    }
  }

  lemma UpdateQosKeeps(r: Reg, k: SubKey, qos: Qos)
    requires Inv(r) && k in r.subs
    ensures Inv(UpdateQos(r, k, qos))
    ensures UpdateQos(r, k, qos).subs == r.subs[k := r.subs[k].(qos := qos)]
  {
    var t := UpdateQos(r, k, qos);
    if r.subs[k].qos != qos {
      UpdateQosEffect(r, k, qos);
      hide UpdateQos, ListsOk, StreamOk, Agreed, MaxQos, Lookup, CanWaitIn;
      SameLists(r, t);
      forall q | q in t.subs ensures SubOk(t, q) && WaitOk(t, q) {
        assert SubOk(r, q) && WaitOk(r, q);
      }
      forall s | s in t.streams ensures StreamOk(t, s) && Agreed(t, s) {
        RequalifiedStream(r, t, k, qos, s);
      }
    } else {
      assert r.subs[k := r.subs[k].(qos := qos)] == r.subs;
    }
  }

  // ---------- freeing a stream ----------

  function Detach(r: Reg, k: SubKey): Reg {
    if k in r.subs then r.(subs := r.subs[k := r.subs[k].(stream := None)]) else r
  }

  function DetachAll(r: Reg, m: Subs): Reg {
    if m == [] then r else Detach(DetachAll(r, m[..|m| - 1]), m[|m| - 1].val)
  }

  function PendOne(r: Reg, k: SubKey, s: StreamKey): Reg {
    if k in r.subs then Pend(r, k, WaitsBehind(s, k.path)) else r
  }

  function PendAll(r: Reg, m: Subs, s: StreamKey): Reg {
    if m == [] then r else PendOne(PendAll(r, m[..|m| - 1], s), m[|m| - 1].val, s)
  }

  lemma PendDetach(r: Reg, k: SubKey, q: SubKey, s: StreamKey)
    ensures PendOne(Detach(r, k), q, s) == Detach(PendOne(r, q, s), k)
  {
    hide WaitsBehind;
    if k in r.subs && q in r.subs {
      assert PendOne(Detach(r, k), q, s).subs == Detach(PendOne(r, q, s), k).subs;
    }
  }

  lemma {:induction false} PendAllDetach(r: Reg, k: SubKey, m: Subs, s: StreamKey)
    ensures PendAll(Detach(r, k), m, s) == Detach(PendAll(r, m, s), k)
  {
    if m != [] {
      PendAllDetach(r, k, m[..|m| - 1], s);
      PendDetach(PendAll(r, m[..|m| - 1], s), k, m[|m| - 1].val, s);
    }
  }

  // Detaching and waiting one by one is detaching all first.
  lemma {:induction false} ScatterInTwo(r: Reg, m: Subs, s: StreamKey)
    ensures Scatter(r, m, s) == PendAll(DetachAll(r, m), m, s)
  {
    if m != [] {
      hide Pend, WaitsBehind;
      var front, k := m[..|m| - 1], m[|m| - 1].val;
      ScatterInTwo(r, front, s);
      PendAllDetach(DetachAll(r, front), k, front, s);
      PendAllKeys(DetachAll(r, front), front, s);
      assert Scatter(r, m, s) == PendOne(Detach(Scatter(r, front, s), k), k, s);
    }
  }

  lemma {:induction false} PendAllKeys(r: Reg, m: Subs, s: StreamKey)
    ensures var t := PendAll(r, m, s);
            t.subs.Keys == r.subs.Keys && t.streams == r.streams && t.told == r.told && t.online == r.online
  {
    if m != [] {
      PendAllKeys(r, m[..|m| - 1], s);
    }
  }

  lemma {:induction false} CloseThenPend(r: Reg, m: Subs, s: StreamKey)
    ensures Close(PendAll(r, m, s), s) == PendAll(Close(r, s), m, s)
  {
    if m != [] {
      CloseThenPend(r, m[..|m| - 1], s);
    }
  }

  lemma {:induction false} DetachAllEffect(r: Reg, m: Subs)
    ensures var t := DetachAll(r, m);
            && t == r.(subs := t.subs) && t.subs.Keys == r.subs.Keys
            && forall k | k in r.subs ::
                 t.subs[k] == if exists p :: p in m && p.val == k then r.subs[k].(stream := None) else r.subs[k]
  {
    if m != [] {
      var front, last := m[..|m| - 1], m[|m| - 1];
      DetachAllEffect(r, front);
      assert m == front + [last];
      forall k | k in r.subs
        ensures (exists p :: p in m && p.val == k) <==> ((exists p :: p in front && p.val == k) || last.val == k)
      {
        assert last in m;
      }
    }
  }

  // With the stream gone and its subscribers detached the invariant holds again.
  lemma DetachedKeeps(r: Reg, s: StreamKey)
    requires Inv(r) && s in r.streams
    ensures Inv(Close(DetachAll(r, r.streams[s].reqSubs), s))
    ensures forall p | p in r.streams[s].reqSubs ::
              var t := Close(DetachAll(r, r.streams[s].reqSubs), s);
              p.val in t.subs && t.subs[p.val].stream == None && t.subs[p.val].pending == None
  {
    hide DistinctKeys, Lookup, CanWaitIn, ListsOk, DetachAll, SubOk, WaitOk, StreamOk, Agreed;
    var m := r.streams[s].reqSubs;
    DetachAllEffect(r, m);
    var t := Close(DetachAll(r, m), s);
    SameLists(r, t);
    forall p | p in m ensures p.val in t.subs && t.subs[p.val].stream == None && t.subs[p.val].pending == None {
      assert StreamOk(r, s);
      MemberFree(r, s, p);
    }
    forall q | q in t.subs ensures SubOk(t, q) && WaitOk(t, q) {
      DetachedSub(r, t, s, q);
    }
    forall s' | s' in t.streams ensures StreamOk(t, s') && Agreed(t, s') {
      DetachedStream(r, t, s, s');
    }
  }

  // What detaching all subscribers of s and closing it changes.
  ghost predicate Emptied(r: Reg, t: Reg, s: StreamKey)
    requires s in r.streams
  {
    && t.subs.Keys == r.subs.Keys && t.pending == r.pending && t.online == r.online
    && t.streams == r.streams - {s} && t.told == r.told - {s}
    && forall k | k in r.subs ::
         t.subs[k] == if exists p :: p in r.streams[s].reqSubs && p.val == k then r.subs[k].(stream := None) else r.subs[k]
  }

  lemma MemberFree(r: Reg, s: StreamKey, p: Pair<Path, SubKey>)
    requires Inv(r) && s in r.streams && p in r.streams[s].reqSubs
    ensures p.val in r.subs && r.subs[p.val].stream == Some(s) && r.subs[p.val].pending == None
  {
    hide DistinctKeys, Lookup, CanWaitIn, ListsOk, Agreed;
    assert StreamOk(r, s) && MemberOk(r, s, p) && SubOk(r, p.val);
  }

  lemma DetachedSub(r: Reg, t: Reg, s: StreamKey, q: SubKey)
    requires Inv(r) && s in r.streams && Emptied(r, t, s) && q in t.subs
    ensures SubOk(t, q) && WaitOk(t, q)
  {
    hide DistinctKeys, Lookup, CanWaitIn, ListsOk, StreamOk, Agreed;
    var m := r.streams[s].reqSubs;
    assert SubOk(r, q) && WaitOk(r, q);
    if r.subs[q].stream == Some(s) {
      LookupFound(m, q.req);
      assert Pair(q.req, q) in m;
    }
  }

  lemma DetachedStream(r: Reg, t: Reg, s: StreamKey, s': StreamKey)
    requires Inv(r) && s in r.streams && Emptied(r, t, s) && s' in t.streams
    ensures StreamOk(t, s') && Agreed(t, s')
  {
    hide DistinctKeys, ListsOk, SubOk, WaitOk;
    assert StreamOk(r, s') && Agreed(r, s');
    forall p | p in t.streams[s'].reqSubs ensures MemberOk(t, s', p) {
      assert MemberOk(r, s', p);
      forall q | q in r.streams[s].reqSubs ensures q.val != p.val {
        MemberFree(r, s, q);
      }
    }
  }

  lemma PendEffect(r: Reg, k: SubKey, list: Option<PendingKey>)
    requires k in r.subs && r.subs[k].pending == None
    ensures Pend(r, k, list).subs == r.subs[k := r.subs[k].(pending := list)]
  {
    assert r.subs[k := r.subs[k].(pending := None)] == r.subs;
  }

  lemma {:induction false} PendAllKeep(r: Reg, m: Subs, s: StreamKey)
    requires Inv(r) && DistinctVals(m)
    requires forall p | p in m :: p.val in r.subs && r.subs[p.val].stream == None && r.subs[p.val].pending == None
    ensures Inv(PendAll(r, m, s)) && PendAll(r, m, s).subs.Keys == r.subs.Keys
    ensures forall k | k in r.subs && (forall p | p in m :: p.val != k) :: PendAll(r, m, s).subs[k] == r.subs[k]
    ensures forall p | p in m :: PendAll(r, m, s).subs[p.val] == r.subs[p.val].(pending := WaitsBehind(s, p.val.path))
  {
    if m != [] {
      var front, last := m[..|m| - 1], m[|m| - 1];
      DistinctSplit(m);
      BehindCanWait(s, last.val.path);
      hide Inv, WaitsBehind, CanWaitIn, Pend, DistinctVals;
      PendAllKeep(r, front, s);
      var t, list := PendAll(r, front, s), WaitsBehind(s, last.val.path);
      assert PendAll(r, m, s) == Pend(t, last.val, list);
      hide PendAll;
      PendKeeps(t, last.val, list);
      PendEffect(t, last.val, list);
    }
  }

  lemma BehindCanWait(s: StreamKey, path: Path)
    ensures WaitsBehind(s, path).Some? ==> CanWaitIn(path, WaitsBehind(s, path).value)
  {
  }

  lemma WaitsInCanWait(path: Path)
    ensures WaitsIn(path).Some? ==> CanWaitIn(path, WaitsIn(path).value)
  {
  }

  lemma DistinctSplit(m: Subs)
    requires m != [] && DistinctVals(m)
    ensures var front, last := m[..|m| - 1], m[|m| - 1];
            && DistinctVals(front) && (forall p | p in front :: p.val != last.val && p in m)
            && (forall p | p in m :: p == last || p in front)
  {
    assert m == m[..|m| - 1] + [m[|m| - 1]];
  }

  ghost predicate DistinctVals(m: Subs) {
    forall i, j | 0 <= i < j < |m| :: m[i].val != m[j].val
  }

  lemma MembersDistinct(r: Reg, s: StreamKey)
    requires Inv(r) && s in r.streams
    ensures DistinctVals(r.streams[s].reqSubs)
  {
    hide SubOk, WaitOk, Agreed, ListsOk;
    assert StreamOk(r, s);
    var m := r.streams[s].reqSubs;
    assert forall i | 0 <= i < |m| :: m[i] in m && MemberOk(r, s, m[i]);
  }

  // Every subscriber of a freed stream waits again, in the list for the stream's kind of node.
  lemma FreeStreamKeeps(r: Reg, s: StreamKey)
    requires Inv(r)
    ensures var t := FreeStream(r, s); Inv(t) && s !in t.streams && t.subs.Keys == r.subs.Keys
    ensures forall k | k in r.subs && (forall p | p in Members(r, s) :: p.val != k) :: FreeStream(r, s).subs[k] == r.subs[k]
    ensures forall p | p in Members(r, s) :: p.val in r.subs &&
              FreeStream(r, s).subs[p.val] == r.subs[p.val].(stream := None, pending := WaitsBehind(s, p.val.path))
  {
    hide Inv, WaitsBehind, FreeStream, DetachAll, PendAll, DistinctVals;
    if s in r.streams {
      var m := r.streams[s].reqSubs;
      FreeStreamInTwo(r, s);
      DetachedKeeps(r, s);
      DetachAllEffect(r, m);
      MembersDistinct(r, s);
      PendAllKeep(Close(DetachAll(r, m), s), m, s);
      PendAllKeys(Close(DetachAll(r, m), s), m, s);
    } else {
      NoStream(r, s);
    }
  }

  lemma NoStream(r: Reg, s: StreamKey)
    requires s !in r.streams
    ensures FreeStream(r, s) == r && Members(r, s) == []
  {
  }

  // Its subscribers might as well be detached, and the stream closed, before they wait.
  lemma FreeStreamInTwo(r: Reg, s: StreamKey)
    requires s in r.streams
    ensures var m := r.streams[s].reqSubs;
            FreeStream(r, s) == PendAll(Close(DetachAll(r, m), s), m, s) && Members(r, s) == m
  {
    hide Close, PendAll, DetachAll, Scatter;
    var m := r.streams[s].reqSubs;
    ScatterInTwo(r, m, s);
    CloseThenPend(DetachAll(r, m), m, s);
  }

  // ---------- a node appears ----------

  function DismissOne(r: Reg, k: SubKey): Reg {
    if k in r.subs then r.(subs := r.subs[k := r.subs[k].(pending := None)]) else r
  }

  function AttachOne(r: Reg, k: SubKey, pk: PendingKey): Reg {
    if k in r.subs then Attach(r, k, StreamFor(pk, k.path)) else r
  }

  lemma {:induction false} MaxQosSame(subs: map<SubKey, Sub>, subs': map<SubKey, Sub>, m: Subs)
    requires forall k :: QosOf(subs, k) == QosOf(subs', k)
    ensures MaxQos(subs, m) == MaxQos(subs', m)
  {
    if m != [] {
      MaxQosSame(subs, subs', m[..|m| - 1]);
    }
  }

  lemma OpenDismiss(r: Reg, s: StreamKey, q: SubKey)
    ensures Opened(DismissOne(r, q), s) == DismissOne(Opened(r, s), q)
  {
  }

  lemma LinkDismiss(r: Reg, k: SubKey, s: StreamKey, q: SubKey)
    requires k in r.subs && s in r.streams
    ensures Linked(DismissOne(r, q), k, s) == DismissOne(Linked(r, k, s), q)
  {
    hide Updated;
    if q in r.subs {
      var a, b := r.subs[k].(stream := Some(s)), r.subs[q].(pending := None);
      if q == k {
        UpdateTwice(r.subs, k, b, b.(stream := Some(s)));
        UpdateTwice(r.subs, k, a, a.(pending := None));
      } else {
        assert r.subs[q := b][k := a] == r.subs[k := a][q := b];
      }
    }
  }

  lemma QosDismiss(r: Reg, s: StreamKey, q: SubKey)
    requires s in r.streams
    ensures UpdateStreamQos(DismissOne(r, q), s) == DismissOne(UpdateStreamQos(r, s), q)
  {
    hide MaxQos;
    MaxQosSame(DismissOne(r, q).subs, r.subs, r.streams[s].reqSubs);
  }

  lemma AttachDismiss(r: Reg, k: SubKey, pk: PendingKey, q: SubKey)
    ensures AttachOne(DismissOne(r, q), k, pk) == DismissOne(AttachOne(r, k, pk), q)
  {
    if k in r.subs {
      var s := StreamFor(pk, k.path);
      OpenDismiss(r, s, q);
      LinkDismiss(Opened(r, s), k, s, q);
      QosDismiss(Linked(Opened(r, s), k, s), s, q);
      hide MaxQos, Updated, StreamFor, UpdateStreamQos, Linked, Opened;
    }
  }

  lemma {:induction false} AttachAllDismiss(r: Reg, ks: seq<SubKey>, pk: PendingKey, q: SubKey)
    ensures AttachAll(DismissOne(r, q), ks, pk) == DismissOne(AttachAll(r, ks, pk), q)
  {
    if ks != [] {
      hide Attach, StreamFor;
      AttachAllDismiss(r, ks[..|ks| - 1], pk, q);
      AttachDismiss(AttachAll(r, ks[..|ks| - 1], pk), ks[|ks| - 1], pk, q);
    }
  }

  // The subscriptions might as well leave the list before they are attached.
  lemma {:induction false} AttachThenDismiss(r: Reg, ks: seq<SubKey>, qs: seq<SubKey>, pk: PendingKey)
    ensures Dismiss(AttachAll(r, ks, pk), qs) == AttachAll(Dismiss(r, qs), ks, pk)
  {
    if qs != [] {
      hide Attach, StreamFor;
      var front, q := qs[..|qs| - 1], qs[|qs| - 1];
      AttachThenDismiss(r, ks, front, pk);
      AttachAllDismiss(Dismiss(r, front), ks, pk, q);
      assert Dismiss(AttachAll(r, ks, pk), qs) == DismissOne(Dismiss(AttachAll(r, ks, pk), front), q);
      assert Dismiss(r, qs) == DismissOne(Dismiss(r, front), q);
    }
  }

  lemma {:induction false} DismissEffect(r: Reg, ks: seq<SubKey>)
    ensures var t := Dismiss(r, ks);
            && t == r.(subs := t.subs) && t.subs.Keys == r.subs.Keys
            && forall k | k in r.subs :: t.subs[k] == if k in ks then r.subs[k].(pending := None) else r.subs[k]
  {
    if ks != [] {
      var front, last := ks[..|ks| - 1], ks[|ks| - 1];
      DismissEffect(r, front);
      assert ks == front + [last];
    }
  }

  // The waiting list gone and its subscriptions dismissed.
  function Summoned(r: Reg, pk: PendingKey): Reg
    requires pk in r.pending
  {
    Dismiss(r.(pending := r.pending - {pk}), r.pending[pk])
  }

  lemma SummonedKeeps(r: Reg, pk: PendingKey)
    requires Inv(r) && pk in r.pending
    ensures Inv(Summoned(r, pk))
    ensures Summoned(r, pk).streams == r.streams && Summoned(r, pk).subs.Keys == r.subs.Keys
    ensures forall k | k in r.pending[pk] ::
              && k in r.subs && CanWaitIn(k.path, pk) && r.subs[k].stream == None
              && Summoned(r, pk).subs[k] == r.subs[k].(pending := None)
    ensures forall k | k in r.subs :: Summoned(r, pk).subs[k].qos == r.subs[k].qos
    ensures forall k | k in r.subs && k !in r.pending[pk] :: Summoned(r, pk).subs[k] == r.subs[k]
  {
    hide Lookup, CanWaitIn, DistinctKeys, NoDup;
    var ks, r' := r.pending[pk], r.(pending := r.pending - {pk});
    var t := Summoned(r, pk);
    DismissEffect(r', ks);
    assert ListOk(r, pk);
    forall k | k in ks ensures k in r.subs && CanWaitIn(k.path, pk) && r.subs[k].stream == None {
      assert SubOk(r, k) && WaitOk(r, k);
    }
    forall q | q in t.subs ensures SubOk(t, q) && WaitOk(t, q) {
      assert SubOk(r, q) && WaitOk(r, q);
    }
    SameStreams(r, t);
    forall p | p in t.pending ensures ListOk(t, p) {
      assert ListOk(r, p);
    }
  }

  // Two paths that wait in one list lead to different streams.
  lemma StreamForInjective(pk: PendingKey, k: SubKey, q: SubKey)
    requires CanWaitIn(k.path, pk) && CanWaitIn(q.path, pk) && k != q
    ensures StreamFor(pk, k.path) == StreamFor(pk, q.path) ==> k.req != q.req
  {
    var p, p' := k.path, q.path;
    if pk.RemotePending? {
      assert pk.node == p[..BaseLen(p)] == p'[..BaseLen(p')];
      hide BaseLen;
      assert p == pk.node + p[|pk.node|..] && p' == pk.node + p'[|pk.node|..];
    }
  }

  // What is still to be attached.
  ghost predicate Ready(r: Reg, k: SubKey, pk: PendingKey) {
    && k in r.subs && r.subs[k].stream == None && r.subs[k].pending == None && CanWaitIn(k.path, pk)
    && r.subs[k].qos != NO_QOS && Vacant(r, k, StreamFor(pk, k.path))
  }

  // Someone else's place on a stream leaves mine free.
  lemma AttachLeavesVacant(r: Reg, k: SubKey, s: StreamKey, q: SubKey, s': StreamKey)
    requires Inv(r) && k in r.subs && Vacant(r, q, s') && (s' == s ==> q.req != k.req)
    ensures Attach(r, k, s).subs == r.subs[k := r.subs[k].(stream := Some(s))]
    ensures Vacant(Attach(r, k, s), q, s')
  {
    AttachEffect(r, k, s);
    hide Attach, IndexOf, Updated, MaxQos, Lookup, DistinctKeys;
    MembersAreDistinct(r, s);
    hide Inv;
    LookupUpdated(Members(r, s), k.req, k, q.req);
    if s' == s {
      NothingIn(q.req);
    }
  }

  lemma NothingIn(req: Path)
    ensures Lookup<Path, SubKey>([], req) == None
  {
  }

  lemma MembersAreDistinct(r: Reg, s: StreamKey)
    requires Inv(r)
    ensures DistinctKeys(Members(r, s))
  {
    EmptyDistinct();
    assert s in r.streams ==> StreamOk(r, s);
  }

  lemma AttachLeavesReady(r: Reg, k: SubKey, q: SubKey, pk: PendingKey)
    requires Inv(r) && Ready(r, k, pk) && Ready(r, q, pk) && q != k
    ensures Ready(Attach(r, k, StreamFor(pk, k.path)), q, pk)
  {
    hide Inv, Attach, CanWaitIn, StreamFor, Vacant;
    StreamForInjective(pk, k, q);
    AttachLeavesVacant(r, k, StreamFor(pk, k.path), q, StreamFor(pk, q.path));
  }

  lemma {:induction false} AttachAllKeep(r: Reg, ks: seq<SubKey>, pk: PendingKey, rest: set<SubKey>)
    requires Inv(r) && NoDup(ks) && forall k | k in ks :: Ready(r, k, pk) && k !in rest
    requires forall k | k in rest :: Ready(r, k, pk)
    ensures var t := AttachAll(r, ks, pk);
            && Inv(t) && t.subs.Keys == r.subs.Keys && (forall k | k in rest :: Ready(t, k, pk))
            && (forall k | k in r.subs ::
                  t.subs[k] == if k in ks then r.subs[k].(stream := Some(StreamFor(pk, k.path))) else r.subs[k])
  {
    hide Inv, Attach, AttachAll, StreamFor, Ready, NoDup;
    if ks == [] {
      AttachNobody(r, pk);
    } else {
      var front, k := ks[..|ks| - 1], ks[|ks| - 1];
      LastApart(ks);
      AttachAllKeep(r, front, pk, rest + {k});
      var t := AttachAll(r, front, pk);
      AttachReadyKeeps(t, k, pk);
      AttachLast(r, ks, pk);
      forall q | q in rest ensures Ready(Attach(t, k, StreamFor(pk, k.path)), q, pk) {
        AttachLeavesReady(t, k, q, pk);
      }
    }
  }

  lemma AttachNobody(r: Reg, pk: PendingKey)
    ensures AttachAll(r, [], pk) == r
  {
  }

  lemma AttachLast(r: Reg, ks: seq<SubKey>, pk: PendingKey)
    requires ks != []
    ensures var t, k := AttachAll(r, ks[..|ks| - 1], pk), ks[|ks| - 1];
            k in t.subs ==> AttachAll(r, ks, pk) == Attach(t, k, StreamFor(pk, k.path))
  {
    hide Attach, StreamFor;
  }

  lemma LastApart(ks: seq<SubKey>)
    requires ks != [] && NoDup(ks)
    ensures var front, k := ks[..|ks| - 1], ks[|ks| - 1];
            NoDup(front) && k !in front && k in ks && (forall q | q in front :: q in ks && q != k) && (forall q | q in ks :: q == k || q in front)
  {
    assert ks == ks[..|ks| - 1] + [ks[|ks| - 1]];
  }

  lemma AttachReadyKeeps(r: Reg, k: SubKey, pk: PendingKey)
    requires Inv(r) && Ready(r, k, pk)
    ensures var s := StreamFor(pk, k.path);
            k in r.subs && Inv(Attach(r, k, s)) && Attach(r, k, s).subs == r.subs[k := r.subs[k].(stream := Some(s))]
  {
    hide Attach, StreamFor, CanWaitIn;
    AttachKeeps(r, k, StreamFor(pk, k.path));
    AttachEffect(r, k, StreamFor(pk, k.path));
  }

  // None of a waiting list has a place taken.
  ghost predicate AllVacant(r: Reg, pk: PendingKey) {
    pk in r.pending ==> forall k | k in r.pending[pk] :: Vacant(r, k, StreamFor(pk, k.path))
  }

  // No subscription asks for a QoS of 255.
  ghost predicate Tame(r: Reg) {
    forall k | k in r.subs :: r.subs[k].qos != NO_QOS
  }

  // Everyone in the list is on its stream afterwards, and nobody else has moved.
  lemma ArriveKeeps(r: Reg, pk: PendingKey)
    requires Inv(r) && Tame(r) && AllVacant(r, pk)
    ensures Inv(Arrive(r, pk)) && Arrive(r, pk).subs.Keys == r.subs.Keys
    ensures forall k | k in r.subs ::
              Arrive(r, pk).subs[k] == if pk in r.pending && k in r.pending[pk]
                                       then r.subs[k].(stream := Some(StreamFor(pk, k.path)), pending := None) else r.subs[k]
  {
    if pk in r.pending {
      var ks := r.pending[pk];
      AttachThenDismiss(r.(pending := r.pending - {pk}), ks, ks, pk);
      SummonedKeeps(r, pk);
      assert NoDup(ks) by { assert ListOk(r, pk); }
      hide Inv, CanWaitIn, StreamFor, AttachAll, Dismiss;
      var t := Summoned(r, pk);
      assert AttachAll(t, ks, pk) == Arrive(r, pk);
      AttachAllKeep(t, ks, pk, {});
    }
  }

  lemma AttachSubs(r: Reg, k: SubKey, s: StreamKey)
    requires k in r.subs
    ensures Attach(r, k, s).subs == r.subs[k := r.subs[k].(stream := Some(s))]
  {
    AttachEffect(r, k, s);
  }

  lemma {:induction false} AttachAllSubs(r: Reg, ks: seq<SubKey>, pk: PendingKey)
    requires forall k | k in ks :: k in r.subs
    ensures AttachAll(r, ks, pk).subs.Keys == r.subs.Keys
    ensures forall k | k in r.subs ::
              AttachAll(r, ks, pk).subs[k] == if k in ks then r.subs[k].(stream := Some(StreamFor(pk, k.path))) else r.subs[k]
  {
    if ks != [] {
      hide Attach, StreamFor;
      var front, k := ks[..|ks| - 1], ks[|ks| - 1];
      assert ks == front + [k];
      AttachAllSubs(r, front, pk);
      AttachSubs(AttachAll(r, front, pk), k, StreamFor(pk, k.path));
    }
  }

  // Two subscriptions of one requester cannot both be on a stream.
  lemma NoRoomForTwo(r: Reg, k: SubKey, q: SubKey)
    requires k in r.subs && q in r.subs && k != q && k.req == q.req
    requires r.subs[k].stream.Some? && r.subs[q].stream == r.subs[k].stream
    ensures !Inv(r)
  {
    assert !SubOk(r, k) || !SubOk(r, q);
  }

  lemma Occupant(r: Reg, k: SubKey, s: StreamKey) returns (other: SubKey)
    requires Inv(r) && k in r.subs && r.subs[k].stream == None && !Vacant(r, k, s)
    ensures other in r.subs && other != k && other.req == k.req
    ensures r.subs[other].stream == Some(s) && r.subs[other].pending == None
  {
    hide Lookup;
    LookupFound(r.streams[s].reqSubs, k.req);
    other := Lookup(r.streams[s].reqSubs, k.req).value;
    assert StreamOk(r, s) && MemberOk(r, s, Pair(k.req, other)) && SubOk(r, other);
  }

  lemma ArriveExact(r: Reg, pk: PendingKey)
    requires Inv(r) && Tame(r)
    ensures Inv(Arrive(r, pk)) <==> AllVacant(r, pk)
  {
    if AllVacant(r, pk) {
      ArriveKeeps(r, pk);
    } else {
      var ks := r.pending[pk];
      ghost var k :| k in ks && !Vacant(r, k, StreamFor(pk, k.path));
      hide Inv, StreamFor, CanWaitIn, Vacant, ListOk;
      SummonedKeeps(r, pk);
      var other := Occupant(r, k, StreamFor(pk, k.path));
      assert other !in ks;
      AttachThenDismiss(r.(pending := r.pending - {pk}), ks, ks, pk);
      AttachAllSubs(Summoned(r, pk), ks, pk);
      NoRoomForTwo(Arrive(r, pk), k, other);
    }
  }

  // ---------- links ----------

  lemma AnnounceKeeps(r: Reg, node: Path)
    requires Inv(r)
    ensures Inv(Announce(r, node))
  {
    hide DistinctKeys, Lookup, CanWaitIn, NoDup, SubOk, WaitOk, ListOk;
    var t := Announce(r, node);
    forall s | s in t.streams ensures StreamOk(t, s) && Agreed(t, s) {
      assert StreamOk(r, s) && Agreed(r, s);
      assert forall p | p in t.streams[s].reqSubs :: MemberOk(r, s, p);
    }
    SameSubs(r, t);
  }

  lemma ResponderGoneKeeps(r: Reg, node: Path)
    requires Inv(r)
    ensures Inv(ResponderGone(r, node))
  {
    hide DistinctKeys, Lookup, CanWaitIn, NoDup, SubOk, WaitOk, ListOk;
    var t := ResponderGone(r, node);
    forall s | s in t.streams ensures StreamOk(t, s) && Agreed(t, s) {
      assert StreamOk(r, s) && Agreed(r, s);
      assert forall p | p in t.streams[s].reqSubs :: MemberOk(r, s, p);
    }
    SameSubs(r, t);
  }

  lemma SameSubs(r: Reg, t: Reg)
    requires Inv(r) && t.subs == r.subs && t.streams == r.streams && t.pending == r.pending
    ensures SubsOk(t) && ListsOk(t)
  {
    hide Lookup, CanWaitIn, NoDup;
    forall k | k in t.subs ensures SubOk(t, k) && WaitOk(t, k) {
      assert SubOk(r, k) && WaitOk(r, k);
    }
    SameLists(r, t);
  }

  lemma ConnectKeeps(r: Reg, node: Path)
    requires Inv(r) && Tame(r) && AllVacant(r, RemotePending(node))
    ensures Inv(Connect(r, node)) && Tame(Connect(r, node))
  {
    hide Inv, Arrive, Announce;
    AnnounceKeeps(r, node);
    AnnounceSame(r, node);
    ArriveKeeps(Announce(r, node), RemotePending(node));
  }

  lemma AnnounceSame(r: Reg, node: Path)
    ensures Announce(r, node).subs == r.subs && Announce(r, node).pending == r.pending && Announce(r, node).streams == r.streams
  {
  }

  lemma {:induction false} FreeAllKeeps(r: Reg, ks: seq<SubKey>)
    requires Inv(r)
    ensures Inv(FreeAll(r, ks)) && FreeAll(r, ks).subs.Keys <= r.subs.Keys
    ensures forall k | k in r.subs :: (k in FreeAll(r, ks).subs <==> k !in ks)
    ensures forall k | k in FreeAll(r, ks).subs :: FreeAll(r, ks).subs[k] == r.subs[k]
  {
    if ks != [] {
      hide Inv, Free;
      var front, last := ks[..|ks| - 1], ks[|ks| - 1];
      assert ks == front + [last];
      FreeAllKeeps(r, front);
      FreeKeeps(FreeAll(r, front), last);
    }
  }

  // ---------- subscribing ----------

  function Fresh(r: Reg, k: SubKey, qos: Qos): Reg {
    r.(subs := r.subs[k := Sub(qos, None, None)])
  }

  lemma FreshKeeps(r: Reg, k: SubKey, qos: Qos)
    requires Inv(r) && k !in r.subs
    ensures Inv(Fresh(r, k, qos))
  {
    hide DistinctKeys, Lookup, CanWaitIn;
    var t := Fresh(r, k, qos);
    SameLists(r, t);
    forall q | q in t.subs ensures SubOk(t, q) && WaitOk(t, q) {
      assert q != k ==> SubOk(r, q) && WaitOk(r, q);
    }
    forall s | s in t.streams ensures StreamOk(t, s) && Agreed(t, s) {
      assert StreamOk(r, s) && Agreed(r, s);
      forall p | p in t.streams[s].reqSubs ensures MemberOk(t, s, p) && p.val != k {
        assert MemberOk(r, s, p);
      }
    }
  }

  function Displaced(r: Reg, req: Path, displaced: Option<Path>): Reg {
    if displaced.Some? then Free(r, SubKey(req, displaced.value)) else r
  }

  function TargetKey(target: Target): StreamKey
    requires !target.Missing?
  {
    if target.Local? then LocalStream(target.node) else RemoteStream(target.node, target.rest)
  }

  /** A new subscription keeps the invariant exactly when its requester has no other one on
      the stream it is led to, and a responder is not asked for QoS 255 on a new stream. */
  lemma SubscribeExact(r: Reg, k: SubKey, qos: Qos, displaced: Option<Path>, target: Target)
    requires Inv(r) && k !in Displaced(r, k.req, displaced).subs && !target.Missing?
    ensures var t, s := Displaced(r, k.req, displaced), TargetKey(target);
            Inv(Subscribe(r, k, qos, displaced, target)) <==>
              Vacant(t, k, s) && !(s !in t.streams && s.RemoteStream? && s.node in t.online && qos == NO_QOS)
  {
    var t, s := Displaced(r, k.req, displaced), TargetKey(target);
    hide Inv, Free, Attach, Lookup;
    if displaced.Some? {
      FreeKeeps(r, SubKey(k.req, displaced.value));
    }
    FreshKeeps(t, k, qos);
    AttachExact(Fresh(t, k, qos), k, s);
  }

  lemma SubscribeKeeps(r: Reg, k: SubKey, qos: Qos, displaced: Option<Path>, target: Target)
    requires Inv(r) && Tame(r) && qos != NO_QOS
    requires var t := Displaced(r, k.req, displaced); k in t.subs || target.Missing? || Vacant(t, k, TargetKey(target))
    ensures Inv(Subscribe(r, k, qos, displaced, target)) && Tame(Subscribe(r, k, qos, displaced, target))
  {
    var t := Displaced(r, k.req, displaced);
    hide Inv, Free, Attach, Pend, UpdateQos, Vacant, Tame;
    if displaced.Some? {
      FreeKeeps(r, SubKey(k.req, displaced.value));
      TameSame(r, t);
    }
    if k in t.subs {
      UpdateQosKeeps(t, k, qos);
      TameWith(t, UpdateQos(t, k, qos), k);
    } else {
      FreshKeeps(t, k, qos);
      if target.Missing? {
        WaitsInCanWait(k.path);
        PendKeeps(Fresh(t, k, qos), k, WaitsIn(k.path));
        PendEffect(Fresh(t, k, qos), k, WaitsIn(k.path));
        TameWith(t, Pend(Fresh(t, k, qos), k, WaitsIn(k.path)), k);
      } else {
        VacantFresh(t, k, qos, TargetKey(target));
        AttachKeeps(Fresh(t, k, qos), k, TargetKey(target));
        AttachSubs(Fresh(t, k, qos), k, TargetKey(target));
        TameWith(t, Attach(Fresh(t, k, qos), k, TargetKey(target)), k);
      }
    }
  }

  lemma VacantFresh(r: Reg, k: SubKey, qos: Qos, s: StreamKey)
    requires Vacant(r, k, s)
    ensures Vacant(Fresh(r, k, qos), k, s)
  {
  }

  lemma TameSame(r: Reg, t: Reg)
    requires Tame(r) && forall k | k in t.subs :: k in r.subs && t.subs[k].qos == r.subs[k].qos
    ensures Tame(t)
  {
  }

  lemma TameWith(r: Reg, t: Reg, k: SubKey)
    requires Tame(r) && k in t.subs && t.subs[k].qos != NO_QOS
    requires forall q | q in t.subs && q != k :: q in r.subs && t.subs[q].qos == r.subs[q].qos
    ensures Tame(t)
  {
  }

  // ---------- whole runs ----------

  /** No QoS of 255 is asked for, and whoever is led to a stream finds no other subscription
      of the same requester there. */
  ghost predicate Clean(r: Reg, e: Event) {
    match e
    case SubscribeEvent(k, qos, displaced, target) =>
      && qos != NO_QOS
      && var t := Displaced(r, k.req, displaced); (k in t.subs || target.Missing? || Vacant(t, k, TargetKey(target)))
    case ConnectEvent(node) => AllVacant(r, RemotePending(node))
    case NodeAddedEvent(node) => AllVacant(r, LocalPending(node))
    case _ => true
  }

  lemma StepKeeps(r: Reg, e: Event)
    requires Inv(r) && Tame(r) && Enabled(r, e) && Clean(r, e)
    ensures Inv(Step(r, e)) && Tame(Step(r, e))
  {
    hide Inv, Subscribe, Free, FreeAll, ResponderGone, Connect, Arrive, FreeStream, AllVacant, Vacant, Displaced;
    match e
    case SubscribeEvent(k, qos, displaced, target) => SubscribeKeeps(r, k, qos, displaced, target);
    case UnsubscribeEvent(k) => FreeKeeps(r, k);
    case RequesterGoneEvent(_, keys) => FreeAllKeeps(r, keys);
    case ResponderGoneEvent(node) =>
      ResponderGoneKeeps(r, node);
      ResponderGoneSubs(r, node);
    case ConnectEvent(node) => ConnectKeeps(r, node);
    case NodeAddedEvent(node) => ArriveKeeps(r, LocalPending(node));
    case StreamFreedEvent(s) => FreeStreamKeeps(r, s);
  }

  lemma ResponderGoneSubs(r: Reg, node: Path)
    ensures ResponderGone(r, node).subs == r.subs
  {
  }

  // A run lists the states it passes through.
  ghost predicate IsRun(run: seq<Reg>, es: seq<Event>) {
    && |run| == |es| + 1
    && forall i | 0 <= i < |es| ::
         Enabled(run[i], es[i]) && Clean(run[i], es[i]) && run[i + 1] == Step(run[i], es[i])
  }

  /** In every state of a clean run from the empty registry, for a subscription k and a
      stream s: k names s exactly when s names k, no stream is empty, no subscription both
      waits and is on a stream, and every responder that is there was last asked for the QoS
      of the stream, which covers all its subscribers. */
  lemma {:induction false} RunKeeps(run: seq<Reg>, es: seq<Event>, online: set<Path>, i: nat)
    requires IsRun(run, es) && run[0] == Reg(map[], map[], map[], online, map[]) && i < |run|
    ensures Inv(run[i]) && Tame(run[i])
    decreases i
  {
    if i > 0 {
      hide Inv, Tame, Step, Clean, Enabled;
      RunKeeps(run, es, online, i - 1);
      StepKeeps(run[i - 1], es[i - 1]);
    }
  }
}
