/** Which value is the last one of a stream, and who is handed which value: over single steps
    and over whole runs of a requester with the streams. */
module StreamValues {
  import opened Common
  import opened HashMap
  import opened IntrusiveList
  import opened Delivery
  import opened DeliveryRuns
  import opened LastValues
  import opened Registry
  import Requester
  import RegistryInvariants
  import RegistryRuns
  import Waiting

  function Get(values: Values, s: StreamKey): Option<Message> {
    if s in values then Some(values[s]) else None
  }

  // ---------- the last value ----------

  // The stream is not there before the step, or is closed in it first, and is there after it.
  predicate Opens(j: Joint, req: Path, h: Happening, s: StreamKey) {
    && !h.Value? && s in RegistryAfter(j, req, h).streams
    && SeenBy(j, req, h).Some? && s !in Before(j.r, SeenBy(j, req, h).value).streams
  }

  // The last value published on a stream since it was opened, or the one it was opened with.
  function Latest(run: seq<Joint>, hs: seq<Happening>, req: Path, s: StreamKey, i: nat): Option<Message>
    requires i <= |hs| < |run|
  {
    if i == 0 then None
    else
      var j, h := run[i - 1], hs[i - 1];
      if h.Value? && h.stream == s then Some(h.msg)
      else if Opens(j, req, h, s) then (if s.LocalStream? && s.node in h.known then Some(h.known[s.node]) else None)
      else Latest(run, hs, req, s, i - 1)
  }

  lemma FreeCloses(r: Reg, k: SubKey)
    ensures Registry.Free(r, k).streams.Keys <= r.streams.Keys
  {
    hide Removed, RemoveKey;
  }

  // A stream that is not opened keeps its value, unless a new one is published on it.
  lemma StepValue(j: Joint, req: Path, h: Happening, s: StreamKey)
    requires CanHappen(j, req, h) && s in After(j, req, h).r.streams
    ensures var was, now := Get(j.values, s), Get(After(j, req, h).values, s);
            if h.Value? && h.stream == s then now == Some(h.msg)
            else if Opens(j, req, h, s) then now == if s.LocalStream? && s.node in h.known then Some(h.known[s.node]) else None
            else s in j.r.streams && now == was
  {
    hide Registry.Free, Registry.Step, RegistryRuns.Clean, Requester.SeenAs, Requester.Collected, NodeAfter, Registry.Enabled;
    var seen := SeenBy(j, req, h);
    if seen.Some? && seen.value.SubscribeEvent? && seen.value.displaced.Some? {
      FreeCloses(j.r, SubKey(seen.value.key.req, seen.value.displaced.value));
    }
  }

  /** At every point of every run a live stream has the value published on it last, or the one
      of its node when nothing has been published on it since it was opened. */
  lemma {:induction false} RunValues(run: seq<Joint>, hs: seq<Happening>, req: Path, cfg: Config, online: set<Path>, s: StreamKey, i: nat)
    requires IsJointRun(run, hs, req) && run[0] == Start(cfg, online) && i <= |hs|
    requires s in run[i].r.streams
    ensures Get(run[i].values, s) == Latest(run, hs, req, s, i)
    decreases i
  {
    hide CanHappen, After, Opens;
    if i > 0 {
      StepValue(run[i - 1], req, hs[i - 1], s);
      if s in run[i - 1].r.streams {
        RunValues(run, hs, req, cfg, online, s, i - 1);
      }
    }
  }

  // ---------- who is handed a value ----------

  lemma {:induction false} OfferAllHands(n: Node, req: Path, ks: seq<SubKey>, pk: PendingKey, values: Values, p: Path)
    requires NoDup(ks) && p in n.subs
    ensures var m, s := OfferAll(n, req, ks, pk, values), StreamFor(pk, p);
            && p in m.subs
            && OfferedTo(m, p) == OfferedTo(n, p) + (if SubKey(req, p) in ks && s in values then [values[s]] else [])
  {
    hide Offer, StreamFor;
    if ks == [] {
      assert OfferedTo(n, p) + [] == OfferedTo(n, p);
    } else {
      var front, k := ks[..|ks| - 1], ks[|ks| - 1];
      RegistryRuns.LastApart(ks);
      hide NoDup;
      var t := OfferAll(n, req, front, pk, values);
      OfferAllHands(n, req, front, pk, values, p);
      var s := StreamFor(pk, k.path);
      if k.req == req && k.path in t.subs && s in values {
        OfferOffers(t, k.path, values[s]);
      }
      assert k.req == req && k.path == p ==> k == SubKey(req, p);
    }
  }

  // A subscription that was on no stream is on one.
  predicate Joins(r: Reg, t: Reg, k: SubKey) {
    k in r.subs && r.subs[k].stream == None && k in t.subs && t.subs[k].stream.Some?
  }

  function AsList(value: Option<Message>): seq<Message> {
    if value.Some? then [value.value] else []
  }

  /** The values due to p in a step: a new one of the stream it is on; the last one of a stream
      that it joins; and the last one of its stream on a request, unless the request repeats
      path and sid, or asks for QoS 2 on a path that is there. */
  function Due(j: Joint, req: Path, h: Happening, p: Path): seq<Message> {
    var k, t := SubKey(req, p), After(j, req, h);
    match h
    case Value(s, msg) => if s in j.r.streams && OnStream(j.r, k, s) then [msg] else []
    case Elsewhere(_, _) => if Joins(j.r, t.r, k) then AsList(ValueOf(t.values, t.r, k)) else []
    case Own(e, _, _, _) =>
      if e.SubscribeEvent? && e.path == p && (p !in j.n.subs || (!SameSub(j.n, p, e.sid) && e.qos < 2))
      then AsList(ValueOf(t.values, t.r, k)) else []
  }

  lemma OwnHands(j: Joint, req: Path, h: Happening, p: Path)
    requires CanHappen(j, req, h) && h.Own? && p in After(j, req, h).n.subs
    ensures OfferedTo(After(j, req, h).n, p) == OfferedTo(j.n, p) + Due(j, req, h, p)
  {
    hide Delivery.Step, RegistryAfter, ValuesAfter, ValueOf, SeenBy, Requester.Collected, RegistryRuns.Clean;
    StepOffers(j.n, h.event, p);
  }

  lemma ValueHands(j: Joint, req: Path, h: Happening, p: Path)
    requires Sound(j, req) && h.Value? && p in j.n.subs
    ensures p in After(j, req, h).n.subs && OfferedTo(After(j, req, h).n, p) == OfferedTo(j.n, p) + Due(j, req, h, p)
  {
    hide Offer, Requester.DeliveryInvariants.Inv, RegistryRuns.Tame, Lookup;
    var s, k := h.stream, SubKey(req, p);
    assert OfferedTo(j.n, p) + [] == OfferedTo(j.n, p);
    assert k in j.r.subs;
    RegistryInvariants.LinkBothWays(j.r, k, s);
    hide RegistryInvariants.Inv;
    if s in j.r.streams {
      var found := Lookup(j.r.streams[s].reqSubs, req);
      if found.Some? && found.value.path in j.n.subs {
        Subscriber(j.r, req, s);
        OfferOffers(j.n, found.value.path, h.msg);
      }
    }
  }

  // Who joins a stream elsewhere is in the list that is put on streams.
  lemma JoinsFromList(j: Joint, req: Path, h: Happening, p: Path)
    requires Sound(j, req) && CanHappen(j, req, h) && h.Elsewhere? && p in j.n.subs
    ensures var k, pk := SubKey(req, p), Waiting.Summons(h.other);
            var t := RegistryAfter(j, req, h);
            Joins(j.r, t, k) <==> pk.Some? && k in ListOf(j.r, pk.value)
    ensures var k, pk := SubKey(req, p), Waiting.Summons(h.other);
            pk.Some? && k in ListOf(j.r, pk.value) ==> OnStream(RegistryAfter(j, req, h), k, StreamFor(pk.value, p))
  {
    hide Requester.DeliveryInvariants.Inv, RegistryInvariants.Inv, RegistryRuns.Tame, RegistryRuns.Clean, Registry.Step, Registry.Enabled,
         StreamFor, WaitsBehind, Waiting.Summons, Requester.Together;
    var k, pk := SubKey(req, p), Waiting.Summons(h.other);
    var t := Registry.Step(j.r, h.other);
    Requester.ForeignTogether(j.n, j.r, req, h.other);
    InRegistry(j.n, j.r, req, p);
    InRegistry(j.n, t, req, p);
    Waiting.StepMoves(j.r, h.other, k);
    if pk.Some? {
      Waiting.WaitsOnce(j.r, k, pk.value);
      if k in ListOf(j.r, pk.value) {
        WaitsOffStream(j.r, k);
        ListMoves(j, req, h, k);
      }
    }
  }

  lemma WaitsOffStream(r: Reg, k: SubKey)
    requires RegistryInvariants.Inv(r) && k in r.subs && r.subs[k].pending.Some?
    ensures r.subs[k].stream == None
  {
    assert RegistryInvariants.SubOk(r, k);
  }

  // And everyone in it does.
  lemma ListMoves(j: Joint, req: Path, h: Happening, k: SubKey)
    requires Sound(j, req) && CanHappen(j, req, h) && h.Elsewhere? && Waiting.Summons(h.other).Some?
    requires k in ListOf(j.r, Waiting.Summons(h.other).value)
    ensures OnStream(RegistryAfter(j, req, h), k, StreamFor(Waiting.Summons(h.other).value, k.path))
  {
    hide Requester.DeliveryInvariants.Inv, RegistryRuns.Tame, Requester.Together, StreamFor, RegistryRuns.AllVacant,
         RegistryInvariants.Inv, Arrive, Announce;
    var pk := Waiting.Summons(h.other).value;
    var r := if h.other.ConnectEvent? then Announce(j.r, h.other.node) else j.r;
    if h.other.ConnectEvent? {
      RegistryRuns.AnnounceKeeps(j.r, h.other.node);
      RegistryRuns.AnnounceSame(j.r, h.other.node);
      AnnounceVacant(j.r, h.other.node);
    }
    assert RegistryAfter(j, req, h) == Arrive(r, pk);
    SummonedIsOn(r, pk, k);
  }

  lemma ElsewhereHands(j: Joint, req: Path, h: Happening, p: Path)
    requires Sound(j, req) && CanHappen(j, req, h) && h.Elsewhere? && p in j.n.subs
    ensures p in After(j, req, h).n.subs && OfferedTo(After(j, req, h).n, p) == OfferedTo(j.n, p) + Due(j, req, h, p)
  {
    hide Requester.DeliveryInvariants.Inv, RegistryInvariants.Inv, RegistryRuns.Tame, Requester.Together, CanHappen, NodeAfter, RegistryAfter,
         ValuesAfter, Joins, OfferAll, StreamFor, Waiting.Summons;
    var pk := Waiting.Summons(h.other);
    assert OfferedTo(j.n, p) + [] == OfferedTo(j.n, p);
    ElsewhereNode(j, req, h);
    JoinsFromList(j, req, h, p);
    if pk.Some? {
      DistinctList(j.r, pk.value);
      OfferAllHands(j.n, req, ListOf(j.r, pk.value), pk.value, ValuesAfter(j, req, h), p);
    }
  }

  lemma DistinctList(r: Reg, pk: PendingKey)
    requires RegistryInvariants.Inv(r)
    ensures NoDup(ListOf(r, pk))
  {
    if pk in r.pending {
      Waits(r, pk);
      hide RegistryInvariants.Inv;
    }
  }

  /** Who is handed which value: after every step a subscription has been offered what it had
      been before and exactly the values due to it in the step. */
  lemma StepHands(j: Joint, req: Path, h: Happening, p: Path)
    requires Sound(j, req) && CanHappen(j, req, h) && p in After(j, req, h).n.subs
    ensures OfferedTo(After(j, req, h).n, p) == OfferedTo(j.n, p) + Due(j, req, h, p)
  {
    hide Sound, CanHappen, Due, OfferedTo;
    match h
    case Own(_, _, _, _) => OwnHands(j, req, h, p);
    case Value(_, _) =>
      SameSubscriptions(j, req, h, p);
      ValueHands(j, req, h, p);
    case Elsewhere(_, _) =>
      SameSubscriptions(j, req, h, p);
      ElsewhereHands(j, req, h, p);
  }

  // Only the requester makes subscriptions.
  lemma SameSubscriptions(j: Joint, req: Path, h: Happening, p: Path)
    requires Sound(j, req) && CanHappen(j, req, h) && !h.Own? && p in After(j, req, h).n.subs
    ensures p in j.n.subs
  {
    hide Sound, CanHappen, Offer, Lookup, ValuesAfter, RegistryAfter, OfferAll;
    match h
    case Value(s, msg) =>
      if s in j.r.streams {
        var k := Lookup(j.r.streams[s].reqSubs, req);
        if k.Some? && k.value.path in j.n.subs {
          OfferOffers(j.n, k.value.path, msg);
        }
      }
    case Elsewhere(e, _) =>
      ElsewhereNode(j, req, h);
      if Waiting.Summons(e).Some? {
        var pk := Waiting.Summons(e).value;
        OfferAllKeys(j.n, req, ListOf(j.r, pk), pk, ValuesAfter(j, req, h));
      }
  }

  lemma {:induction false} OfferAllKeys(n: Node, req: Path, ks: seq<SubKey>, pk: PendingKey, values: Values)
    ensures OfferAll(n, req, ks, pk, values).subs.Keys == n.subs.Keys
  {
    hide Offer, StreamFor;
    if ks != [] {
      var t, k := OfferAll(n, req, ks[..|ks| - 1], pk, values), ks[|ks| - 1];
      OfferAllKeys(n, req, ks[..|ks| - 1], pk, values);
      var s := StreamFor(pk, k.path);
      if k.req == req && k.path in t.subs && s in values {
        OfferOffers(t, k.path, values[s]);
      }
    }
  }
}
