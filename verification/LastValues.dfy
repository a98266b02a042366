/** One requester on streams that have values: the value that a subscription is sent at once is
    the last one of its stream, and who hears a new value is told by the stream. The two models
    of Requester.dfy run together here, with the values of the streams between them. */
module LastValues {
  import opened Common
  import opened HashMap
  import opened Delivery
  import opened Requester
  import DeliveryInvariants
  import DeliveryOrder
  import DeliveryRuns
  import DeliveryFree
  import Registry
  import RegistryInvariants
  import RegistryRuns
  import Waiting

  type Values = map<Registry.StreamKey, Message>

  /** `values` holds the last_value of the streams that have one. */
  datatype Joint = Joint(n: Node, r: Registry.Reg, values: Values)

  /** What the requester does, what a stream gets, and what happens elsewhere; `known` holds
      the values of local nodes, which a new stream of such a node begins with. */
  datatype Happening =
    | Own(event: Event, target: Registry.Target, keys: seq<Registry.SubKey>, known: map<Path, Message>)
    | Value(stream: Registry.StreamKey, msg: Message)
    | Elsewhere(other: Registry.Event, known: map<Path, Message>)

  // The registry when streams are opened: a displaced subscription has gone by then.
  function Before(r: Registry.Reg, e: Registry.Event): Registry.Reg {
    if e.SubscribeEvent? then RegistryRuns.Displaced(r, e.key.req, e.displaced) else r
  }

  // The last values after the registry has gone on to t.
  function Kept(values: Values, r: Registry.Reg, e: Registry.Event, t: Registry.Reg, known: map<Path, Message>): Values {
    var m := Before(r, e);
    map s: Registry.StreamKey | s in t.streams && (if s in m.streams then s in values else s.LocalStream? && s.node in known) ::
      if s in m.streams then values[s] else known[s.node]
  }

  function ValueOf(values: Values, r: Registry.Reg, k: Registry.SubKey): Option<Message> {
    if k in r.subs && r.subs[k].stream.Some? && r.subs[k].stream.value in values
    then Some(values[r.subs[k].stream.value]) else None
  }

  // The requester's subscriptions of a list that is attached get the values of their streams.
  function OfferAll(n: Node, req: Path, ks: seq<Registry.SubKey>, pk: Registry.PendingKey, values: Values): Node {
    if ks == [] then n
    else
      var t, k := OfferAll(n, req, ks[..|ks| - 1], pk, values), ks[|ks| - 1];
      var s := Registry.StreamFor(pk, k.path);
      if k.req == req && k.path in t.subs && s in values then Offer(t, k.path, values[s]) else t
  }

  function ListOf(r: Registry.Reg, pk: Registry.PendingKey): seq<Registry.SubKey> {
    if pk in r.pending then r.pending[pk] else []
  }

  function SeenBy(j: Joint, req: Path, h: Happening): Option<Registry.Event> {
    match h
    case Own(e, target, keys, _) => SeenAs(j.n, req, e, target, keys)
    case Value(_, _) => None
    case Elsewhere(e, _) => Some(e)
  }

  function RegistryAfter(j: Joint, req: Path, h: Happening): Registry.Reg {
    var seen := SeenBy(j, req, h);
    if seen.Some? && Registry.Enabled(j.r, seen.value) then Registry.Step(j.r, seen.value) else j.r
  }

  function ValuesAfter(j: Joint, req: Path, h: Happening): Values {
    match h
    case Value(s, msg) => if s in j.r.streams then j.values[s := msg] else j.values
    case _ =>
      var seen := SeenBy(j, req, h);
      if seen.Some? then Kept(j.values, j.r, seen.value, RegistryAfter(j, req, h), h.known) else j.values
  }

  function NodeAfter(j: Joint, req: Path, h: Happening): Node {
    match h
    case Own(e, _, _, _) => if Enabled(j.n, e) then Step(j.n, e) else j.n
    case Value(s, msg) =>
      if s !in j.r.streams then j.n
      else
        var k := Lookup(j.r.streams[s].reqSubs, req);
        if k.Some? && k.value.path in j.n.subs then Offer(j.n, k.value.path, msg) else j.n
    case Elsewhere(ConnectEvent(node), _) =>
      var pk := Registry.RemotePending(node);
      OfferAll(j.n, req, ListOf(j.r, pk), pk, ValuesAfter(j, req, h))
    case Elsewhere(NodeAddedEvent(node), _) =>
      var pk := Registry.LocalPending(node);
      OfferAll(j.n, req, ListOf(j.r, pk), pk, ValuesAfter(j, req, h))
    case Elsewhere(_, _) => j.n
  }

  function After(j: Joint, req: Path, h: Happening): Joint {
    Joint(NodeAfter(j, req, h), RegistryAfter(j, req, h), ValuesAfter(j, req, h))
  }

  /** A request is offered the last value of the stream it leads to, and only streams offer
      values otherwise. */
  ghost predicate CanHappen(j: Joint, req: Path, h: Happening) {
    && (SeenBy(j, req, h).Some? ==> Registry.Enabled(j.r, SeenBy(j, req, h).value) && RegistryRuns.Clean(j.r, SeenBy(j, req, h).value))
    && match h
       case Own(e, _, keys, _) =>
         && Enabled(j.n, e) && !e.OfferEvent? && Collected(j.n, req, keys)
         && (e.SubscribeEvent? ==>
               && e.sid != NO_SID
               && e.last == ValueOf(ValuesAfter(j, req, h), RegistryAfter(j, req, h), Registry.SubKey(req, e.path)))
       case Value(_, _) => true
       case Elsewhere(e, _) => Foreign(e, req)
  }

  // A stream is freed under a subscription that got values on it.
  ghost predicate Bereaves(j: Joint, req: Path, h: Happening) {
    && h.Elsewhere? && h.other.StreamFreedEvent?
    && exists p | p in j.n.subs :: j.n.subs[p].offered != [] && OnStream(j.r, Registry.SubKey(req, p), h.other.stream)
  }

  predicate OnStream(r: Registry.Reg, k: Registry.SubKey, s: Registry.StreamKey) {
    k in r.subs && r.subs[k].stream == Some(s)
  }

  // ---------- what is kept ----------

  // Who got a value is on a stream that has one.
  ghost predicate HeldAt(j: Joint, req: Path, p: Path)
    requires p in j.n.subs
  {
    j.n.subs[p].offered != [] ==> ValueOf(j.values, j.r, Registry.SubKey(req, p)).Some?
  }

  ghost predicate Held(j: Joint, req: Path) {
    forall p | p in j.n.subs :: HeldAt(j, req, p)
  }

  ghost predicate Sound(j: Joint, req: Path) {
    && DeliveryInvariants.Inv(j.n) && j.n.cfg.window > 0
    && RegistryInvariants.Inv(j.r) && RegistryRuns.Tame(j.r)
    && Together(j.n, j.r, req)
  }

  ghost predicate Unharmed(j: Joint) {
    DeliveryFree.Quiet(j.n) && DeliveryFree.Safe(j.n)
  }

  // ---------- values offered ----------

  // Nothing but the request for a path, with a last value, offers values.
  lemma OfferedBefore(n: Node, e: Event, p: Path)
    requires Enabled(n, e) && !e.OfferEvent? && p in Step(n, e).subs && Step(n, e).subs[p].offered != []
    ensures (p in n.subs && n.subs[p].offered != []) || (e.SubscribeEvent? && e.path == p && e.last.Some?)
  {
    hide Step;
    DeliveryRuns.StepOffers(n, e, p);
  }

  // ---------- values kept ----------

  // A displaced subscription is not the one that is still there.
  lemma StaysBefore(r: Registry.Reg, e: Registry.Event, k: Registry.SubKey)
    requires RegistryInvariants.Inv(r) && Registry.Enabled(r, e) && k in r.subs && k in Registry.Step(r, e).subs
    ensures RegistryInvariants.Inv(Before(r, e)) && k in Before(r, e).subs && Before(r, e).subs[k] == r.subs[k]
  {
    hide RegistryInvariants.Inv, Registry.Free, Registry.Subscribe;
    if e.SubscribeEvent? {
      RegistrySubscribe(r, e.key, e.qos, e.displaced, e.target);
      if e.displaced.Some? {
        RegistryInvariants.FreeKeeps(r, Registry.SubKey(e.key.req, e.displaced.value));
      }
    }
  }

  lemma OnLiveStream(r: Registry.Reg, k: Registry.SubKey)
    requires RegistryInvariants.Inv(r) && k in r.subs && r.subs[k].stream.Some?
    ensures r.subs[k].stream.value in r.streams && r.subs[k].pending == None
  {
    assert RegistryInvariants.SubOk(r, k);
  }

  /** As long as the stream of a subscription is not freed, it keeps its stream and the last
      value of it, whatever happens in the registry. */
  lemma ValueKept(values: Values, r: Registry.Reg, e: Registry.Event, known: map<Path, Message>, k: Registry.SubKey)
    requires RegistryInvariants.Inv(r) && RegistryRuns.Tame(r) && Registry.Enabled(r, e) && RegistryRuns.Clean(r, e)
    requires k in Registry.Step(r, e).subs && ValueOf(values, r, k).Some? && e != Registry.StreamFreedEvent(r.subs[k].stream.value)
    ensures var t := Registry.Step(r, e); ValueOf(Kept(values, r, e, t, known), t, k) == ValueOf(values, r, k)
  {
    hide RegistryInvariants.Inv, RegistryRuns.Tame, RegistryRuns.Clean, Registry.Step, Registry.Enabled, Before;
    StaysBefore(r, e, k);
    RegistryRuns.StepKeeps(r, e);
    Waiting.StepMoves(r, e, k);
    OnLiveStream(r, k);
    OnLiveStream(Before(r, e), k);
    OnLiveStream(Registry.Step(r, e), k);
  }

  // The value that a request is offered: the one of its stream before, if there was one.
  lemma OwnValue(j: Joint, req: Path, h: Happening, p: Path)
    requires Sound(j, req) && h.Own? && CanHappen(j, req, h)
    requires p in j.n.subs && p in NodeAfter(j, req, h).subs && ValueOf(j.values, j.r, Registry.SubKey(req, p)).Some?
    ensures ValueOf(ValuesAfter(j, req, h), RegistryAfter(j, req, h), Registry.SubKey(req, p)).Some?
  {
    hide DeliveryInvariants.Inv, RegistryInvariants.Inv, RegistryRuns.Tame, RegistryRuns.Clean, Registry.Step, Step,
         SeenAs, Registry.Enabled, Kept, Collected, Together;
    var seen := SeenBy(j, req, h);
    StepTogether(j.n, j.r, req, h.event, h.target, h.keys);
    if seen.Some? {
      OwnIsNoFreeing(j.n, req, h.event, h.target, h.keys);
      InRegistry(NodeAfter(j, req, h), RegistryAfter(j, req, h), req, p);
      ValueKept(j.values, j.r, seen.value, h.known, Registry.SubKey(req, p));
    }
  }

  lemma OwnIsNoFreeing(n: Node, req: Path, e: Event, target: Registry.Target, keys: seq<Registry.SubKey>)
    ensures var seen := SeenAs(n, req, e, target, keys); seen.Some? ==> !seen.value.StreamFreedEvent?
  {
  }

  lemma InRegistry(n: Node, r: Registry.Reg, req: Path, p: Path)
    requires Together(n, r, req)
    ensures p in n.subs <==> Registry.SubKey(req, p) in r.subs
  {
  }

  lemma OwnHeld(j: Joint, req: Path, h: Happening)
    requires Sound(j, req) && Held(j, req) && h.Own? && CanHappen(j, req, h)
    ensures Held(After(j, req, h), req)
  {
    hide Sound, Step, RegistryAfter, ValuesAfter, ValueOf, SeenBy, Collected, RegistryRuns.Clean, Registry.Enabled;
    var m := After(j, req, h);
    forall p | p in m.n.subs ensures HeldAt(m, req, p) {
      if m.n.subs[p].offered != [] {
        OfferedBefore(j.n, h.event, p);
        if p in j.n.subs && j.n.subs[p].offered != [] {
          assert HeldAt(j, req, p);
          OwnValue(j, req, h, p);
        }
      }
    }
  }

  // So no request finds values and no last value.
  lemma NothingStranded(j: Joint, req: Path, h: Happening)
    requires Sound(j, req) && Held(j, req) && h.Own? && CanHappen(j, req, h)
    ensures !DeliveryFree.Strands(j.n, h.event)
  {
    hide Sound, RegistryAfter, ValuesAfter, ValueOf, SeenBy, Collected, RegistryRuns.Clean, Registry.Enabled, Subscribe;
    if DeliveryFree.Strands(j.n, h.event) {
      var e := h.event;
      assert HeldAt(j, req, e.path);
      SubscribedQos(j.n, e.path, e.sid, e.qos, e.last);
      OwnValue(j, req, h, e.path);
    }
  }

  lemma OwnStep(j: Joint, req: Path, h: Happening)
    requires Sound(j, req) && Held(j, req) && Unharmed(j) && h.Own? && CanHappen(j, req, h)
    ensures Sound(After(j, req, h), req) && Unharmed(After(j, req, h))
    ensures Defined(j.n, h.event)
  {
    hide DeliveryInvariants.Inv, RegistryInvariants.Inv, RegistryRuns.Tame, RegistryRuns.Clean, Registry.Step, Step, Held, Defined,
         SeenAs, Registry.Enabled, ValuesAfter, ValueOf, Collected, Together, DeliveryFree.Quiet, DeliveryFree.Safe, DeliveryFree.Strands;
    NothingStranded(j, req, h);
    DeliveryInvariants.StepKeeps(j.n, h.event);
    DeliveryRuns.StepConfig(j.n, h.event);
    DeliveryFree.StepSafe(j.n, h.event);
    DeliveryFree.DefinedExact(j.n);
    StepTogether(j.n, j.r, req, h.event, h.target, h.keys);
    if SeenBy(j, req, h).Some? {
      RegistryRuns.StepKeeps(j.r, SeenBy(j, req, h).value);
    }
  }

  // ---------- a new value ----------

  lemma OfferStep(n: Node, r: Registry.Reg, req: Path, p: Path, msg: Message)
    requires p in n.subs && DeliveryInvariants.Inv(n) && n.cfg.window > 0
    requires DeliveryFree.Quiet(n) && DeliveryFree.Safe(n)
    ensures var m := Offer(n, p, msg);
            && DeliveryInvariants.Inv(m) && m.cfg == n.cfg && DeliveryFree.Quiet(m) && DeliveryFree.Safe(m)
            && (Together(n, r, req) ==> Together(m, r, req))
  {
    hide DeliveryInvariants.Inv, Offer, DeliveryFree.Quiet, DeliveryFree.Safe, Together;
    DeliveryInvariants.OfferKeeps(n, p, msg);
    DeliveryFree.OfferSafe(n, p, msg);
    DeliveryRuns.OfferOffers(n, p, msg);
    OfferQos(n, p, msg);
    if Together(n, r, req) {
      SameTogether(n, Offer(n, p, msg), r, r, req);
    }
  }

  lemma ValueHeld(j: Joint, req: Path, h: Happening)
    requires Sound(j, req) && Held(j, req) && h.Value?
    ensures Held(After(j, req, h), req)
  {
    hide DeliveryInvariants.Inv, RegistryInvariants.Inv, RegistryRuns.Tame, Together, Offer, Lookup;
    var m, s := After(j, req, h), h.stream;
    if s in j.r.streams {
      var k := Lookup(j.r.streams[s].reqSubs, req);
      if k.Some? {
        Subscriber(j.r, req, s);
      }
      forall p | p in m.n.subs ensures HeldAt(m, req, p) {
        if k.Some? && k.value.path in j.n.subs {
          DeliveryRuns.OfferOffers(j.n, k.value.path, h.msg);
        }
        assert HeldAt(j, req, p);
      }
    } else {
      assert m == j;
    }
  }

  lemma Subscriber(r: Registry.Reg, req: Path, s: Registry.StreamKey)
    requires RegistryInvariants.Inv(r) && s in r.streams && Lookup(r.streams[s].reqSubs, req).Some?
    ensures var k := Lookup(r.streams[s].reqSubs, req).value; k.req == req && OnStream(r, k, s)
  {
    hide Lookup;
    var k := Lookup(r.streams[s].reqSubs, req).value;
    RegistryInvariants.LookupFound(r.streams[s].reqSubs, req);
    assert RegistryInvariants.StreamOk(r, s) && RegistryInvariants.MemberOk(r, s, Pair(req, k));
  }

  lemma ValueStep(j: Joint, req: Path, h: Happening)
    requires Sound(j, req) && Unharmed(j) && h.Value?
    ensures Sound(After(j, req, h), req) && Unharmed(After(j, req, h))
  {
    hide DeliveryInvariants.Inv, RegistryInvariants.Inv, RegistryRuns.Tame, Together, Offer, Lookup, DeliveryFree.Quiet, DeliveryFree.Safe;
    if h.stream in j.r.streams {
      var k := Lookup(j.r.streams[h.stream].reqSubs, req);
      if k.Some? && k.value.path in j.n.subs {
        OfferStep(j.n, j.r, req, k.value.path, h.msg);
      }
    }
  }

  // ---------- elsewhere ----------

  // One of the list is the requester's for the path, and its stream has a value.
  ghost predicate Reached(req: Path, ks: seq<Registry.SubKey>, pk: Registry.PendingKey, values: Values, p: Path) {
    Registry.SubKey(req, p) in ks && Registry.StreamFor(pk, p) in values
  }

  lemma {:induction false} OfferAllStep(n: Node, r: Registry.Reg, req: Path, ks: seq<Registry.SubKey>, pk: Registry.PendingKey, values: Values)
    requires DeliveryInvariants.Inv(n) && n.cfg.window > 0 && DeliveryFree.Quiet(n) && DeliveryFree.Safe(n) && Together(n, r, req)
    ensures var m := OfferAll(n, req, ks, pk, values);
            && DeliveryInvariants.Inv(m) && m.cfg == n.cfg && DeliveryFree.Quiet(m) && DeliveryFree.Safe(m) && Together(m, r, req)
            && m.subs.Keys == n.subs.Keys
            && forall p | p in n.subs && !Reached(req, ks, pk, values, p) :: m.subs[p] == n.subs[p]
  {
    hide DeliveryInvariants.Inv, Offer, DeliveryFree.Quiet, DeliveryFree.Safe, Together, Registry.StreamFor;
    if ks != [] {
      var front, k := ks[..|ks| - 1], ks[|ks| - 1];
      var t := OfferAll(n, req, front, pk, values);
      OfferAllStep(n, r, req, front, pk, values);
      assert ks == front + [k];
      var s := Registry.StreamFor(pk, k.path);
      if k.req == req && k.path in t.subs && s in values {
        OfferStep(t, r, req, k.path, values[s]);
        DeliveryRuns.OfferOffers(t, k.path, values[s]);
        assert k == Registry.SubKey(req, k.path) && Reached(req, ks, pk, values, k.path);
      }
      assert forall p | Reached(req, front, pk, values, p) :: Reached(req, ks, pk, values, p);
    }
  }

  lemma ElsewhereNode(j: Joint, req: Path, h: Happening)
    requires h.Elsewhere?
    ensures var pk := Waiting.Summons(h.other);
            NodeAfter(j, req, h) == if pk.Some? then OfferAll(j.n, req, ListOf(j.r, pk.value), pk.value, ValuesAfter(j, req, h)) else j.n
  {
    hide OfferAll, ListOf, ValuesAfter;
  }

  lemma ElsewhereStep(j: Joint, req: Path, h: Happening)
    requires Sound(j, req) && Unharmed(j) && h.Elsewhere? && CanHappen(j, req, h)
    ensures Sound(After(j, req, h), req) && Unharmed(After(j, req, h))
    ensures NodeAfter(j, req, h).subs.Keys == j.n.subs.Keys
    ensures var pk := Waiting.Summons(h.other);
            forall p | p in j.n.subs && !(pk.Some? && Reached(req, ListOf(j.r, pk.value), pk.value, ValuesAfter(j, req, h), p)) ::
              NodeAfter(j, req, h).subs[p] == j.n.subs[p]
  {
    hide DeliveryInvariants.Inv, RegistryInvariants.Inv, RegistryRuns.Tame, RegistryRuns.Clean, Registry.Step, OfferAll, NodeAfter,
         Registry.Enabled, ValuesAfter, Together, DeliveryFree.Quiet, DeliveryFree.Safe, Foreign, Waiting.Summons, ListOf, Reached;
    var t, pk := RegistryAfter(j, req, h), Waiting.Summons(h.other);
    ElsewhereNode(j, req, h);
    RegistryRuns.StepKeeps(j.r, h.other);
    ForeignTogether(j.n, j.r, req, h.other);
    if pk.Some? {
      OfferAllStep(j.n, t, req, ListOf(j.r, pk.value), pk.value, ValuesAfter(j, req, h));
    }
  }

  // Who is reached has been put on the stream.
  lemma ReachedIsOn(j: Joint, req: Path, h: Happening, p: Path)
    requires Sound(j, req) && h.Elsewhere? && CanHappen(j, req, h) && Waiting.Summons(h.other).Some?
    requires var pk := Waiting.Summons(h.other).value; Reached(req, ListOf(j.r, pk), pk, ValuesAfter(j, req, h), p)
    ensures ValueOf(ValuesAfter(j, req, h), RegistryAfter(j, req, h), Registry.SubKey(req, p)).Some?
  {
    hide DeliveryInvariants.Inv, RegistryRuns.Tame, ValuesAfter, Together, Registry.StreamFor, RegistryRuns.AllVacant,
         RegistryInvariants.Inv, Registry.Arrive, Registry.Announce;
    var pk := Waiting.Summons(h.other).value;
    var r := if h.other.ConnectEvent? then Registry.Announce(j.r, h.other.node) else j.r;
    if h.other.ConnectEvent? {
      RegistryRuns.AnnounceKeeps(j.r, h.other.node);
      RegistryRuns.AnnounceSame(j.r, h.other.node);
      AnnounceVacant(j.r, h.other.node);
    }
    assert RegistryAfter(j, req, h) == Registry.Arrive(r, pk);
    SummonedIsOn(r, pk, Registry.SubKey(req, p));
  }

  lemma SummonedIsOn(r: Registry.Reg, pk: Registry.PendingKey, k: Registry.SubKey)
    requires RegistryInvariants.Inv(r) && RegistryRuns.Tame(r) && RegistryRuns.AllVacant(r, pk)
    requires pk in r.pending && k in r.pending[pk]
    ensures OnStream(Registry.Arrive(r, pk), k, Registry.StreamFor(pk, k.path))
  {
    hide RegistryInvariants.Inv, RegistryRuns.Tame, RegistryRuns.AllVacant, Registry.Arrive, Registry.StreamFor;
    assert k in r.subs by {
      assert RegistryInvariants.ListOk(r, pk) by { Waits(r, pk); }
    }
    RegistryRuns.ArriveKeeps(r, pk);
  }

  lemma Waits(r: Registry.Reg, pk: Registry.PendingKey)
    requires RegistryInvariants.Inv(r) && pk in r.pending
    ensures RegistryInvariants.ListOk(r, pk)
  {
    hide RegistryInvariants.SubsOk, RegistryInvariants.StreamsOk, RegistryInvariants.ListOk;
  }

  lemma AnnounceVacant(r: Registry.Reg, node: Path)
    ensures var pk := Registry.RemotePending(node);
            && (RegistryRuns.Tame(r) ==> RegistryRuns.Tame(Registry.Announce(r, node)))
            && (RegistryRuns.AllVacant(r, pk) ==> RegistryRuns.AllVacant(Registry.Announce(r, node), pk))
  {
    hide Registry.StreamFor;
  }

  lemma ElsewhereHeld(j: Joint, req: Path, h: Happening)
    requires Sound(j, req) && Held(j, req) && Unharmed(j) && h.Elsewhere? && CanHappen(j, req, h) && !Bereaves(j, req, h)
    ensures Held(After(j, req, h), req)
  {
    hide DeliveryInvariants.Inv, RegistryInvariants.Inv, RegistryRuns.Tame, RegistryRuns.Clean, Registry.Step, NodeAfter, RegistryAfter, ValueOf,
         Registry.Enabled, ValuesAfter, Together, DeliveryFree.Quiet, DeliveryFree.Safe, Foreign, Waiting.Summons, ListOf, Reached;
    var m, pk := After(j, req, h), Waiting.Summons(h.other);
    ElsewhereStep(j, req, h);
    forall p | p in m.n.subs ensures HeldAt(m, req, p) {
      if pk.Some? && Reached(req, ListOf(j.r, pk.value), pk.value, ValuesAfter(j, req, h), p) {
        ReachedIsOn(j, req, h, p);
      } else if j.n.subs[p].offered != [] {
        assert HeldAt(j, req, p);
        ElsewhereValue(j, req, h, p);
      }
    }
  }

  lemma ElsewhereValue(j: Joint, req: Path, h: Happening, p: Path)
    requires Sound(j, req) && h.Elsewhere? && CanHappen(j, req, h) && !Bereaves(j, req, h)
    requires p in j.n.subs && j.n.subs[p].offered != [] && ValueOf(j.values, j.r, Registry.SubKey(req, p)).Some?
    ensures ValueOf(ValuesAfter(j, req, h), RegistryAfter(j, req, h), Registry.SubKey(req, p)).Some?
  {
    hide DeliveryInvariants.Inv, RegistryInvariants.Inv, RegistryRuns.Tame, RegistryRuns.Clean, Registry.Step,
         Registry.Enabled, Together, Foreign, Kept;
    var k := Registry.SubKey(req, p);
    ForeignTogether(j.n, j.r, req, h.other);
    InRegistry(j.n, j.r, req, p);
    InRegistry(j.n, Registry.Step(j.r, h.other), req, p);
    ValueKept(j.values, j.r, h.other, h.known, k);
  }

  // ---------- whole runs ----------

  lemma StepHeld(j: Joint, req: Path, h: Happening)
    requires Sound(j, req) && Held(j, req) && Unharmed(j) && CanHappen(j, req, h) && !Bereaves(j, req, h)
    ensures Sound(After(j, req, h), req) && Held(After(j, req, h), req) && Unharmed(After(j, req, h))
    ensures h.Own? ==> Defined(j.n, h.event)
  {
    hide Sound, Held, Unharmed, CanHappen, Bereaves, Defined;
    match h
    case Own(_, _, _, _) => OwnStep(j, req, h); OwnHeld(j, req, h);
    case Value(_, _) => ValueStep(j, req, h); ValueHeld(j, req, h);
    case Elsewhere(_, _) => ElsewhereStep(j, req, h); ElsewhereHeld(j, req, h);
  }

  function Start(cfg: Config, online: set<Path>): Joint {
    Joint(Initial(cfg), Registry.Reg(map[], map[], map[], online, map[]), map[])
  }

  ghost predicate IsJointRun(run: seq<Joint>, hs: seq<Happening>, req: Path) {
    && |run| == |hs| + 1
    && forall i | 0 <= i < |hs| :: CanHappen(run[i], req, hs[i]) && run[i + 1] == After(run[i], req, hs[i])
  }

  /** In every run in which no stream is freed under a subscription that got values on it,
      nothing the requester does reads a list of pending acks that does not exist; who got a
      value is on a stream with a last value. */
  lemma {:induction false} RunHeld(run: seq<Joint>, hs: seq<Happening>, req: Path, cfg: Config, online: set<Path>)
    requires IsJointRun(run, hs, req) && run[0] == Start(cfg, online) && cfg.ring > 0 && cfg.window > 0
    requires forall i | 0 <= i < |hs| :: !Bereaves(run[i], req, hs[i])
    ensures Sound(run[|hs|], req) && Held(run[|hs|], req) && Unharmed(run[|hs|])
    ensures forall i | 0 <= i < |hs| && hs[i].Own? :: Defined(run[i].n, hs[i].event)
  {
    hide Sound, Held, Unharmed, CanHappen, Bereaves, Defined, After;
    if hs == [] {
      StartSound(cfg, online, req);
    } else {
      var k := |hs| - 1;
      var front := run[..k + 1];
      assert IsJointRun(front, hs[..k], req);
      assert forall i | 0 <= i < k :: front[i] == run[i] && hs[..k][i] == hs[i];
      RunHeld(front, hs[..k], req, cfg, online);
      StepHeld(run[k], req, hs[k]);
      assert run[k + 1] == After(run[k], req, hs[k]);
    }
  }

  lemma StartSound(cfg: Config, online: set<Path>, req: Path)
    requires cfg.ring > 0 && cfg.window > 0
    ensures var j := Start(cfg, online); Sound(j, req) && Held(j, req) && Unharmed(j)
  {
  }
}
