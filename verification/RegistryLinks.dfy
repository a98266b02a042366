/** Which responders are there, and what each of them has been asked for: over single events
    and over whole runs of the registry. */
module RegistryLinks {
  import opened Common
  import opened HashMap
  import opened IntrusiveList
  import opened Registry
  import opened RegistryInvariants
  import opened RegistryRuns

  // A stream of a node with a link.
  predicate IsOf(s: StreamKey, node: Path) {
    s.RemoteStream? && s.node == node
  }

  // Nothing is different but the streams of one node and their subscribers' lists.
  ghost predicate SameElsewhere(r: Reg, t: Reg, node: Path) {
    forall s: StreamKey | !IsOf(s, node) ::
      && (s in t.streams <==> s in r.streams) && (s in r.streams ==> t.streams[s] == r.streams[s])
      && (s in t.told <==> s in r.told) && (s in r.told ==> t.told[s] == r.told[s])
  }

  // ---------- which links are up ----------

  lemma {:induction false} ScatterLinks(r: Reg, m: Subs, s: StreamKey)
    ensures Scatter(r, m, s).online == r.online
  {
    hide WaitsBehind;
    if m != [] {
      ScatterLinks(r, m[..|m| - 1], s);
    }
  }

  lemma {:induction false} DismissLinks(r: Reg, ks: seq<SubKey>)
    ensures var t := Dismiss(r, ks); t.online == r.online && t.streams == r.streams && t.told == r.told
  {
    if ks != [] {
      DismissLinks(r, ks[..|ks| - 1]);
    }
  }

  lemma AttachLinks(r: Reg, k: SubKey, s: StreamKey)
    requires k in r.subs
    ensures var t := Attach(r, k, s); t.online == r.online && r.streams.Keys <= t.streams.Keys
    ensures s.RemoteStream? ==> SameElsewhere(r, Attach(r, k, s), s.node)
  {
    hide Attach, Attached;
    AttachEffect(r, k, s);
    AttachedLinks(r, Attach(r, k, s), k, s);
  }

  lemma AttachedLinks(r: Reg, t: Reg, k: SubKey, s: StreamKey)
    requires k in r.subs && Attached(r, t, k, s)
    ensures t.online == r.online && r.streams.Keys <= t.streams.Keys
    ensures s.RemoteStream? ==> SameElsewhere(r, t, s.node)
  {
    hide MaxQos, Updated;
  }

  lemma SameTwice(r: Reg, t: Reg, u: Reg, node: Path)
    requires SameElsewhere(r, t, node) && SameElsewhere(t, u, node)
    ensures SameElsewhere(r, u, node)
  {
  }

  lemma {:induction false} AttachAllLinks(r: Reg, ks: seq<SubKey>, pk: PendingKey)
    ensures var t := AttachAll(r, ks, pk); t.online == r.online && r.streams.Keys <= t.streams.Keys
    ensures pk.RemotePending? ==> SameElsewhere(r, AttachAll(r, ks, pk), pk.node)
  {
    if ks != [] {
      hide Attach, SameElsewhere;
      var t, k := AttachAll(r, ks[..|ks| - 1], pk), ks[|ks| - 1];
      AttachAllLinks(r, ks[..|ks| - 1], pk);
      if k in t.subs {
        AttachLinks(t, k, StreamFor(pk, k.path));
        if pk.RemotePending? {
          SameTwice(r, t, AttachAll(r, ks, pk), pk.node);
        }
      }
    }
  }

  lemma ArriveLinks(r: Reg, pk: PendingKey)
    ensures var t := Arrive(r, pk); t.online == r.online && r.streams.Keys <= t.streams.Keys
    ensures pk.RemotePending? ==> SameElsewhere(r, Arrive(r, pk), pk.node)
  {
    if pk in r.pending {
      hide AttachAll, Dismiss;
      var t := r.(pending := r.pending - {pk});
      AttachAllLinks(t, r.pending[pk], pk);
      DismissLinks(AttachAll(t, r.pending[pk], pk), r.pending[pk]);
    }
  }

  lemma FreeLinks(r: Reg, k: SubKey)
    ensures Free(r, k).online == r.online
  {
    hide RemoveKey, Removed;
  }

  lemma {:induction false} FreeAllLinks(r: Reg, ks: seq<SubKey>)
    ensures FreeAll(r, ks).online == r.online
  {
    hide Free;
    if ks != [] {
      FreeAllLinks(r, ks[..|ks| - 1]);
      FreeLinks(FreeAll(r, ks[..|ks| - 1]), ks[|ks| - 1]);
    }
  }

  lemma SubscribeLinks(r: Reg, k: SubKey, qos: Qos, displaced: Option<Path>, target: Target)
    ensures Subscribe(r, k, qos, displaced, target).online == r.online
  {
    hide Free, MaxQos, Updated, WaitsIn;
    if displaced.Some? {
      FreeLinks(r, SubKey(k.req, displaced.value));
    }
  }

  /** Only a link that comes up or goes down changes which responders are there, and it changes
      that of its own node. */
  lemma StepLinks(r: Reg, e: Event)
    requires Enabled(r, e)
    ensures Step(r, e).online == match e
                                 case ConnectEvent(node) => r.online + {node}
                                 case ResponderGoneEvent(node) => r.online - {node}
                                 case _ => r.online
  {
    hide Subscribe, Free, FreeAll, Arrive, Scatter;
    match e
    case SubscribeEvent(k, qos, displaced, target) => SubscribeLinks(r, k, qos, displaced, target);
    case UnsubscribeEvent(k) => FreeLinks(r, k);
    case RequesterGoneEvent(_, keys) => FreeAllLinks(r, keys);
    case ConnectEvent(node) => ArriveLinks(Announce(r, node), RemotePending(node));
    case NodeAddedEvent(node) => ArriveLinks(r, LocalPending(node));
    case StreamFreedEvent(s) =>
      if s in r.streams {
        ScatterLinks(r, r.streams[s].reqSubs, s);
      }
    case ResponderGoneEvent(_) =>
  }

  // ---------- what responders are asked ----------

  lemma AnnounceTells(r: Reg, node: Path)
    ensures var t := Announce(r, node);
            && (forall s | s in r.streams && IsOf(s, node) :: s in t.told && t.told[s] == r.streams[s].respQos)
            && SameElsewhere(r, t, node)
  {
  }

  /** A link that comes up is asked for every stream of its node, those of subscriptions that
      waited for it included, at the QoS the stream has then; of other nodes nothing is asked. */
  lemma ConnectTells(r: Reg, node: Path)
    requires Inv(r) && Tame(r) && AllVacant(r, RemotePending(node))
    ensures var t := Connect(r, node);
            && t.online == r.online + {node} && r.streams.Keys <= t.streams.Keys
            && (forall s | s in t.streams && IsOf(s, node) :: s in t.told && t.told[s] == t.streams[s].respQos)
            && SameElsewhere(r, t, node)
  {
    hide SubsOk, ListsOk, StreamOk, ToldOk, Tame, AllVacant, Arrive, Announce;
    var t := Connect(r, node);
    ConnectKeeps(r, node);
    AnnounceTells(r, node);
    AnnounceSame(r, node);
    AnnounceLinks(r, node);
    ArriveLinks(Announce(r, node), RemotePending(node));
    forall s | s in t.streams && IsOf(s, node) ensures s in t.told && t.told[s] == t.streams[s].respQos {
      assert Agreed(t, s);
    }
  }

  lemma AnnounceLinks(r: Reg, node: Path)
    ensures Announce(r, node).online == r.online + {node}
  {
  }

  /** When a link goes down nothing counts as asked of its node any more, and that is all that
      changes. */
  lemma ResponderGoneTells(r: Reg, node: Path)
    ensures var t := ResponderGone(r, node);
            && t.online == r.online - {node} && (forall s | s in t.told :: !IsOf(s, node))
            && SameElsewhere(r, t, node)
            && t.subs == r.subs && t.streams == r.streams && t.pending == r.pending
  {
  }

  // ---------- whole runs ----------

  // Whether the link of a node is up after the events, told by the last one about it.
  function LinkUp(es: seq<Event>, node: Path, before: bool): bool {
    if es == [] then before
    else
      match es[|es| - 1]
      case ConnectEvent(n) => if n == node then true else LinkUp(es[..|es| - 1], node, before)
      case ResponderGoneEvent(n) => if n == node then false else LinkUp(es[..|es| - 1], node, before)
      case _ => LinkUp(es[..|es| - 1], node, before)
  }

  // The streams whose responders are there, each with the QoS it has.
  function DueRequests(r: Reg): map<StreamKey, Qos> {
    map s | s in r.streams && s.RemoteStream? && s.node in r.online :: r.streams[s].respQos
  }

  lemma ToldIsDue(r: Reg)
    requires Inv(r)
    ensures r.told == DueRequests(r)
  {
    hide SubsOk, ListsOk, StreamOk;
    assert forall s | s in r.streams && s.RemoteStream? && s.node in r.online :: Agreed(r, s);
  }

  /** At every point of a clean run a responder is there exactly if the last event about its
      link was that it came up; and what responders have been asked for, on the links they have
      then, is exactly the live streams of those that are there, each at its QoS. */
  lemma {:induction false} RunTold(run: seq<Reg>, es: seq<Event>, online: set<Path>, i: nat)
    requires IsRun(run, es) && run[0] == Reg(map[], map[], map[], online, map[]) && i < |run|
    ensures forall node :: node in run[i].online <==> LinkUp(es[..i], node, node in online)
    ensures run[i].told == DueRequests(run[i])
    decreases i
  {
    hide Inv, Tame, Step, Clean, Enabled, DueRequests;
    RunKeeps(run, es, online, i);
    ToldIsDue(run[i]);
    if i > 0 {
      RunTold(run, es, online, i - 1);
      StepLinks(run[i - 1], es[i - 1]);
      assert es[..i][..i - 1] == es[..i - 1];
    }
  }
}
