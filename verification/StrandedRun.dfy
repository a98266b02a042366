/** The run in which a value is stranded, with the streams and their last values: the stream is
    freed under a subscription that waits for its requester. */
module StrandedRun {
  import opened Common
  import opened HashMap
  import opened Delivery
  import opened DeliveryExamples
  import opened Requester
  import opened LastValues
  import opened Registry
  import DeliveryInvariants
  import DeliveryFree
  import RegistryRuns

  const L: StreamKey := LocalStream(P)

  function Key(req: Path): SubKey {
    SubKey(req, P)
  }

  function OnL(req: Path, qos: Registry.Qos): Reg {
    Reg(map[Key(req) := Registry.Sub(qos, Some(L), None)], map[L := Stream([Pair(req, Key(req))], 0)], map[], {}, map[])
  }

  function Waits(req: Path, qos: Registry.Qos): Reg {
    Reg(map[Key(req) := Registry.Sub(qos, None, Some(LocalPending(P)))], map[], map[LocalPending(P) := [Key(req)]], {}, map[])
  }

  function JointRun(cfg: Config, msg: Message, req: Path): (run: seq<Joint>)
    ensures |run| == 8
  {
    var ns, none := StrandingRun(cfg, msg), Reg(map[], map[], map[], {}, map[]);
    [Joint(ns[0], none, map[]), Joint(ns[1], none, map[]), Joint(ns[2], OnL(req, 2), map[]), Joint(ns[3], OnL(req, 2), map[]),
     Joint(ns[4], OnL(req, 2), map[L := msg]), Joint(ns[4], Waits(req, 2), map[]), Joint(ns[5], Waits(req, 2), map[]),
     Joint(ns[6], Waits(req, 0), map[])]
  }

  function Happenings(msg: Message): (hs: seq<Happening>)
    ensures |hs| == 7
  {
    var es := Stranding(msg);
    [Own(es[0], Missing, [], map[]), Own(es[1], Local(P), [], map[]), Own(es[2], Missing, [], map[]), Value(L, msg),
     Elsewhere(StreamFreedEvent(L), map[]), Own(es[4], Missing, [], map[]), Own(es[5], Missing, [], map[])]
  }

  lemma Opens(req: Path)
    ensures var r := Reg(map[], map[], map[], {}, map[]);
            var e := Registry.SubscribeEvent(Key(req), 2, None, Local(P));
            Registry.Step(r, e) == OnL(req, 2) && RegistryRuns.Clean(r, e)
  {
    var r := Reg(map[], map[], map[], {}, map[]);
    var t := r.(subs := map[Key(req) := Registry.Sub(2, None, None)]);
    assert Registry.Step(r, Registry.SubscribeEvent(Key(req), 2, None, Local(P))) == Attach(t, Key(req), L);
    assert Updated([], req, Key(req)) == [Pair(req, Key(req))];
    assert Linked(Opened(t, L), Key(req), L) == OnL(req, 2);
  }

  lemma Freed(req: Path)
    ensures Registry.Step(OnL(req, 2), StreamFreedEvent(L)) == Waits(req, 2)
  {
    var r, m := OnL(req, 2), [Pair(req, Key(req))];
    assert m[..0] == [];
    assert Scatter(r, [], L) == r;
    var t := r.(subs := r.subs[Key(req) := r.subs[Key(req)].(stream := None)]);
    assert Scatter(r, m, L) == Registry.Waiting(t, Key(req), LocalPending(P));
    assert map[L := Stream(m, 0)] - {L} == map[] && [] + [Key(req)] == [Key(req)];
    assert Registry.Waiting(t, Key(req), LocalPending(P)).pending == map[LocalPending(P) := [Key(req)]];
    assert Registry.Waiting(t, Key(req), LocalPending(P)).subs == Waits(req, 2).subs;
    assert Close(Registry.Waiting(t, Key(req), LocalPending(P)), L) == Waits(req, 2);
  }

  lemma Requalified(req: Path)
    ensures var e := Registry.SubscribeEvent(Key(req), 0, None, Missing);
            Registry.Step(Waits(req, 2), e) == Waits(req, 0) && RegistryRuns.Clean(Waits(req, 2), e)
  {
  }

  lemma Gone(req: Path)
    ensures var e := RequesterGoneEvent(req, []);
            Registry.Step(OnL(req, 2), e) == OnL(req, 2) && RegistryRuns.Clean(OnL(req, 2), e)
  {
  }

  // The steps of the node, as in Delivery.
  lemma NodeSteps(cfg: Config, msg: Message)
    requires cfg.ring > 0
    ensures var ns, es := StrandingRun(cfg, msg), Stranding(msg);
            forall i | 0 <= i < 6 :: Delivery.Enabled(ns[i], es[i]) && ns[i + 1] == Delivery.Step(ns[i], es[i])
  {
    hide Delivery.Step;
    StrandingStarts(cfg, msg);
    StrandingGoesOn(cfg, msg);
  }

  ghost predicate Follows(cfg: Config, msg: Message, req: Path, i: nat)
    requires i < 7
  {
    var run, hs := JointRun(cfg, msg, req), Happenings(msg);
    CanHappen(run[i], req, hs[i]) && run[i + 1] == After(run[i], req, hs[i])
  }

  lemma Connects(cfg: Config, msg: Message, req: Path)
    requires cfg.ring > 0
    ensures Follows(cfg, msg, req, 0) && Follows(cfg, msg, req, 5)
  {
    hide Delivery.Step;
    NodeSteps(cfg, msg);
    hide StrandingRun;
    assert Collected(StrandingRun(cfg, msg)[0], req, []) && Collected(StrandingRun(cfg, msg)[4], req, []) by { NoneCollected(cfg, msg, req); }
  }

  lemma NoneCollected(cfg: Config, msg: Message, req: Path)
    ensures forall i | 0 <= i < 6 :: Collected(StrandingRun(cfg, msg)[i], req, [])
  {
  }

  lemma Subscribes(cfg: Config, msg: Message, req: Path)
    requires cfg.ring > 0
    ensures Follows(cfg, msg, req, 1)
  {
    hide Registry.Step, RegistryRuns.Clean, Delivery.Step;
    NodeSteps(cfg, msg);
    NoneCollected(cfg, msg, req);
    Opens(req);
  }

  lemma Leaves(cfg: Config, msg: Message, req: Path)
    requires cfg.ring > 0
    ensures Follows(cfg, msg, req, 2)
  {
    hide Registry.Step, RegistryRuns.Clean, Delivery.Step;
    NodeSteps(cfg, msg);
    NoneCollected(cfg, msg, req);
    Gone(req);
  }

  lemma Gets(cfg: Config, msg: Message, req: Path)
    requires cfg.ring > 0
    ensures Follows(cfg, msg, req, 3)
  {
    hide Offer;
    NodeSteps(cfg, msg);
    assert Lookup([Pair(req, Key(req))], req) == Some(Key(req));
  }

  lemma Loses(cfg: Config, msg: Message, req: Path)
    requires cfg.ring > 0
    ensures Follows(cfg, msg, req, 4)
  {
    hide Registry.Step;
    Freed(req);
  }

  lemma TakesUp(cfg: Config, msg: Message, req: Path)
    requires cfg.ring > 0
    ensures Follows(cfg, msg, req, 6)
  {
    hide Registry.Step, RegistryRuns.Clean, Delivery.Step;
    NodeSteps(cfg, msg);
    NoneCollected(cfg, msg, req);
    Requalified(req);
  }

  lemma AllFollow(cfg: Config, msg: Message, req: Path)
    requires cfg.ring > 0
    ensures forall i | 0 <= i < 7 :: Follows(cfg, msg, req, i)
  {
    hide Follows;
    Connects(cfg, msg, req);
    Subscribes(cfg, msg, req);
    Leaves(cfg, msg, req);
    Gets(cfg, msg, req);
    Loses(cfg, msg, req);
    TakesUp(cfg, msg, req);
  }

  lemma FollowsIs(cfg: Config, msg: Message, req: Path, i: nat)
    requires i < 7 && Follows(cfg, msg, req, i)
    ensures var run, hs := JointRun(cfg, msg, req), Happenings(msg);
            CanHappen(run[i], req, hs[i]) && run[i + 1] == After(run[i], req, hs[i])
  {
    hide CanHappen, After;
  }

  lemma RunsJointly(cfg: Config, msg: Message, req: Path)
    requires cfg.ring > 0
    ensures IsJointRun(JointRun(cfg, msg, req), Happenings(msg), req)
  {
    hide CanHappen, After, JointRun, Happenings, Follows;
    AllFollow(cfg, msg, req);
    var run, hs := JointRun(cfg, msg, req), Happenings(msg);
    forall i | 0 <= i < |hs| ensures CanHappen(run[i], req, hs[i]) && run[i + 1] == After(run[i], req, hs[i]) {
      FollowsIs(cfg, msg, req, i);
    }
    assert IsJointRun(run, hs, req);
  }

  lemma Ends(cfg: Config, msg: Message, req: Path)
    ensures var run, hs := JointRun(cfg, msg, req), Happenings(msg);
            && run[0] == Start(cfg, {}) && run[7].n == Stranded(cfg, msg)
            && Bereaves(run[4], req, hs[4]) && forall i | 0 <= i < 7 :: hs[i].Elsewhere? ==> i == 4
  {
    var run := JointRun(cfg, msg, req);
    assert run[4].n.subs[P].offered == [msg] && OnStream(run[4].r, SubKey(req, P), L);
  }

  /** The value that nothing sends is left by a run in which the only thing that happens
      elsewhere is that one stream is freed, under the subscription that has got a value on it;
      the requester then unsubscribes and reads a list of pending acks that does not exist. */
  lemma StrandingByFreeing(cfg: Config, msg: Message, req: Path)
    requires cfg.ring > 0 && cfg.window > 0
    ensures var run, hs := JointRun(cfg, msg, req), Happenings(msg);
            && IsJointRun(run, hs, req) && run[0] == Start(cfg, {})
            && Bereaves(run[4], req, hs[4]) && (forall i | 0 <= i < 7 :: hs[i].Elsewhere? ==> i == 4)
            && run[7].n == Stranded(cfg, msg)
            && Delivery.Enabled(run[7].n, Delivery.UnsubscribeEvent(1)) && !Defined(run[7].n, Delivery.UnsubscribeEvent(1))
  {
    hide IsJointRun, JointRun, Happenings, Bereaves, Start, Stranded, StrandingRun, Stranding;
    RunsJointly(cfg, msg, req);
    Ends(cfg, msg, req);
    StrandedValue(cfg, msg);
  }
}
