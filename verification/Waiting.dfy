/** Subscriptions that wait for their node (broker/src/msg/msg_subscribe.c, broker/src/data/data.c):
    which of them are served when the node appears, and where every subscription is in a run. */
module Waiting {
  import opened Common
  import opened IntrusiveList
  import opened Registry
  import opened RegistryInvariants
  import opened RegistryRuns
  import opened NodeTree

  // ---------- the trees of a broker ----------

  ghost predicate NoLinks(t: Tree) {
    t.Regular? && forall name | name in t.children :: NoLinks(t.children[name])
  }

  ghost predicate OnlyLinks(t: Tree) {
    t.Regular? && forall name | name in t.children :: t.children[name].Downstream?
  }

  // Links are in the two directories for links and nowhere else.
  ghost predicate IsBrokerTree(t: Tree) {
    && t.Regular? && "" !in t.children
    && forall name | name in t.children :: if IsKind(name) then OnlyLinks(t.children[name]) else NoLinks(t.children[name])
  }

  lemma {:induction false} NoLinkFound(t: Tree, at: Path, path: Path)
    requires NoLinks(t) && Absolute(path)
    ensures !NodeGet(t, at, path).Remote?
    decreases |path|
  {
    if path != "/" {
      var name, rest := SplitPath(path);
      if rest != "" {
        GetBelow(t, at, name, rest);
        if name in t.children {
          NoLinkFound(t.children[name], ChildPath(at, name), rest);
        }
      } else {
        assert path == "/" + name;
        GetLast(t, at, name);
      }
    }
  }

  // ---------- paths below links ----------

  // A name and something behind it.
  predicate HasRest(path: Path) {
    path != "" && path[0] != '/' && '/' in path
  }

  predicate BelowLink(path: Path) {
    || (DOWNSTREAM <= path && HasRest(path[|DOWNSTREAM|..]))
    || (UPSTREAM <= path && HasRest(path[|UPSTREAM|..]))
  }

  // With or without a slash in front.
  predicate LinkPath(path: Path) {
    IsRemotePath(Norm(path))
  }

  lemma KindOf(path: Path) returns (kind: string, q: Path)
    requires IsRemotePath(path)
    ensures IsKind(kind) && kind != "" && '/' !in kind && path == "/" + kind + ("/" + q)
    ensures |kind| + 2 == if DOWNSTREAM <= path then |DOWNSTREAM| else |UPSTREAM|
    ensures BelowLink(path) <==> HasRest(q)
  {
    if DOWNSTREAM <= path {
      kind, q := "downstream", path[|DOWNSTREAM|..];
      assert path == DOWNSTREAM + q && DOWNSTREAM == "/" + kind + "/";
    } else {
      kind, q := "upstream", path[|UPSTREAM|..];
      assert path == UPSTREAM + q && UPSTREAM == "/" + kind + "/";
    }
    assert !(DOWNSTREAM <= path && UPSTREAM <= path) by {
      assert DOWNSTREAM[1] == 'd' && UPSTREAM[1] == 'u';
    }
  }

  lemma KindPath(kind: string, rest: Path)
    requires IsKind(kind) && Absolute(rest)
    ensures IsRemotePath("/" + kind + rest)
  {
    var path := "/" + kind + rest;
    if kind == "downstream" {
      assert path[..|DOWNSTREAM|] == DOWNSTREAM;
    } else {
      assert path[..|UPSTREAM|] == UPSTREAM;
    }
  }

  // In a directory of links.
  lemma DirectoryTarget(t: Tree, at: Path, q: Path)
    requires OnlyLinks(t) && at != ""
    ensures var r := NodeGet(t, at, "/" + q);
            if q == "" then r == Local(at)
            else var end := IndexOfSlash(q, 0);
                 if end < |q| then r == Missing || r == Remote(ChildPath(at, q[..end]), q[end..])
                 else r == Missing || r == Remote(ChildPath(at, q), "/" + q)
  {
    var path := "/" + q;
    assert path[1..] == q;
    var end := IndexOfSlash(q, 0);
    if q != "" && end < |q| {
      assert q == q[..end] + q[end..] && path == "/" + q[..end] + q[end..];
      GetBelow(t, at, q[..end], q[end..]);
    }
  }

  /** Where a path to or below a link leads while its node is there. */
  lemma BelowKind(t: Tree, path: Path)
    requires IsBrokerTree(t) && IsRemotePath(path) && !NodeGet(t, "", path).Missing?
    ensures var r := NodeGet(t, "", path);
            && (r.Local? ==> !BelowLink(path) && path == r.node + "/")
            && (BelowLink(path) ==> r == Remote(path[..BaseLen(path)], path[BaseLen(path)..]) && BaseLen(path) > 0)
            && (r.Remote? && !BelowLink(path) ==> RemoteList(path) != Some(RemotePending(r.node)))
  {
    hide NodeGet, IndexOfSlash;
    var kind, q := KindOf(path);
    var at := ChildPath("", kind);
    GetBelow(t, "", kind, "/" + q);
    DirectoryTarget(t.children[kind], at, q);
    DirectoryPath(kind, q);
    if q != "" {
      BelowKindNamed(kind, q);
    }
  }

  lemma DirectoryPath(kind: string, q: Path)
    ensures "/" + kind + ("/" + q) == ChildPath("", kind) + "/" + q
    ensures ChildPath("", kind) + "/" + "" == ChildPath("", kind) + "/"
  {
  }

  lemma BelowKindNamed(kind: string, q: Path)
    requires IsKind(kind) && q != ""
    ensures var path, end, at := "/" + kind + ("/" + q), IndexOfSlash(q, 0), ChildPath("", kind);
            && (HasRest(q) <==> 0 < end < |q|)
            && (HasRest(q) ==> BaseLen(path) == |at| + 1 + end && path[..BaseLen(path)] == ChildPath(at, q[..end]) && path[BaseLen(path)..] == q[end..])
            && (!HasRest(q) && end < |q| ==> RemoteList(path) != Some(RemotePending(ChildPath(at, q[..end]))))
            && (!HasRest(q) && end >= |q| ==> RemoteList(path) == None)
  {
    hide BaseLen, IsRemotePath;
    var path, end, at := "/" + kind + ("/" + q), IndexOfSlash(q, 0), ChildPath("", kind);
    if 0 < end < |q| {
      BaseLenExact(kind, q[..end], q[end..]);
      NamedJoin(kind, q, end);
    } else {
      BaseBehindName(kind, q);
    }
  }

  lemma NamedJoin(kind: string, q: Path, end: nat)
    requires end <= |q|
    ensures "/" + kind + "/" + q[..end] + q[end..] == "/" + kind + ("/" + q)
    ensures "/" + kind + "/" + q[..end] == ChildPath(ChildPath("", kind), q[..end])
  {
    assert q == q[..end] + q[end..];
  }

  // The search starts behind the first character of the name.
  lemma BaseBehindName(kind: string, q: Path)
    requires IsKind(kind)
    ensures var path := "/" + kind + ("/" + q); var base := BaseLen(path);
            base > 0 ==> |kind| + 2 < base < |path| && path[base] == '/' && q[base - |kind| - 2] == '/'
  {
    var path := "/" + kind + ("/" + q);
    assert path[1] == kind[0];
    assert forall i | 0 <= i < |q| :: path[|kind| + 2 + i] == q[i];
  }

  // ---------- which waiting paths are served ----------

  // The key of the list that is taken out when a node appears.
  function Announces(target: Target): PendingKey
    requires !target.Missing?
  {
    if target.Local? then LocalPending(target.node) else RemotePending(target.node)
  }

  /** A slash in front; below a link a name and a slash behind that, elsewhere no slash at
      the end. */
  predicate Awaitable(path: Path) {
    Absolute(path) && if IsRemotePath(path) then BelowLink(path) else path == "/" || path[|path| - 1] != '/'
  }

  // The path of a local node is the path that leads to it, exactly if that has no slash behind.
  lemma {:induction false} LocalExact(t: Tree, at: Path, path: Path)
    requires Absolute(path) && NodeGet(t, at, path).Local?
    ensures NodeGet(t, at, path).node == at + path <==> (path == "/" && at == "") || path[|path| - 1] != '/'
    decreases |path|
  {
    hide NodeGet, IndexOfSlash;
    if path == "/" {
      RootTarget(t, at);
      assert |at + path| == |at| + 1;
    } else {
      var name, rest := SplitPath(path);
      PathJoin(at, name, rest);
      if rest != "" {
        GetBelow(t, at, name, rest);
        assert rest[|rest| - 1] == path[|path| - 1] && ChildPath(at, name) != "";
        LocalExact(t.children[name], ChildPath(at, name), rest);
      } else {
        assert path == "/" + name && path[|path| - 1] == name[|name| - 1];
        GetLast(t, at, name);
      }
    }
  }

  lemma RootTarget(t: Tree, at: Path)
    ensures NodeGet(t, at, "/") == Local(OwnPath(at))
  {
  }

  // Elsewhere no path leads to a link.
  lemma RemoteIsBelowKind(t: Tree, path: Path)
    requires IsBrokerTree(t) && Absolute(path) && NodeGet(t, "", path).Remote?
    ensures IsRemotePath(path)
  {
    hide NodeGet, IndexOfSlash;
    assert path != "/" by { RootTarget(t, ""); }
    var name, rest := SplitPath(path);
    if rest != "" {
      GetBelow(t, "", name, rest);
      if IsKind(name) {
        KindPath(name, rest);
      } else {
        NoLinkFound(t.children[name], ChildPath("", name), rest);
      }
    } else {
      assert path == "/" + name;
      GetLast(t, "", name);
    }
  }

  lemma RelativeLocal(t: Tree, path: Path)
    requires !Absolute(path) && NodeGet(t, "", path).Local?
    ensures Absolute(NodeGet(t, "", path).node)
  {
    if path == "" {
      assert NodeGet(t, "", path) == Local("/");
    } else {
      hide NodeGet;
      LocalNamed(t, path);
    }
  }

  /** Which paths lead to links, and which do not. */
  lemma TargetKind(t: Tree, path: Path)
    requires IsBrokerTree(t)
    ensures NodeGet(t, "", path).Remote? ==> LinkPath(path)
    ensures NodeGet(t, "", path).Local? ==> !BelowLink(path)
  {
    hide NodeGet;
    NormTarget(t, "", path);
    if NodeGet(t, "", path).Remote? {
      RemoteIsBelowKind(t, Norm(path));
    } else if NodeGet(t, "", path).Local? && IsRemotePath(path) {
      BelowKind(t, path);
    }
  }

  /** Exactly which paths wait under the key that their node announces, for every tree in
      which the node is there; the stream they are given then is the one the tree leads to. */
  lemma WaitingExact(t: Tree, path: Path)
    requires IsBrokerTree(t) && !NodeGet(t, "", path).Missing?
    ensures var target := NodeGet(t, "", path);
            && (WaitsIn(path) == Some(Announces(target)) <==> Awaitable(path))
            && (Awaitable(path) ==> StreamFor(Announces(target), path) == TargetKey(target))
  {
    hide NodeGet, BaseLen, BelowLink, IsBrokerTree;
    if IsRemotePath(path) {
      BelowKind(t, path);
    } else {
      hide Absolute;
      ElsewhereExact(t, path);
    }
  }

  lemma ElsewhereExact(t: Tree, path: Path)
    requires IsBrokerTree(t) && !NodeGet(t, "", path).Missing? && !IsRemotePath(path)
    ensures var target := NodeGet(t, "", path);
            && (Announces(target) == LocalPending(path) <==> Awaitable(path))
            && (Awaitable(path) ==> target == Local(path))
  {
    hide NodeGet, BaseLen, BelowLink, IsBrokerTree, IsRemotePath;
    if !Absolute(path) {
      if NodeGet(t, "", path).Local? {
        RelativeLocal(t, path);
      }
    } else {
      if NodeGet(t, "", path).Remote? {
        RemoteIsBelowKind(t, path);
      } else {
        LocalExact(t, "", path);
        assert "" + path == path;
      }
    }
  }

  // ---------- nodes made by publishing ----------

  /** broker_create_dynamic_data_node: the tree afterwards, and the paths whose lists were
      taken out, each that of the node above a new one. */
  function Publish(t: Tree, at: Path, path: Path): (r: (Tree, seq<Path>))
    ensures r.0.Downstream? <==> t.Downstream?
    decreases |path|
  {
    var p := if Absolute(path) then path[1..] else path;
    if p == "" || t.Downstream? then (t, [])
    else
      var slash := IndexOfSlash(p, 0);
      var end := if slash < |p| then slash else |p|;
      var name, rest := p[..end], p[end..];
      var known := name in t.children;
      var (child, told) := Publish(if known then t.children[name] else Regular(map[]), ChildPath(at, name), rest);
      (Regular(t.children[name := child]), if known then told else [OwnPath(at)] + told)
  }

  lemma PublishBelow(t: Tree, at: Path, name: string, rest: Path)
    requires '/' !in name && t.Regular? && (Absolute(rest) || (rest == "" && name != ""))
    ensures var known := name in t.children;
            var (child, told) := Publish(if known then t.children[name] else Regular(map[]), ChildPath(at, name), rest);
            Publish(t, at, "/" + name + rest) == (Regular(t.children[name := child]), if known then told else [OwnPath(at)] + told)
  {
    var p := ("/" + name + rest)[1..];
    assert p == name + rest;
    if rest != "" {
      SlashAt(p, 0, |name|);
    } else {
      NoSlash(p);
    }
    assert p[..|name|] == name && p[|name|..] == rest;
    hide IndexOfSlash;
  }

  lemma PublishNothing(t: Tree, at: Path, path: Path)
    requires path == "" || path == "/"
    ensures Publish(t, at, path) == (t, [])
  {
  }

  /** A node that publishing makes is there afterwards, but the list that waits for its path
      is not taken out: only those of nodes above it are. */
  lemma {:induction false} PublishedWaitsOn(t: Tree, at: Path, path: Path)
    requires NoLinks(t) && Absolute(path) && NodeGet(t, at, path).Missing?
    requires at != "" || (|path| > 1 && path[1] != '/')
    ensures var (after, told) := Publish(t, at, path);
            var r := NodeGet(after, at, path);
            && r.Local? && (r.node == at + path || r.node + "/" == at + path)
            && told != [] && forall x | x in told :: |x| < |r.node|
    decreases |path|
  {
    hide NodeGet, IndexOfSlash, Publish;
    assert path != "/" by { RootTarget(t, at); }
    var name, rest := SplitPath(path);
    var here := ChildPath(at, name);
    PathJoin(at, name, rest);
    PublishBelow(t, at, name, rest);
    var child := if name in t.children then t.children[name] else Regular(map[]);
    var root, told := Publish(t, at, path).0, Publish(child, here, rest).1;
    assert path == "/" + name + rest && |here| == |at| + 1 + |name|;
    assert |OwnPath(at)| < |here| by {
      if at == "" {
        FirstName(path, name, rest);
      }
    }
    if rest == "" {
      assert path == "/" + name;
      GetLast(t, at, name);
      PublishNothing(child, here, rest);
      GetLast(root, at, name);
      assert NodeGet(root, at, path) == Local(here);
    } else {
      GetBelow(t, at, name, rest);
      GetBelow(root, at, name, rest);
      if rest == "/" {
        RootTarget(child, here);
        RootTarget(root.children[name], here);
        PublishNothing(child, here, rest);
        assert NodeGet(root, at, path) == Local(here);
      } else {
        if name !in t.children {
          NothingBelow(here, rest);
        }
        PublishedWaitsOn(child, here, rest);
      }
    }
  }

  lemma FirstName(path: Path, name: string, rest: Path)
    requires path == "/" + name + rest && |path| > 1 && path[1] != '/' && (rest == "" || Absolute(rest))
    ensures name != ""
  {
  }

  lemma NothingBelow(at: Path, path: Path)
    requires Absolute(path) && path != "/"
    ensures NodeGet(Regular(map[]), at, path).Missing?
  {
    hide NodeGet, IndexOfSlash;
    var name, rest := SplitPath(path);
    if rest != "" {
      GetBelow(Regular(map[]), at, name, rest);
    } else {
      assert path == "/" + name;
      GetLast(Regular(map[]), at, name);
    }
  }

  // The paths of the nodes after the first d names up to the last but one.
  function PathsAbove(at: Path, names: seq<string>, d: nat): (r: seq<Path>)
    requires d <= |names|
    ensures |r| == |names| - d
  {
    seq(|names| - d, i requires 0 <= i < |names| - d => OwnPath(at + PathOf(names[..d + i])))
  }

  lemma PathsAboveNext(at: Path, names: seq<string>, d: nat)
    requires 0 < d <= |names|
    ensures PathsAbove(ChildPath(at, names[0]), names[1..], d - 1) == PathsAbove(at, names, d)
  {
    var r, r' := PathsAbove(ChildPath(at, names[0]), names[1..], d - 1), PathsAbove(at, names, d);
    hide PathOf, ChildPath, OwnPath;
    forall i | 0 <= i < |r| ensures r[i] == r'[i] {
      PathNext(at, names, d + i);
    }
  }

  lemma PathsAboveAll(at: Path, names: seq<string>)
    requires names != []
    ensures PathsAbove(at, names, 0) == [OwnPath(at)] + PathsAbove(ChildPath(at, names[0]), names[1..], 0)
  {
    PathsAboveNext(at, names, 1);
    assert names[..0] == [] && at + PathOf([]) == at;
    hide PathOf, ChildPath, OwnPath;
  }

  lemma DescendMade(t: Tree, name: string, child: Tree, q: seq<string>)
    requires t.Regular?
    ensures Descend(Regular(t.children[name := child]), q) ==
            if q != [] && q[0] == name then Descend(child, q[1..])
            else if q == [] then Some(Regular(t.children[name := child])) else Descend(t, q)
  {
  }

  // The first d names are there, and the next one is not.
  predicate EndsAfter(t: Tree, names: seq<string>, d: nat)
    requires d < |names|
  {
    Descend(t, names[..d]).Some? && Descend(t, names[..d + 1]) == None
  }

  lemma EndsFurther(t: Tree, names: seq<string>, d: nat)
    requires d < |names| && NoLinks(t) && EndsAfter(t, names, d)
    ensures d == 0 <==> names[0] !in t.children
    ensures d > 0 ==> NoLinks(t.children[names[0]]) && EndsAfter(t.children[names[0]], names[1..], d - 1)
  {
    assert names[..d + 1][0] == names[0] && names[..d + 1][1..] == names[1..][..d];
    assert d > 0 ==> names[..d][0] == names[0] && names[..d][1..] == names[1..][..d - 1];
    OneName(t, names);
  }

  lemma OneName(t: Tree, names: seq<string>)
    requires names != [] && t.Regular?
    ensures Descend(t, names[..1]).Some? <==> names[0] in t.children
  {
    assert names[..1][1..] == [];
  }

  lemma NothingYet(names: seq<string>)
    requires names != []
    ensures EndsAfter(Regular(map[]), names, 0)
  {
    assert names[..0] == [] && names[..1][0] == names[0];
  }

  lemma PrefixNext(q: seq<string>, names: seq<string>)
    requires q != [] && names != []
    ensures q <= names <==> q[0] == names[0] && q[1..] <= names[1..]
  {
    assert q == [q[0]] + q[1..] && names == [names[0]] + names[1..];
  }

  /** Publishing makes the nodes that are missing on the path and no others, and takes out the
      lists of the node above each of them, from the top. */
  lemma {:induction false} PublishExact(t: Tree, at: Path, names: seq<string>, d: nat, q: seq<string>)
    requires NoLinks(t) && AreNames(names) && d < |names| && EndsAfter(t, names, d)
    ensures Publish(t, at, PathOf(names)).1 == PathsAbove(at, names, d)
    ensures Descend(Publish(t, at, PathOf(names)).0, q).Some? <==> Descend(t, q).Some? || q <= names
    decreases |names|
  {
    hide Publish, IndexOfSlash, ChildPath, OwnPath, EndsAfter;
    var name, rest := names[0], names[1..];
    var here := ChildPath(at, name);
    PathStarts(rest);
    PublishBelow(t, at, name, PathOf(rest));
    EndsFurther(t, names, d);
    PathsAboveAll(at, names);
    var child := if name in t.children then t.children[name] else Regular(map[]);
    var below := if q != [] then q[1..] else [];
    if rest == [] {
      PublishNothing(child, here, "");
    } else {
      NothingYet(rest);
      PublishExact(child, here, rest, if d > 0 then d - 1 else 0, below);
    }
    if d > 0 {
      PathsAboveNext(at, names, d);
    }
    DescendMade(t, name, Publish(child, here, PathOf(rest)).0, q);
    if q != [] {
      PrefixNext(q, names);
      if q[0] == name {
        FoundBelow(t, name, q);
      }
    }
  }

  lemma FoundBelow(t: Tree, name: string, q: seq<string>)
    requires t.Regular? && q != [] && q[0] == name
    ensures Descend(t, q) == if name in t.children then Descend(t.children[name], q[1..]) else None
    ensures Descend(Regular(map[]), q[1..]).Some? <==> q[1..] == []
  {
  }

  // ---------- where every subscription is in a run ----------

  // Neither on a stream nor in a list.
  predicate Stranded(r: Reg, k: SubKey) {
    k in r.subs && r.subs[k].stream == None && r.subs[k].pending == None
  }

  // The list whose subscriptions are put on streams.
  function Summons(e: Event): Option<PendingKey> {
    match e
    case ConnectEvent(node) => Some(RemotePending(node))
    case NodeAddedEvent(node) => Some(LocalPending(node))
    case _ => None
  }

  // What a step does to a subscription that is there afterwards; t is r after the step.
  ghost predicate Moved(r: Reg, t: Reg, e: Event, k: SubKey)
    requires k in t.subs
  {
    var now := t.subs[k];
    || (k in r.subs && now.stream == r.subs[k].stream && now.pending == r.subs[k].pending)
    || (k in r.subs && r.subs[k].pending.Some? && Summons(e) == r.subs[k].pending
        && now.pending == None && now.stream == Some(StreamFor(r.subs[k].pending.value, k.path)))
    || (k in r.subs && r.subs[k].stream.Some? && e == StreamFreedEvent(r.subs[k].stream.value)
        && now.stream == None && now.pending == WaitsBehind(r.subs[k].stream.value, k.path))
    || (e.SubscribeEvent? && e.key == k && k !in r.subs &&
          if e.target.Missing? then now.stream == None && now.pending == WaitsIn(k.path)
          else now.stream == Some(TargetKey(e.target)) && now.pending == None)
  }

  lemma SubscribeMoves(r: Reg, e: Event, q: SubKey)
    requires Inv(r) && Tame(r) && e.SubscribeEvent? && Enabled(r, e) && Clean(r, e) && q in Step(r, e).subs
    ensures Moved(r, Step(r, e), e, q)
  {
    var t := Displaced(r, e.key.req, e.displaced);
    hide Inv, Free, Attach, Pend, UpdateQos, Vacant, Tame, WaitsIn, WaitsBehind, StreamFor, TargetKey;
    if e.displaced.Some? {
      FreeKeeps(r, SubKey(e.key.req, e.displaced.value));
    }
    assert Inv(t);
    hide Clean, Subscribe, Moved;
    SubscribeSubs(r, e);
    AsIfMoved(r, Step(r, e), e, q);
  }

  // Only the key itself, and the displaced subscription, are touched.
  ghost predicate Entered(r: Reg, t: Reg, e: Event)
    requires e.SubscribeEvent?
  {
    && (forall q | q in t.subs && q != e.key :: q in r.subs && t.subs[q] == r.subs[q])
    && (e.key in t.subs ==>
          var now := t.subs[e.key];
          if e.key in r.subs then now.stream == r.subs[e.key].stream && now.pending == r.subs[e.key].pending
          else if e.target.Missing? then now.stream == None && now.pending == WaitsIn(e.key.path)
          else now.stream == Some(TargetKey(e.target)) && now.pending == None)
  }

  lemma AsIfMoved(r: Reg, t: Reg, e: Event, q: SubKey)
    requires e.SubscribeEvent? && Entered(r, t, e) && q in t.subs
    ensures Moved(r, t, e, q)
  {
    hide WaitsIn, WaitsBehind, StreamFor, TargetKey;
  }

  lemma SubscribeSubs(r: Reg, e: Event)
    requires e.SubscribeEvent? && Enabled(r, e) && Inv(r)
    requires Inv(Displaced(r, e.key.req, e.displaced))
    ensures Entered(r, Step(r, e), e)
  {
    var k, t := e.key, Displaced(r, e.key.req, e.displaced);
    assert Step(r, e) == if k in t.subs then UpdateQos(t, k, e.qos) else Add(t, k, e.qos, e.target);
    hide Inv, Free, Attach, Pend, UpdateQos, WaitsIn, TargetKey;
    if e.displaced.Some? {
      FreeKeeps(r, SubKey(k.req, e.displaced.value));
    }
    assert t.subs == if e.displaced.Some? then r.subs - {SubKey(k.req, e.displaced.value)} else r.subs;
    hide Displaced, Add, Step;
    if k in t.subs {
      UpdateQosKeeps(t, k, e.qos);
    } else {
      AddSubs(t, k, e.qos, e.target);
    }
  }

  lemma AddSubs(r: Reg, k: SubKey, qos: Qos, target: Target)
    requires k !in r.subs
    ensures Add(r, k, qos, target).subs ==
            r.subs[k := if target.Missing? then Sub(qos, None, WaitsIn(k.path)) else Sub(qos, Some(TargetKey(target)), None)]
  {
    hide Attach, Pend, WaitsIn;
    if target.Missing? {
      PendEffect(Fresh(r, k, qos), k, WaitsIn(k.path));
    } else {
      AttachSubs(Fresh(r, k, qos), k, TargetKey(target));
    }
  }

  lemma ArriveMoves(r: Reg, pk: PendingKey, e: Event, q: SubKey)
    requires Inv(r) && Tame(r) && AllVacant(r, pk) && q in Arrive(r, pk).subs && Summons(e) == Some(pk)
    ensures Moved(r, Arrive(r, pk), e, q)
  {
    hide Inv, Tame, AllVacant, Arrive, StreamFor, WaitsBehind, WaitsIn;
    ArriveKeeps(r, pk);
    WaitsOnce(r, q, pk);
  }

  // A subscription is in the list it waits in and in no other.
  lemma WaitsOnce(r: Reg, k: SubKey, pk: PendingKey)
    requires Inv(r) && k in r.subs
    ensures pk in r.pending && k in r.pending[pk] <==> r.subs[k].pending == Some(pk)
  {
    hide StreamsOk, SubOk, CanWaitIn, NoDup;
    assert WaitOk(r, k);
    if pk in r.pending {
      assert ListOk(r, pk);
    }
  }

  lemma FreeStreamMoves(r: Reg, s: StreamKey, e: Event, q: SubKey)
    requires Inv(r) && e == StreamFreedEvent(s) && q in FreeStream(r, s).subs
    ensures Moved(r, FreeStream(r, s), e, q)
  {
    FreeStreamKeeps(r, s);
    if m :| m in Members(r, s) && m.val == q {
      MemberFree(r, s, m);
    }
    hide Inv, FreeStream, WaitsBehind, WaitsIn, StreamFor;
  }

  lemma StepMoves(r: Reg, e: Event, k: SubKey)
    requires Inv(r) && Tame(r) && Enabled(r, e) && Clean(r, e) && k in Step(r, e).subs
    ensures Moved(r, Step(r, e), e, k)
  {
    hide Inv, Tame, Subscribe, Free, FreeAll, Arrive, FreeStream, AllVacant, Vacant, Displaced, Moved;
    match e
    case SubscribeEvent(_, _, _, _) => SubscribeMoves(r, e, k);
    case UnsubscribeEvent(q) => FreeKeeps(r, q); Unmoved(r, Step(r, e), e, k);
    case RequesterGoneEvent(_, keys) => FreeAllKeeps(r, keys); Unmoved(r, Step(r, e), e, k);
    case ResponderGoneEvent(_) => Unmoved(r, Step(r, e), e, k);
    case ConnectEvent(node) =>
      var m := Announce(r, node);
      AnnounceKeeps(r, node);
      ConnectMoves(r, m, node, e, k);
    case NodeAddedEvent(node) => ArriveMoves(r, LocalPending(node), e, k);
    case StreamFreedEvent(s) => FreeStreamMoves(r, s, e, k);
  }

  lemma Unmoved(r: Reg, t: Reg, e: Event, k: SubKey)
    requires k in r.subs && k in t.subs && t.subs[k] == r.subs[k]
    ensures Moved(r, t, e, k)
  {
  }

  lemma ConnectMoves(r: Reg, m: Reg, node: Path, e: Event, k: SubKey)
    requires Inv(m) && Tame(r) && AllVacant(r, RemotePending(node)) && m == Announce(r, node) && e == ConnectEvent(node) && k in Connect(r, node).subs
    ensures Moved(r, Connect(r, node), e, k)
  {
    var pk := RemotePending(node);
    assert Tame(m) && AllVacant(m, pk);
    hide Inv, Tame, AllVacant, Arrive, StreamFor, WaitsBehind, WaitsIn;
    ArriveMoves(m, pk, e, k);
  }

  // Below the directories of links, with no list to wait in.
  predicate Listless(path: Path) {
    LinkPath(path) && BaseLen(path) == 0
  }

  /** With a slash in front these are the links' own paths, but for a slash that stands first.
      Without one the search begins at the name or, in "upstream", behind its second character. */
  lemma ListlessExact(kind: string, q: Path)
    requires IsKind(kind)
    ensures Listless("/" + kind + ("/" + q)) <==> q == "" || '/' !in q[1..]
    ensures Listless(kind + ("/" + q)) <==> if kind == "downstream" then '/' !in q else |q| < 2 || '/' !in q[2..]
  {
    hide IndexOfSlash, BaseLen, LinkPath;
    var skip := if kind == "downstream" then 0 else 2;
    AreLinkPaths(kind, q);
    assert ("/" + kind + "/")[1] == kind[0] && (kind + "/")[1] == kind[1];
    SearchBehind("/" + kind + "/", q, 1);
    SearchBehind(kind + "/", q, skip);
    assert "/" + kind + "/" + q == "/" + kind + ("/" + q) && kind + "/" + q == kind + ("/" + q);
  }

  lemma AreLinkPaths(kind: string, q: Path)
    requires IsKind(kind)
    ensures LinkPath("/" + kind + ("/" + q)) && LinkPath(kind + ("/" + q))
  {
    var relative := kind + ("/" + q);
    KindPath(kind, "/" + q);
    assert relative[0] == kind[0] && "/" + relative == "/" + kind + ("/" + q);
    hide IsRemotePath;
  }

  lemma SearchBehind(front: string, q: Path, skip: nat)
    requires |front| > 1 && |front| + skip == if front[1] == 'd' then |DOWNSTREAM| + 1 else |UPSTREAM| + 1
    ensures BaseLen(front + q) == 0 <==> |q| <= skip || '/' !in q[skip..]
  {
    var path := front + q;
    assert path[1] == front[1];
    assert forall i | 0 <= i < |q| :: path[|front| + i] == q[i];
    NoSlashFrom(path, |front| + skip, q, skip);
  }

  lemma NoSlashFrom(path: Path, from: nat, q: Path, skip: nat)
    requires |path| - from == |q| - skip && forall i | skip <= i < |q| :: path[from - skip + i] == q[i]
    requires skip <= from
    ensures IndexOfSlash(path, from) >= |path| <==> |q| <= skip || '/' !in q[skip..]
  {
    var end := IndexOfSlash(path, from);
    if end < |path| {
      assert q[skip..][end - from] == '/';
    } else if skip < |q| {
      forall c | c in q[skip..] ensures c != '/' {
        var i :| 0 <= i < |q| - skip && q[skip..][i] == c;
        assert path[from + i] == q[skip + i];
      }
    }
  }

  /** The place of a subscription fits its path, and it has one unless the path has no list. */
  ghost predicate PlacedAt(r: Reg, k: SubKey)
    requires k in r.subs
  {
    var (stream, pending) := (r.subs[k].stream, r.subs[k].pending);
    && ((stream.Some? && stream.value.RemoteStream?) || (pending.Some? && pending.value.RemotePending?) ==> LinkPath(k.path))
    && ((stream.Some? && stream.value.LocalStream?) || (pending.Some? && pending.value.LocalPending?) ==> !BelowLink(k.path))
    && (stream == None && pending == None ==> Listless(k.path))
  }

  ghost predicate Placed(r: Reg) {
    forall k | k in r.subs :: PlacedAt(r, k)
  }

  // A subscription is led where the tree leads it.
  ghost predicate Led(e: Event, t: Tree) {
    e.SubscribeEvent? ==> IsBrokerTree(t) && e.target == NodeGet(t, "", e.key.path)
  }

  lemma StepPlaced(r: Reg, e: Event, t: Tree)
    requires Inv(r) && Tame(r) && Enabled(r, e) && Clean(r, e) && Led(e, t) && Placed(r)
    ensures Placed(Step(r, e))
  {
    hide Inv, Tame, Step, Clean, Enabled, NodeGet, IsBrokerTree, BaseLen;
    forall k | k in Step(r, e).subs ensures PlacedAt(Step(r, e), k) {
      StepMoves(r, e, k);
      if k in r.subs {
        assert PlacedAt(r, k);
      }
      MovedIsPlaced(r, Step(r, e), e, t, k);
    }
  }

  lemma MovedIsPlaced(r: Reg, u: Reg, e: Event, t: Tree, k: SubKey)
    requires k in u.subs && Moved(r, u, e, k) && (k in r.subs ==> PlacedAt(r, k)) && Led(e, t)
    ensures PlacedAt(u, k)
  {
    hide NodeGet, IsBrokerTree, BaseLen;
    if e.SubscribeEvent? && e.key == k {
      TargetKind(t, k.path);
    }
    if IsRemotePath(k.path) {
      assert Norm(k.path) == k.path;
    }
    assert BelowLink(k.path) ==> IsRemotePath(k.path);
    hide BelowLink, IsRemotePath, Norm;
  }

  /** In every clean run in which subscriptions are led by trees of the broker, every
      subscription is on a stream, or waits in exactly one list, or has a path without one. */
  lemma {:induction false} RunPlaced(run: seq<Reg>, es: seq<Event>, trees: seq<Tree>, online: set<Path>, i: nat)
    requires IsRun(run, es) && run[0] == Reg(map[], map[], map[], online, map[]) && i < |run|
    requires |trees| == |es| && forall j | 0 <= j < |es| :: Led(es[j], trees[j])
    ensures Placed(run[i])
    ensures forall k | k in run[i].subs ::
              || (run[i].subs[k].stream.Some? && forall pk | pk in run[i].pending :: k !in run[i].pending[pk])
              || (run[i].subs[k].stream == None && exists pk :: Sole(run[i], k, pk))
              || (Stranded(run[i], k) && Listless(k.path) && forall pk | pk in run[i].pending :: k !in run[i].pending[pk])
    decreases i
  {
    hide Inv, Tame, Step, Clean, Enabled, Led, PlacedAt, Listless;
    RunKeeps(run, es, online, i);
    if i > 0 {
      RunPlaced(run, es, trees, online, i - 1);
      RunKeeps(run, es, online, i - 1);
      StepPlaced(run[i - 1], es[i - 1], trees[i - 1]);
    }
    forall k | k in run[i].subs
      ensures || (run[i].subs[k].stream.Some? && forall pk | pk in run[i].pending :: k !in run[i].pending[pk])
              || (run[i].subs[k].stream == None && exists pk :: Sole(run[i], k, pk))
              || (Stranded(run[i], k) && Listless(k.path) && forall pk | pk in run[i].pending :: k !in run[i].pending[pk])
    {
      InOnePlace(run[i], k);
    }
  }

  // pk is the one list with k, and has it once.
  ghost predicate Sole(r: Reg, k: SubKey, pk: PendingKey) {
    && pk in r.pending && k in r.pending[pk] && NoDup(r.pending[pk])
    && forall other | other in r.pending && other != pk :: k !in r.pending[other]
  }

  lemma InOnePlace(r: Reg, k: SubKey)
    requires Inv(r) && Placed(r) && k in r.subs
    ensures || (r.subs[k].stream.Some? && forall pk | pk in r.pending :: k !in r.pending[pk])
            || (r.subs[k].stream == None && exists pk :: Sole(r, k, pk))
            || (Stranded(r, k) && Listless(k.path) && forall pk | pk in r.pending :: k !in r.pending[pk])
  {
    assert SubOk(r, k) && PlacedAt(r, k);
    forall pk ensures pk in r.pending && k in r.pending[pk] <==> r.subs[k].pending == Some(pk) {
      WaitsOnce(r, k, pk);
    }
    if r.subs[k].pending.Some? {
      var pk := r.subs[k].pending.value;
      assert ListOk(r, pk);
      hide Inv;
      assert Sole(r, k, pk);
    }
  }

  /** And one without a place never gets one, whatever happens, until it is freed. */
  lemma StrandedStays(r: Reg, e: Event, k: SubKey)
    requires Inv(r) && Tame(r) && Enabled(r, e) && Clean(r, e) && Stranded(r, k) && k in Step(r, e).subs
    ensures Stranded(Step(r, e), k)
  {
    hide Inv, Tame, Step, Enabled, Clean, StreamFor, WaitsBehind, WaitsIn, TargetKey;
    StepMoves(r, e, k);
  }

  /** When the node of a waiting path appears and its list is taken out, the subscription is
      put on the stream that the tree leads to exactly if the path is one that can be awaited. */
  lemma AppearsServed(r: Reg, t: Tree, k: SubKey)
    requires Inv(r) && Tame(r) && Placed(r) && k in r.subs && r.subs[k].pending.Some?
    requires IsBrokerTree(t) && !NodeGet(t, "", k.path).Missing?
    requires AllVacant(r, Announces(NodeGet(t, "", k.path)))
    ensures var target := NodeGet(t, "", k.path);
            var u := Arrive(r, Announces(target));
            && k in u.subs
            && if Awaitable(k.path) then u.subs[k].stream == Some(TargetKey(target)) && u.subs[k].pending == None
               else u.subs[k] == r.subs[k] && u.subs[k].stream == None
  {
    var target := NodeGet(t, "", k.path);
    var pk := Announces(target);
    hide Tame, NodeGet, IsBrokerTree, AllVacant, Arrive, Awaitable, StreamFor, TargetKey, SubsOk, StreamsOk, ListsOk;
    ArriveKeeps(r, pk);
    WaitsOnce(r, k, pk);
    assert r.subs[k].stream == None && CanWaitIn(k.path, r.subs[k].pending.value) by {
      assert SubsOk(r) && SubOk(r, k) && WaitOk(r, k);
    }
    assert PlacedAt(r, k);
    AwaitedKey(t, k.path, r.subs[k].pending.value);
  }

  lemma AwaitedKey(t: Tree, path: Path, pk: PendingKey)
    requires IsBrokerTree(t) && !NodeGet(t, "", path).Missing? && CanWaitIn(path, pk)
    requires if pk.RemotePending? then LinkPath(path) else !BelowLink(path)
    ensures var target := NodeGet(t, "", path);
            && (pk == Announces(target) <==> Awaitable(path))
            && (Awaitable(path) ==> StreamFor(pk, path) == TargetKey(target))
  {
    hide NodeGet, IsBrokerTree, BaseLen, BelowLink;
    WaitingExact(t, path);
    if !Absolute(path) {
      assert !Awaitable(path);
      if NodeGet(t, "", path).Local? {
        RelativeLocal(t, path);
      } else {
        AbsoluteNode(t, "", path);
      }
    } else if IsRemotePath(path) {
      BelowKind(t, path);
    }
  }

  lemma {:induction false} AbsoluteNode(t: Tree, at: Path, path: Path)
    requires NodeGet(t, at, path).Remote? && (at == "" || Absolute(at))
    ensures Absolute(NodeGet(t, at, path).node)
    decreases |path|
  {
    var p := if Absolute(path) then path[1..] else path;
    var end := IndexOfSlash(p, 0);
    if end < |p| && !t.children[p[..end]].Downstream? {
      AbsoluteNode(t.children[p[..end]], ChildPath(at, p[..end]), p[end..]);
    }
  }
}
