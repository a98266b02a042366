/** broker_node_get (broker/src/node/node.c) on the tree of nodes: where a path leads, when
    two paths lead to the same stream, and that a path that waited for its node is given the
    stream the tree leads it to. */
module NodeTree {
  import opened Common
  import opened Registry

  datatype Tree = Regular(children: map<string, Tree>) | Downstream

  predicate Absolute(path: Path) {
    path != [] && path[0] == '/'
  }

  // A slash in front makes no difference, except to a name alone.
  function Norm(path: Path): (p: Path)
    ensures Absolute(p)
  {
    if Absolute(path) then path else "/" + path
  }

  predicate Bare(path: Path) {
    '/' !in path
  }

  // The path broker_node_add gives a child; `at` is empty for the root.
  function ChildPath(at: Path, name: string): Path {
    at + "/" + name
  }

  function OwnPath(at: Path): Path {
    if at == "" then "/" else at
  }

  // broker_node_get from the node with path `at`; a link's own path leads to a rest with its
  // name, not to an empty one.
  function NodeGet(t: Tree, at: Path, path: Path): Target
    decreases |path|
  {
    if path == "/" then Local(OwnPath(at))
    else
      var p := if Absolute(path) then path[1..] else path;
      var end := IndexOfSlash(p, 0);
      if end < |p| then
        var name := p[..end];
        if t.Downstream? || name !in t.children then Missing
        else if t.children[name].Downstream? then Remote(ChildPath(at, name), p[end..])
        else NodeGet(t.children[name], ChildPath(at, name), p[end..])
      else if p != "" then
        if t.Downstream? || p !in t.children then Missing
        else if t.children[p].Downstream? then Remote(ChildPath(at, p), path)
        else Local(ChildPath(at, p))
      else Local(OwnPath(at))
  }

  // One step down, and the last one.
  lemma GetBelow(t: Tree, at: Path, name: string, rest: Path)
    requires '/' !in name && Absolute(rest)
    ensures NodeGet(t, at, "/" + name + rest) ==
            if t.Downstream? || name !in t.children then Missing
            else if t.children[name].Downstream? then Remote(ChildPath(at, name), rest)
            else NodeGet(t.children[name], ChildPath(at, name), rest)
  {
    var path := "/" + name + rest;
    assert path[1..] == name + rest;
    SlashAt(name + rest, 0, |name|);
    assert (name + rest)[..|name|] == name && (name + rest)[|name|..] == rest;
  }

  lemma GetLast(t: Tree, at: Path, name: string)
    requires '/' !in name && name != ""
    ensures NodeGet(t, at, "/" + name) ==
            if t.Downstream? || name !in t.children then Missing
            else if t.children[name].Downstream? then Remote(ChildPath(at, name), "/" + name)
            else Local(ChildPath(at, name))
  {
    assert ("/" + name)[1..] == name;
    NoSlash(name);
  }

  lemma {:induction false} SlashAt(p: Path, from: nat, at: nat)
    requires from <= at < |p| && p[at] == '/' && forall i | from <= i < at :: p[i] != '/'
    ensures IndexOfSlash(p, from) == at
    decreases at - from
  {
    if from < at {
      SlashAt(p, from + 1, at);
    }
  }

  lemma NoSlash(p: Path)
    requires '/' !in p
    ensures IndexOfSlash(p, 0) >= |p|
  {
  }

  // An absolute path is a name and an absolute rest, or a name alone.
  lemma SplitPath(path: Path) returns (name: string, rest: Path)
    requires Absolute(path) && path != "/"
    ensures '/' !in name && path == "/" + name + rest && (Absolute(rest) || (rest == "" && name != ""))
  {
    var end := IndexOfSlash(path, 1);
    if end < |path| {
      name, rest := path[1..end], path[end..];
    } else {
      name, rest := path[1..], "";
    }
  }

  lemma PathJoin(at: Path, name: string, rest: Path)
    ensures at + ("/" + name + rest) == ChildPath(at, name) + rest
    ensures at + ("/" + name) == ChildPath(at, name)
  {
  }

  // The rest is the last component of the node's own path.
  ghost predicate IsOwnName(node: Path, rest: Path) {
    Absolute(rest) && '/' !in rest[1..] && |rest| <= |node| && node[|node| - |rest|..] == rest
  }

  lemma OwnName(at: Path, name: string)
    requires '/' !in name
    ensures IsOwnName(ChildPath(at, name), "/" + name)
  {
    var rest := "/" + name;
    assert rest[1..] == name;
    assert ChildPath(at, name)[|at|..] == rest;
  }

  /** A path without a slash in front leads where it leads with one, but a link's bare name
      leads to a rest without a slash. */
  lemma NormTarget(t: Tree, at: Path, path: Path)
    ensures var r := NodeGet(t, at, Norm(path));
            NodeGet(t, at, path) == if Bare(path) && r.Remote? then Remote(r.node, path) else r
    ensures Bare(path) && NodeGet(t, at, path).Remote? ==> NodeGet(t, at, Norm(path)).rest == Norm(path)
  {
    if !Absolute(path) {
      assert Norm(path)[1..] == path;
      if Bare(path) {
        NoSlash(path);
      }
    }
  }

  lemma {:induction false} AbsoluteTarget(t: Tree, at: Path, path: Path)
    requires Absolute(path) && NodeGet(t, at, path).Remote?
    ensures var r := NodeGet(t, at, path);
            Absolute(r.rest) && (at + path == r.node + r.rest || (at + path == r.node && IsOwnName(r.node, r.rest)))
    decreases |path|
  {
    assert path != "/";
    var name, rest := SplitPath(path);
    if rest != "" {
      GetBelow(t, at, name, rest);
      PathJoin(at, name, rest);
      hide NodeGet, ChildPath, IndexOfSlash;
      if !t.children[name].Downstream? {
        AbsoluteTarget(t.children[name], ChildPath(at, name), rest);
      }
    } else {
      assert path == "/" + name;
      GetLast(t, at, name);
      PathJoin(at, name, rest);
      hide NodeGet, IndexOfSlash;
      OwnName(at, name);
    }
  }

  /** Where any path below the root leads on a link: to its node and the rest behind it, or to
      the node's own path and its name. */
  lemma RemoteTarget(t: Tree, path: Path)
    requires NodeGet(t, "", path).Remote?
    ensures var r, p := NodeGet(t, "", path), Norm(path);
            if Bare(path) then p == r.node && r.rest == path
            else Absolute(r.rest) && (p == r.node + r.rest || (p == r.node && IsOwnName(r.node, r.rest)))
  {
    NormTarget(t, "", path);
    AbsoluteTarget(t, "", Norm(path));
    assert "" + Norm(path) == Norm(path);
    if Bare(path) {
      BareTarget(t, path);
    }
  }

  lemma BareTarget(t: Tree, name: Path)
    requires Bare(name) && NodeGet(t, "", name).Remote?
    ensures NodeGet(t, "", name).node == "/" + name
  {
    NoSlash(name);
  }

  // Behind a link's own path its name leads back to the link itself.
  lemma {:induction false} NameRepeated(t: Tree, at: Path, path: Path)
    requires Absolute(path) && NodeGet(t, at, path).Remote? && at + path == NodeGet(t, at, path).node
    ensures var r := NodeGet(t, at, path); NodeGet(t, at, path + r.rest) == r
    decreases |path|
  {
    hide NodeGet, ChildPath, IndexOfSlash, IsOwnName;
    assert path != "/" by { RootIsLocal(t, at); }
    var name, rest := SplitPath(path);
    var r := NodeGet(t, at, path);
    AbsoluteTarget(t, at, path);
    if rest != "" {
      GetBelow(t, at, name, rest);
      PathJoin(at, name, rest);
      GetBelow(t, at, name, rest + r.rest);
      JoinBehind(name, rest, r.rest);
      if t.children[name].Downstream? {
        NothingLeft(ChildPath(at, name), rest);
      } else {
        NameRepeated(t.children[name], ChildPath(at, name), rest);
      }
    } else {
      assert path == "/" + name;
      GetLast(t, at, name);
      GetBelow(t, at, name, "/" + name);
    }
  }

  lemma RootIsLocal(t: Tree, at: Path)
    ensures NodeGet(t, at, "/").Local?
  {
  }

  lemma JoinBehind(name: string, rest: Path, more: Path)
    ensures "/" + name + rest + more == "/" + name + (rest + more)
  {
  }

  lemma NothingLeft(a: Path, b: Path)
    ensures a + b == a ==> b == ""
  {
    assert |a + b| == |a| + |b|;
  }

  // p is the path of the node of its own target r, and q repeats the name behind it.
  ghost predicate Repeats(r: Target, p: Path, q: Path)
    requires r.Remote?
  {
    p == r.node && q == r.node + r.rest
  }

  /** Exactly when two paths that lead to links lead to one stream. A missing slash in front
      does not matter, unless the path is a name alone; other than that, only a link's own
      path and that path with its name repeated lead to one stream. */
  lemma Collisions(t: Tree, p: Path, q: Path)
    requires NodeGet(t, "", p).Remote? && NodeGet(t, "", q).Remote?
    ensures var r, r' := NodeGet(t, "", p), NodeGet(t, "", q);
            r == r' <==>
              if Bare(p) || Bare(q) then p == q
              else Norm(p) == Norm(q) || Repeats(r, Norm(p), Norm(q)) || Repeats(r', Norm(q), Norm(p))
  {
    hide NodeGet, Norm, IsOwnName;
    RemoteTarget(t, p);
    RemoteTarget(t, q);
    NormTarget(t, "", p);
    NormTarget(t, "", q);
    if !Bare(p) && !Bare(q) {
      if Norm(p) == NodeGet(t, "", p).node {
        NameRepeatedAtRoot(t, Norm(p));
      }
      if Norm(q) == NodeGet(t, "", q).node {
        NameRepeatedAtRoot(t, Norm(q));
      }
    }
  }

  lemma NameRepeatedAtRoot(t: Tree, path: Path)
    requires Absolute(path) && NodeGet(t, "", path).Remote? && path == NodeGet(t, "", path).node
    ensures NodeGet(t, "", path + NodeGet(t, "", path).rest) == NodeGet(t, "", path)
  {
    assert "" + path == path;
    NameRepeated(t, "", path);
  }

  // The collision does happen, for every link and name, and without a slash in front.
  lemma CollisionHappens(t: Tree, kind: string, name: string)
    requires kind != "" && '/' !in kind && '/' !in name && name != ""
    requires t.Regular? && kind in t.children && t.children[kind].Regular?
    requires name in t.children[kind].children && t.children[kind].children[name].Downstream?
    ensures var node := "/" + kind + "/" + name;
            && NodeGet(t, "", node) == NodeGet(t, "", node + "/" + name) == Remote(node, "/" + name)
            && NodeGet(t, "", kind + "/" + name) == Remote(node, "/" + name)
  {
    hide NodeGet, ChildPath, IndexOfSlash;
    GetBelow(t, "", kind, "/" + name);
    GetBelow(t, "", kind, "/" + name + ("/" + name));
    GetLast(t.children[kind], ChildPath("", kind), name);
    GetBelow(t.children[kind], ChildPath("", kind), name, "/" + name);
    Joins(kind, name, "");
    Joins(kind, name, "/" + name);
    WithoutSlash(t, kind, "/" + name);
    JoinRelative(kind, name);
  }

  lemma JoinRelative(kind: string, name: string)
    ensures kind + "/" + name == kind + ("/" + name)
  {
  }

  lemma WithoutSlash(t: Tree, kind: string, rest: Path)
    requires kind != "" && '/' !in kind && Absolute(rest)
    ensures NodeGet(t, "", kind + rest) == NodeGet(t, "", "/" + kind + rest)
  {
    var relative := kind + rest;
    assert relative[0] == kind[0] && relative[|kind|] == '/' && "/" + relative == "/" + kind + rest;
    NormTarget(t, "", relative);
  }

  lemma Joins(kind: string, name: string, rest: Path)
    ensures "/" + kind + ("/" + name + rest) == "/" + kind + "/" + name + rest
    ensures "/" + kind + ("/" + name) == "/" + kind + "/" + name
    ensures "/" + kind + "/" + name + "/" + name == "/" + kind + "/" + name + ("/" + name)
    ensures ChildPath(ChildPath("", kind), name) == "/" + kind + "/" + name
  {
  }

  // ---------- the lookup, name by name ----------

  function PathOf(names: seq<string>): Path {
    if names == [] then "" else "/" + names[0] + PathOf(names[1..])
  }

  // The node found by going from child to child.
  function Descend(t: Tree, names: seq<string>): Option<Tree>
    decreases |names|
  {
    if names == [] then Some(t)
    else if t.Downstream? || names[0] !in t.children then None
    else Descend(t.children[names[0]], names[1..])
  }

  predicate AreNames(names: seq<string>) {
    forall i | 0 <= i < |names| :: names[i] != "" && '/' !in names[i]
  }

  // The first k names lead to a link.
  predicate LinkAfter(t: Tree, names: seq<string>, k: nat)
    requires k <= |names|
  {
    Descend(t, names[..k]) == Some(Downstream)
  }

  lemma DescendNext(t: Tree, names: seq<string>, k: nat)
    requires 0 < k <= |names| && t.Regular? && names[0] in t.children
    ensures LinkAfter(t, names, k) <==> LinkAfter(t.children[names[0]], names[1..], k - 1)
  {
    assert names[..k][1..] == names[1..][..k - 1] && names[..k][0] == names[0];
  }

  lemma PathNext(at: Path, names: seq<string>, k: nat)
    requires 0 < k <= |names|
    ensures ChildPath(at, names[0]) + PathOf(names[1..][..k - 1]) == at + PathOf(names[..k])
  {
    assert names[..k][1..] == names[1..][..k - 1] && names[..k][0] == names[0];
    PathJoin(at, names[0], PathOf(names[1..][..k - 1]));
  }

  lemma PathStarts(names: seq<string>)
    ensures names != [] ==> Absolute(PathOf(names))
    ensures |names| == 1 ==> PathOf(names) == "/" + names[0]
  {
    if |names| == 1 {
      assert PathOf(names[1..]) == "";
    }
  }

  // The first name leads to a link.
  lemma LinkFirst(t: Tree, at: Path, names: seq<string>)
    requires names != [] && AreNames(names) && t.Regular? && names[0] in t.children && t.children[names[0]].Downstream?
    ensures NodeGet(t, at, PathOf(names)) == Remote(at + PathOf(names[..1]), PathOf(names[if |names| > 1 then 1 else 0..]))
    ensures forall k | 0 < k <= |names| && LinkAfter(t, names, k) :: k == 1
  {
    hide NodeGet, ChildPath, IndexOfSlash;
    PathStarts(names);
    PathStarts(names[1..]);
    PathStarts(names[..1]);
    PathJoin(at, names[0], "");
    if |names| > 1 {
      GetBelow(t, at, names[0], PathOf(names[1..]));
    } else {
      GetLast(t, at, names[0]);
      assert names[0..] == names;
    }
    forall k | 0 < k <= |names| && LinkAfter(t, names, k) ensures k == 1 {
      DescendNext(t, names, k);
      assert k > 1 ==> Descend(Downstream, names[1..][..k - 1]) == None;
    }
  }

  /** Where a path of names leads: to the first link on the way, with the names behind it, or
      its own if there are none; without a link, to the node that the names lead to from child
      to child; and nowhere if there is no such node. */
  lemma {:induction false} GetExact(t: Tree, at: Path, names: seq<string>)
    requires names != [] && AreNames(names)
    ensures forall k | 0 < k <= |names| && LinkAfter(t, names, k) ::
              NodeGet(t, at, PathOf(names)) == Remote(at + PathOf(names[..k]), PathOf(names[if k < |names| then k else k - 1..]))
    ensures (forall k | 0 < k <= |names| :: !LinkAfter(t, names, k)) ==>
              NodeGet(t, at, PathOf(names)) == if Descend(t, names).Some? then Local(at + PathOf(names)) else Missing
    decreases |names|, 1
  {
    hide NodeGet, ChildPath, IndexOfSlash, LinkAfter;
    PathStarts(names);
    PathStarts(names[1..]);
    if t.Regular? && names[0] in t.children {
      if t.children[names[0]].Downstream? {
        LinkFirst(t, at, names);
        assert LinkAfter(t, names, 1) by { LinkIsFirst(t, names); }
      } else {
        RegularFirst(t, at, names);
      }
    } else {
      NothingFirst(t, at, names);
    }
  }

  lemma LinkIsFirst(t: Tree, names: seq<string>)
    requires names != [] && t.Regular? && names[0] in t.children && t.children[names[0]].Downstream?
    ensures LinkAfter(t, names, 1)
  {
    assert names[..1][1..] == [];
  }

  lemma NothingFirst(t: Tree, at: Path, names: seq<string>)
    requires names != [] && AreNames(names) && (t.Downstream? || names[0] !in t.children)
    ensures NodeGet(t, at, PathOf(names)) == Missing && Descend(t, names) == None
    ensures forall k | 0 < k <= |names| :: !LinkAfter(t, names, k)
  {
    hide NodeGet, IndexOfSlash;
    PathStarts(names);
    PathStarts(names[1..]);
    if |names| > 1 {
      GetBelow(t, at, names[0], PathOf(names[1..]));
    } else {
      GetLast(t, at, names[0]);
    }
    assert forall k | 0 < k <= |names| :: names[..k][0] == names[0];
  }

  lemma RegularFirst(t: Tree, at: Path, names: seq<string>)
    requires names != [] && AreNames(names) && t.Regular? && names[0] in t.children && t.children[names[0]].Regular?
    ensures forall k | 0 < k <= |names| && LinkAfter(t, names, k) ::
              NodeGet(t, at, PathOf(names)) == Remote(at + PathOf(names[..k]), PathOf(names[if k < |names| then k else k - 1..]))
    ensures (forall k | 0 < k <= |names| :: !LinkAfter(t, names, k)) ==>
              NodeGet(t, at, PathOf(names)) == if Descend(t, names).Some? then Local(at + PathOf(names)) else Missing
    decreases |names|, 0
  {
    hide NodeGet, ChildPath, IndexOfSlash, LinkAfter;
    var child, here, rest := t.children[names[0]], ChildPath(at, names[0]), names[1..];
    if rest == [] {
      LastName(t, at, names);
    } else {
      OneDown(t, at, names);
      assert AreNames(rest);
      hide PathOf, Descend, AreNames;
      GetExact(child, here, rest);
      forall k | 0 < k <= |names| && LinkAfter(t, names, k)
        ensures NodeGet(t, at, PathOf(names)) == Remote(at + PathOf(names[..k]), PathOf(names[if k < |names| then k else k - 1..]))
      {
        OneFurther(t, at, names, k);
        assert LinkAfter(child, rest, k - 1);
      }
      NoneFurther(t, at, names);
    }
  }

  lemma LastName(t: Tree, at: Path, names: seq<string>)
    requires |names| == 1 && AreNames(names) && t.Regular? && names[0] in t.children && t.children[names[0]].Regular?
    ensures NodeGet(t, at, PathOf(names)) == Local(at + PathOf(names)) && Descend(t, names).Some?
    ensures forall k | 0 < k <= |names| :: !LinkAfter(t, names, k)
  {
    hide NodeGet, ChildPath, IndexOfSlash, LinkAfter;
    PathStarts(names);
    PathJoin(at, names[0], "");
    GetLast(t, at, names[0]);
    NotFirst(t, names);
  }

  lemma OneDown(t: Tree, at: Path, names: seq<string>)
    requires |names| > 1 && AreNames(names) && t.Regular? && names[0] in t.children && t.children[names[0]].Regular?
    ensures NodeGet(t, at, PathOf(names)) == NodeGet(t.children[names[0]], ChildPath(at, names[0]), PathOf(names[1..]))
    ensures Descend(t, names) == Descend(t.children[names[0]], names[1..])
    ensures ChildPath(at, names[0]) + PathOf(names[1..]) == at + PathOf(names)
  {
    hide NodeGet, ChildPath, IndexOfSlash;
    PathStarts(names[1..]);
    GetBelow(t, at, names[0], PathOf(names[1..]));
    PathJoin(at, names[0], PathOf(names[1..]));
  }

  lemma NoneFurther(t: Tree, at: Path, names: seq<string>)
    requires names != [] && t.Regular? && names[0] in t.children && t.children[names[0]].Regular?
    ensures (forall k | 0 < k <= |names| :: !LinkAfter(t, names, k)) ==>
              forall k | 0 < k < |names| :: !LinkAfter(t.children[names[0]], names[1..], k)
  {
    hide LinkAfter;
    if forall k | 0 < k <= |names| :: !LinkAfter(t, names, k) {
      forall k | 0 < k < |names| ensures !LinkAfter(t.children[names[0]], names[1..], k) {
        OneFurther(t, at, names, k + 1);
      }
    }
  }

  lemma OneFurther(t: Tree, at: Path, names: seq<string>, k: nat)
    requires 0 < k <= |names| && t.Regular? && names[0] in t.children && t.children[names[0]].Regular?
    ensures var child, here, rest := t.children[names[0]], ChildPath(at, names[0]), names[1..];
            && (LinkAfter(t, names, k) <==> k > 1 && LinkAfter(child, rest, k - 1))
            && here + PathOf(rest[..k - 1]) == at + PathOf(names[..k])
            && rest[k - 1..] == names[k..] && (k > 1 ==> rest[k - 2..] == names[k - 1..])
  {
    hide LinkAfter, PathOf, ChildPath;
    DescendNext(t, names, k);
    NoLinkHere(t.children[names[0]], names[1..]);
    PathNext(at, names, k);
  }

  lemma NoLinkHere(t: Tree, names: seq<string>)
    requires t.Regular?
    ensures !LinkAfter(t, names, 0)
  {
  }

  lemma NotFirst(t: Tree, names: seq<string>)
    requires |names| == 1 && t.Regular? && names[0] in t.children && t.children[names[0]].Regular?
    ensures forall k | 0 < k <= |names| :: !LinkAfter(t, names, k)
    ensures Descend(t, names).Some?
  {
    DescendNext(t, names, 1);
    NoLinkHere(t.children[names[0]], names[1..]);
  }

  // ---------- waiting paths ----------

  predicate IsKind(kind: string) {
    kind == "downstream" || kind == "upstream"
  }

  // The length found by broker_downstream_node_base_len covers the kind and the name.
  lemma BaseLenExact(kind: string, name: string, rest: Path)
    requires IsKind(kind) && name != "" && '/' !in name && Absolute(rest)
    ensures var path := "/" + kind + "/" + name + rest;
            && IsRemotePath(path) && BaseLen(path) == 2 + |kind| + |name|
            && path[..BaseLen(path)] == "/" + kind + "/" + name && path[BaseLen(path)..] == rest
  {
    var base := "/" + kind + "/" + name;
    var path := base + rest;
    var end := |base|;
    assert path[1] == kind[0];
    assert path[end] == '/';
    assert forall i | 2 + |kind| <= i < end :: path[i] == name[i - 2 - |kind|];
    SlashAt(path, 3 + |kind|, end);
    if kind == "downstream" {
      assert path[..12] == DOWNSTREAM;
    } else {
      assert path[..10] == UPSTREAM;
    }
  }

  /** A path below a link that is not known yet waits under the link's path, and the stream it
      is given when the link comes is the one the tree then leads it to. */
  lemma WaitingLeadsHome(t: Tree, kind: string, name: string, rest: Path)
    requires IsKind(kind) && name != "" && '/' !in name && Absolute(rest)
    requires t.Regular? && kind in t.children && t.children[kind].Regular?
    requires name in t.children[kind].children && t.children[kind].children[name].Downstream?
    ensures var path, base := "/" + kind + "/" + name + rest, "/" + kind + "/" + name;
            && WaitsIn(path) == Some(RemotePending(base))
            && NodeGet(t, "", path) == Remote(base, rest)
            && StreamFor(RemotePending(base), path) == RemoteStream(base, rest)
  {
    BaseLenExact(kind, name, rest);
    GetBelow(t, "", kind, "/" + name + rest);
    GetBelow(t.children[kind], ChildPath("", kind), name, rest);
    Joins(kind, name, rest);
    hide NodeGet, BaseLen, IsRemotePath, ChildPath, IndexOfSlash;
  }

  // ---------- local nodes ----------

  // A trailing slash is dropped.
  predicate Names(path: Path, node: Path) {
    node == path || node + "/" == path
  }

  lemma {:induction false} AbsoluteLocal(t: Tree, at: Path, path: Path)
    requires Absolute(path) && NodeGet(t, at, path).Local?
    ensures Names(at + path, NodeGet(t, at, path).node)
    decreases |path|
  {
    if path != "/" {
      var name, rest := SplitPath(path);
      PathJoin(at, name, rest);
      if rest != "" {
        GetBelow(t, at, name, rest);
        hide NodeGet, ChildPath, IndexOfSlash, Names;
        AbsoluteLocal(t.children[name], ChildPath(at, name), rest);
      } else {
        assert path == "/" + name;
        GetLast(t, at, name);
        hide NodeGet, ChildPath, IndexOfSlash;
      }
    } else {
      assert at == "" ==> at + path == "/";
    }
  }

  // A slash behind the path of a node leads to the same node.
  lemma {:induction false} SlashBehind(t: Tree, at: Path, path: Path)
    requires Absolute(path) && path[|path| - 1] != '/' && NodeGet(t, at, path).Local?
    ensures NodeGet(t, at, path + "/") == NodeGet(t, at, path)
    decreases |path|
  {
    var name, rest := SplitPath(path);
    if rest != "" {
      assert rest[|rest| - 1] == path[|path| - 1];
      assert path + "/" == "/" + name + (rest + "/");
      GetBelow(t, at, name, rest);
      GetBelow(t, at, name, rest + "/");
      SlashBehind(t.children[name], ChildPath(at, name), rest);
    } else {
      assert path == "/" + name && path + "/" == "/" + name + "/";
      GetLast(t, at, name);
      GetBelow(t, at, name, "/");
      assert ChildPath(at, name) != "" ==> NodeGet(t.children[name], ChildPath(at, name), "/") == Local(ChildPath(at, name));
      assert |ChildPath(at, name)| > 0;
    }
  }

  /** A path leads to the node of that path, with or without a slash in front of it or behind
      it. So two paths that lead to one node differ in these slashes only, and a slash behind
      a path that has none makes no difference. */
  lemma LocalTarget(t: Tree, p: Path, q: Path)
    requires NodeGet(t, "", p).Local?
    ensures Names(Norm(p), NodeGet(t, "", p).node)
    ensures NodeGet(t, "", q) == NodeGet(t, "", p) ==>
              Norm(q) == Norm(p) || Norm(q) == Norm(p) + "/" || Norm(p) == Norm(q) + "/"
    ensures Norm(q) == Norm(p) || (Norm(q) == Norm(p) + "/" && Norm(p)[|Norm(p)| - 1] != '/') ==>
              NodeGet(t, "", q) == NodeGet(t, "", p)
  {
    hide NodeGet, Norm, Names;
    LocalNamed(t, p);
    NormTarget(t, "", p);
    NormTarget(t, "", q);
    if NodeGet(t, "", q) == NodeGet(t, "", p) {
      LocalNamed(t, q);
      NamesTwice(Norm(p), Norm(q), NodeGet(t, "", p).node);
    }
    if Norm(p)[|Norm(p)| - 1] != '/' {
      SlashBehind(t, "", Norm(p));
    }
  }

  lemma LocalNamed(t: Tree, p: Path)
    requires NodeGet(t, "", p).Local?
    ensures Names(Norm(p), NodeGet(t, "", p).node)
  {
    hide NodeGet, Norm;
    NormTarget(t, "", p);
    AbsoluteLocal(t, "", Norm(p));
    assert "" + Norm(p) == Norm(p);
  }

  lemma NamesTwice(p: Path, q: Path, node: Path)
    requires Names(p, node) && Names(q, node)
    ensures q == p || q == p + "/" || p == q + "/"
  {
  }

  /** When a link's stream is freed its subscribers wait by the kind of its node. A path with
      a slash in front waits under the link's path; one without it waits under a key that no
      link announces. */
  lemma FreedWaitsFor(t: Tree, name: string, rest: Path)
    requires name != "" && '/' !in name && Absolute(rest)
    requires t.Regular? && "downstream" in t.children && t.children["downstream"].Regular?
    requires name in t.children["downstream"].children && t.children["downstream"].children[name].Downstream?
    ensures var relative, node := "downstream/" + name + rest, "/downstream/" + name;
            && NodeGet(t, "", "/" + relative) == NodeGet(t, "", relative) == Remote(node, rest)
            && WaitsBehind(RemoteStream(node, rest), "/" + relative) == Some(RemotePending(node))
            && WaitsBehind(RemoteStream(node, rest), relative) == Some(RemotePending("downstream/" + name))
            && "downstream/" + name != node
  {
    hide NodeGet, BaseLen, IndexOfSlash, RemoteList;
    DownstreamPaths(name, rest);
    WaitingLeadsHome(t, "downstream", name, rest);
    BelowLinkIsRemote(name, rest);
    WithoutSlash(t, "downstream", "/" + name + rest);
    RelativeBase(name, rest);
  }

  lemma DownstreamPaths(name: string, rest: Path)
    ensures "/" + "downstream" + "/" + name == "/downstream/" + name
    ensures "/" + "downstream" + "/" + name + rest == "/" + ("downstream/" + name + rest)
    ensures "/" + "downstream" + ("/" + name + rest) == "/" + ("downstream/" + name + rest)
    ensures "downstream" + ("/" + name + rest) == "downstream/" + name + rest
    ensures "downstream/" + name != "/downstream/" + name
  {
    assert ("/downstream/" + name)[0] == '/' && ("downstream/" + name)[0] == 'd';
  }

  lemma BelowLinkIsRemote(name: string, rest: Path)
    requires name != "" && '/' !in name && Absolute(rest)
    ensures var path := "/" + ("downstream/" + name + rest); IsRemotePath(path) && WaitsIn(path) == RemoteList(path)
  {
    hide BaseLen;
    BaseLenExact("downstream", name, rest);
    DownstreamPaths(name, rest);
  }

  lemma RelativeBase(name: string, rest: Path)
    requires name != "" && '/' !in name && Absolute(rest)
    ensures RemoteList("downstream/" + name + rest) == Some(RemotePending("downstream/" + name))
  {
    var base := "downstream/" + name;
    var path := base + rest;
    assert path[1] == 'o' && path[|base|] == '/';
    assert forall i | 11 <= i < |base| :: path[i] == name[i - 11];
    SlashAt(path, 11, |base|);
    assert path[..|base|] == base;
  }
}
