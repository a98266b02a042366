/** The query walk of broker/src/query/query.c on the trees that broker/src/node/node.c builds
    below broker->data: for which patterns it may leave out what is below a failing node. */
module QueryTrees {
  import opened Query

  const DATA := "/data"

  // ---------- paths ----------

  // Every slash has a character behind it that is none.
  predicate Clean(path: string) {
    forall i | 0 <= i < |path| :: path[i] == '/' ==> i + 1 < |path| && path[i + 1] != '/'
  }

  // The path of a node at or below the root of the walk.
  predicate IsNodePath(path: string) {
    DATA <= path && Clean(path) && (|path| > |DATA| ==> path[|DATA|] == '/')
  }

  predicate Below(above: string, path: string) {
    |above| < |path| && above <= path && path[|above|] == '/'
  }

  // broker_node_add: the parent's path, a slash and a name.
  predicate IsChildPath(parent: string, child: string) {
    Below(parent, child) && |child| > |parent| + 1 && '/' !in child[|parent| + 1..]
  }

  predicate Grown(t: Tree)
    decreases t
  {
    forall i | 0 <= i < |t.children| :: IsChildPath(t.path, t.children[i].path) && Grown(t.children[i])
  }

  predicate IsDataTree(t: Tree) {
    t.path == DATA && Grown(t)
  }

  lemma NoneIn(s: string, from: nat, to: nat, i: nat)
    requires from <= i < to <= |s| && '/' !in s[from..to]
    ensures s[i] != '/'
  {
    assert s[i] == s[from..to][i - from];
  }

  lemma ChildIsNode(parent: string, child: string)
    requires IsNodePath(parent) && IsChildPath(parent, child)
    ensures IsNodePath(child)
  {
    var n := |parent|;
    assert parent == child[..n] && child[n + 1..] == child[n + 1..|child|];
    forall i | 0 <= i < |child| && child[i] == '/' ensures i + 1 < |child| && child[i + 1] != '/' {
      if i < n {
        assert parent[i] == child[i] && parent[i + 1] == child[i + 1];
      } else {
        NoneIn(child, n + 1, |child|, if i == n then n + 1 else i);
      }
    }
  }

  lemma BelowTransitive(x: string, y: string, z: string)
    requires Below(x, y) && Below(y, z)
    ensures Below(x, z)
  {
    assert y == z[..|y|] && x == y[..|x|] && z[|x|] == y[|x|];
  }

  lemma {:induction false} NodesAreBelow(t: Tree, path: string)
    requires Grown(t) && IsNodePath(t.path) && path in Nodes(t)
    ensures IsNodePath(path) && (path == t.path || Below(t.path, path))
    decreases t, |t.children| + 1
  {
    if path != t.path {
      NodesAreBelowAll(t, |t.children|, path);
    }
  }

  lemma {:induction false} NodesAreBelowAll(t: Tree, k: nat, path: string)
    requires Grown(t) && IsNodePath(t.path) && k <= |t.children| && path in NodesBelow(t, k)
    ensures IsNodePath(path) && Below(t.path, path)
    decreases t, k
  {
    if path in NodesBelow(t, k - 1) {
      NodesAreBelowAll(t, k - 1, path);
    } else {
      var child := t.children[k - 1];
      ChildIsNode(t.path, child.path);
      NodesAreBelow(child, path);
      if path != child.path {
        BelowTransitive(t.path, child.path, path);
      }
    }
  }

  // ---------- the walk is right on all trees exactly when it is right on all paths ----------

  // No node below one that fails matches.
  ghost predicate Safe(pattern: string) {
    forall x, y | IsNodePath(x) && IsNodePath(y) && Below(x, y) && MatchQuery(x, pattern) == NotMatch ::
      MatchQuery(y, pattern) != Match
  }

  lemma {:induction false} MatchingNone(paths: seq<string>, pattern: string)
    requires forall x | x in paths :: MatchQuery(x, pattern) != Match
    ensures Matching(paths, pattern) == []
  {
    hide MatchQuery;
    if paths != [] {
      MatchingNone(paths[..|paths| - 1], pattern);
    }
  }

  lemma {:induction false} MatchingFinds(paths: seq<string>, pattern: string, x: string)
    requires x in paths && MatchQuery(x, pattern) == Match
    ensures x in Matching(paths, pattern)
  {
    hide MatchQuery;
    var front, last := paths[..|paths| - 1], paths[|paths| - 1];
    assert paths == front + [last];
    if x != last {
      MatchingFinds(front, pattern, x);
    }
  }

  lemma {:induction false} SafeWalk(t: Tree, pattern: string)
    requires Safe(pattern) && Grown(t) && IsNodePath(t.path)
    ensures Watched(t, pattern) == Matching(Nodes(t), pattern)
    decreases t, |t.children| + 1
  {
    hide MatchQuery;
    if MatchQuery(t.path, pattern) == NotMatch {
      forall x | x in Nodes(t) ensures MatchQuery(x, pattern) != Match {
        NodesAreBelow(t, x);
      }
      MatchingNone(Nodes(t), pattern);
    } else {
      hide Safe;
      SafeWalkBelow(t, |t.children|, pattern);
      MatchingAppend(NodesBelow(t, |t.children|), [t.path], pattern);
      assert [t.path][..0] == [];
    }
  }

  lemma {:induction false} SafeWalkBelow(t: Tree, k: nat, pattern: string)
    requires Safe(pattern) && Grown(t) && IsNodePath(t.path) && k <= |t.children|
    ensures WatchedBelow(t, k, pattern) == Matching(NodesBelow(t, k), pattern)
    decreases t, k
  {
    hide MatchQuery, Safe;
    if k > 0 {
      SafeWalkBelow(t, k - 1, pattern);
      ChildIsNode(t.path, t.children[k - 1].path);
      SafeWalk(t.children[k - 1], pattern);
      MatchingAppend(NodesBelow(t, k - 1), Nodes(t.children[k - 1]), pattern);
    }
  }

  // The end of the name that begins at a place.
  function NameEnd(path: string, from: nat): (end: nat)
    requires from <= |path|
    ensures from <= end <= |path| && '/' !in path[from..end]
    ensures end < |path| ==> path[end] == '/'
    decreases |path| - from
  {
    if from == |path| || path[from] == '/' then from
    else
      var end := NameEnd(path, from + 1);
      assert path[from..end] == [path[from]] + path[from + 1..end];
      end
  }

  // The nodes from a path down to one below it.
  function Chain(top: string, path: string): (t: Tree)
    ensures t.path == top
    decreases |path| - |top|
  {
    if |top| + 1 >= |path| then Tree(top, [])
    else
      var next := path[..NameEnd(path, |top| + 1)];
      if |next| <= |top| then Tree(top, []) else Tree(top, [Chain(next, path)])
  }

  lemma ChainNext(top: string, path: string) returns (next: string)
    requires Below(top, path) && Clean(path)
    ensures Chain(top, path) == Tree(top, [Chain(next, path)])
    ensures IsChildPath(top, next) && (next == path || Below(next, path)) && |next| > |top|
    ensures forall x | Below(top, x) && Below(x, path) :: x == next || Below(next, x)
  {
    var end := NameEnd(path, |top| + 1);
    next := path[..end];
    assert path[|top|] == '/' && path[|top| + 1] != '/';
    assert end > |top| + 1;
    assert next[|top| + 1..] == path[|top| + 1..end];
    forall x | Below(top, x) && Below(x, path) ensures x == next || Below(next, x) {
      assert path[|x|] == '/' && x == path[..|x|];
      assert |x| >= end by {
        if |x| < end {
          NoneIn(path, |top| + 1, end, |x|);
        }
      }
      if |x| > end {
        assert x[end] == path[end];
        assert x[..end] == next;
      }
    }
  }

  lemma {:induction false} ChainGrown(top: string, path: string)
    requires (top == path || Below(top, path)) && Clean(path)
    ensures Grown(Chain(top, path)) && path in Nodes(Chain(top, path))
    decreases |path| - |top|
  {
    if top == path {
      assert Nodes(Chain(top, path)) == [path];
    } else {
      var next := ChainNext(top, path);
      var t := Chain(top, path);
      ChainGrown(next, path);
      assert t.children == [Chain(next, path)];
      assert NodesBelow(t, 1) == NodesBelow(t, 0) + Nodes(t.children[0]);
      hide Chain;
      assert path in NodesBelow(t, 1) && Nodes(t) == NodesBelow(t, 1) + [top];
    }
  }

  // Nothing is heard from below a node on the way that fails.
  lemma {:induction false} ChainPruned(top: string, x: string, path: string, pattern: string)
    requires (top == x || Below(top, x)) && Below(x, path) && Clean(path) && MatchQuery(x, pattern) == NotMatch
    ensures path !in Watched(Chain(top, path), pattern)
    decreases |path| - |top|
  {
    hide MatchQuery;
    var t := Chain(top, path);
    if top != x {
      BelowTransitive(top, x, path);
      var next := ChainNext(top, path);
      ChainPruned(next, x, path, pattern);
      assert t.children == [Chain(next, path)] && top != path;
      hide Chain, IsChildPath, Below, Clean;
      assert WatchedBelow(t, 1, pattern) == WatchedBelow(t, 0, pattern) + Watched(t.children[0], pattern);
    }
  }

  /** The pruned walk is the filter on every tree of data nodes exactly when no node below one
      that fails matches. */
  lemma WalkExact(pattern: string)
    ensures Safe(pattern) <==> forall t | IsDataTree(t) :: Watched(t, pattern) == Matching(Nodes(t), pattern)
  {
    hide MatchQuery, Watched, Matching, Nodes, Chain, Below, IsNodePath;
    if Safe(pattern) {
      forall t | IsDataTree(t) ensures Watched(t, pattern) == Matching(Nodes(t), pattern) {
        RootIsNode();
        SafeWalk(t, pattern);
      }
    } else {
      var x, y :| IsNodePath(x) && IsNodePath(y) && Below(x, y) && MatchQuery(x, pattern) == NotMatch && MatchQuery(y, pattern) == Match;
      UnderRoot(x);
      UnderRoot(y);
      var t := Chain(DATA, y);
      ChainGrown(DATA, y);
      ChainPruned(DATA, x, y, pattern);
      MatchingFinds(Nodes(t), pattern, y);
      assert IsDataTree(t);
    }
  }

  lemma RootIsNode()
    ensures IsNodePath(DATA)
  {
  }

  lemma UnderRoot(x: string)
    requires IsNodePath(x)
    ensures (x == DATA || Below(DATA, x)) && Clean(x)
  {
  }

  // ---------- which patterns ----------

  lemma {:induction false} UncleanLanguage(path: string, pattern: string)
    requires InLanguage(path, pattern) && !Clean(pattern)
    ensures !Clean(path)
    decreases |pattern|
  {
    if !Clean(pattern[1..]) {
      if pattern[0] == '?' {
        var k :| 0 <= k <= |path| && '/' !in path[..k] && InLanguage(path[k..], pattern[1..]);
        UncleanLanguage(path[k..], pattern[1..]);
        UncleanBehind(path, k);
      } else if pattern[0] == '*' {
        var k :| 0 <= k <= |path| && InLanguage(path[k..], pattern[1..]);
        UncleanLanguage(path[k..], pattern[1..]);
        UncleanBehind(path, k);
      } else {
        UncleanLanguage(path[1..], pattern[1..]);
        UncleanBehind(path, 1);
      }
    } else {
      UncleanFront(pattern);
      assert path[0] == '/';
      if |path| > 1 {
        assert InLanguage(path[1..], pattern[1..]) && pattern[1..] != "" && pattern[1..][0] == '/' && path[1..][0] == '/';
      }
    }
  }

  lemma UncleanBehind(path: string, k: nat)
    requires k <= |path| && !Clean(path[k..])
    ensures !Clean(path)
  {
    var i :| 0 <= i < |path[k..]| && path[k..][i] == '/' && !(i + 1 < |path[k..]| && path[k..][i + 1] != '/');
    assert path[k + i] == '/' && (k + i + 1 < |path| ==> path[k + i + 1] == path[k..][i + 1]);
  }

  lemma UncleanFront(pattern: string)
    requires !Clean(pattern) && (pattern == "" || Clean(pattern[1..]))
    ensures pattern != "" && pattern[0] == '/' && (|pattern| == 1 || pattern[1] == '/')
  {
    var i :| 0 <= i < |pattern| && pattern[i] == '/' && !(i + 1 < |pattern| && pattern[i + 1] != '/');
    assert forall j | 0 < j < |pattern| :: pattern[j] == pattern[1..][j - 1];
  }

  // A pattern with an empty name matches no node.
  lemma UncleanMatchesNone(pattern: string, path: string)
    requires !Clean(pattern) && IsNodePath(path)
    ensures MatchQuery(path, pattern) != Match
  {
    if MatchQuery(path, pattern) == Match {
      MatchIsInLanguage(path, pattern);
      UncleanLanguage(path, pattern);
    }
  }

  /** The root's path uses up this beginning of a pattern: character by character, or a '?'
      for the rest of a segment. */
  predicate Passes(path: string, front: string)
    decreases |front|
  {
    if front == "" then path == ""
    else if path != "" && path[0] == front[0] then Passes(path[1..], front[1..])
    else front[0] == '?' && Passes(path[Segment(path)..], front[1..])
  }

  lemma MatchStep(path: string, pattern: string)
    requires |path| > 1 && pattern != "" && path[0] == pattern[0]
    ensures MatchQuery(path, pattern) == MatchQuery(path[1..], pattern[1..])
  {
    hide MatchQuery, AtWildcard, Common;
    var n := Common(path, pattern);
    CommonStep(path, pattern);
    UpToWildcard(path, pattern);
    assert path[1..][n - 1..] == path[n..] && pattern[1..][n - 1..] == pattern[n..];
    if pattern[1..] != "" {
      UpToWildcard(path[1..], pattern[1..]);
    } else {
      PatternEnds(path[1..]);
    }
  }

  // What match_query does where path and pattern differ.
  function AtWildcard(p: string, q: string): MatchResult {
    if q == "" then AtEnd(p, q)
    else if q[0] == '?' then MatchQuery(p[Segment(p)..], q[1..])
    else if q[0] == '*' then (if |q| == 1 then Match else BestFrom(p, q[1..]))
    else AtEnd(p, q)
  }

  lemma UpToWildcard(path: string, pattern: string)
    requires path != "" && pattern != ""
    ensures var n := Common(path, pattern); MatchQuery(path, pattern) == AtWildcard(path[n..], pattern[n..])
  {
    hide Common, Segment, BestFrom;
  }

  lemma PatternEnds(path: string)
    ensures MatchQuery(path, "") == AtWildcard(path, "") && Common(path, "") == 0 && path[0..] == path
  {
  }

  lemma CommonStep(path: string, pattern: string)
    requires path != "" && pattern != "" && path[0] == pattern[0]
    ensures Common(path, pattern) == 1 + Common(path[1..], pattern[1..])
  {
  }

  lemma MarkStep(path: string, pattern: string)
    requires path != "" && pattern != "" && pattern[0] == '?' && path[0] != '?'
    ensures MatchQuery(path, pattern) == MatchQuery(path[Segment(path)..], pattern[1..])
  {
    assert Common(path, pattern) == 0 && path[0..] == path && pattern[0..] == pattern;
  }

  lemma {:induction false} SegmentStops(path: string, rest: string)
    requires rest != "" && rest[0] == '/'
    ensures Segment(path + rest) == Segment(path)
    decreases |path|
  {
    if path == "" {
      assert path + rest == rest;
    } else if path[0] != '/' {
      assert (path + rest)[1..] == path[1..] + rest;
      SegmentStops(path[1..], rest);
    }
  }

  // What is behind the root is matched against what is behind the beginning.
  lemma {:induction false} PassesOn(path: string, front: string, rest: string, pattern: string)
    requires Passes(path, front) && rest != "" && rest[0] == '/'
    ensures MatchQuery(path + rest, front + pattern) == MatchQuery(rest, pattern)
    decreases |front|
  {
    hide MatchQuery;
    if front == "" {
      assert path + rest == rest && front + pattern == pattern;
    } else if path != "" && path[0] == front[0] {
      MatchStep(path + rest, front + pattern);
      assert (path + rest)[1..] == path[1..] + rest && (front + pattern)[1..] == front[1..] + pattern;
      PassesOn(path[1..], front[1..], rest, pattern);
    } else {
      MarkStep(path + rest, front + pattern);
      SegmentStops(path, rest);
      var k := Segment(path);
      assert (path + rest)[k..] == path[k..] + rest && (front + pattern)[1..] == front[1..] + pattern;
      PassesOn(path[k..], front[1..], rest, pattern);
    }
  }

  // The root is never left out.
  lemma {:induction false} RootGoesOn(path: string, front: string, rest: string)
    requires Passes(path, front) && rest != "" && rest[0] == '/'
    ensures MatchQuery(path, front + rest) != NotMatch
    decreases |front|
  {
    if path != "" && front != "" {
      var pattern := front + rest;
      assert pattern[1..] == front[1..] + rest;
      if path[0] == front[0] {
        if |path| > 1 {
          hide MatchQuery;
          MatchStep(path, pattern);
          RootGoesOn(path[1..], front[1..], rest);
        } else {
          LastStep(path, front, rest);
        }
      } else {
        hide MatchQuery;
        MarkStep(path, pattern);
        RootGoesOn(path[Segment(path)..], front[1..], rest);
      }
    }
  }

  lemma LastStep(path: string, front: string, rest: string)
    requires Passes(path, front) && rest != "" && rest[0] == '/'
    requires |path| == 1 && front != "" && path[0] == front[0]
    ensures MatchQuery(path, front + rest) != NotMatch
  {
    var pattern := front + rest;
    assert pattern[1..] == front[1..] + rest;
    assert Passes("", front[1..]);
    assert Common(path, pattern) == 1;
    assert pattern[1..][0] != '*';
  }

  // ---------- a witness for a '*' inside ----------

  lemma CleanJoin(a: string, b: string)
    requires Clean(a) && Clean(b)
    ensures Clean(a + b)
  {
  }

  lemma CleanEnds(s: string, i: nat)
    requires Clean(s) && i <= |s|
    ensures Clean(s[i..]) && (i == 0 || s[i - 1] != '/' ==> Clean(s[..i]))
  {
  }

  lemma {:induction false} BestAtEnd(front: string, pattern: string)
    requires pattern != ""
    ensures BestFrom(front + pattern, pattern) == Match
  {
    if front == "" {
      assert front + pattern == pattern;
      MatchesItself(pattern);
    } else {
      hide MatchQuery;
      assert (front + pattern)[1..] == front[1..] + pattern;
      BestAtEnd(front[1..], pattern);
    }
  }

  // What is left behind the text in front of a '*'.
  lemma AtStar(pattern: string, i: nat, rest: string)
    requires i < |pattern| - 1 && pattern[i] == '*' && rest != "" && rest[0] != '*'
    ensures MatchQuery(pattern[..i] + rest, pattern) == BestFrom(rest, pattern[i + 1..])
  {
    var path := pattern[..i] + rest;
    hide Common;
    CommonIs(path, pattern, i);
    assert path[i..] == rest && pattern[i..][1..] == pattern[i + 1..];
  }

  // The name in front of the '*', or one more character if there is none.
  lemma FailingFront(pattern: string, i: nat) returns (path: string, left: string)
    requires Clean(pattern) && 0 < i < |pattern| - 1 && pattern[i] == '*'
    ensures path == pattern[..i] + left && Clean(path) && path != "" && (left == "" || left[0] != '*')
    ensures MatchQuery(path, pattern) == NotMatch
  {
    hide MatchQuery;
    if pattern[i - 1] != '/' {
      left := "";
      path := pattern[..i];
      assert path == path + left;
      CleanEnds(pattern, i);
      FrontFails(pattern, i);
    } else {
      var c := if pattern[i + 1] != 'a' then 'a' else 'b';
      left := [c];
      path := pattern[..i] + left;
      AtStar(pattern, i, left);
      assert BestFrom(left[1..], pattern[i + 1..]) == NotMatch;
      assert pattern[..i] == pattern[..i - 1] + "/";
      CleanEnds(pattern, i - 1);
      CleanJoin(pattern[..i - 1], "/" + left);
      assert path == pattern[..i - 1] + ("/" + left);
    }
  }

  lemma Overlooked(pattern: string) returns (x: string, y: string)
    requires Clean(pattern) && !StarLast(pattern) && pattern[0] == '/'
    ensures Clean(x) && Clean(y) && x != "" && x[0] == '/' && Below(x, y)
    ensures MatchQuery(x, pattern) == NotMatch && MatchQuery(y, pattern) == Match
  {
    hide MatchQuery, BestFrom;
    var i :| 0 <= i < |pattern| - 1 && pattern[i] == '*';
    var left;
    x, left := FailingFront(pattern, i);
    var tail := pattern[i + 1..];
    var front := if tail[0] == '/' then "" else "/";
    var more := front + tail;
    y := x + more;
    CleanEnds(pattern, i + 1);
    assert Clean(more) && more[0] == '/';
    CleanJoin(x, more);
    hide Clean;
    JoinThree(pattern[..i], left, more);
    AtStar(pattern, i, left + more);
    JoinThree(left, front, tail);
    BestAtEnd(left + front, tail);
  }

  lemma JoinThree(a: string, b: string, c: string)
    ensures a + b + c == a + (b + c)
  {
  }

  // ---------- patterns that begin with the root ----------

  lemma Rooted(x: string)
    requires x != "" && x[0] == '/' && Clean(x)
    ensures IsNodePath(DATA + x)
  {
    CleanJoin(DATA, x);
  }

  lemma BehindRoot(x: string) returns (s: string)
    requires IsNodePath(x)
    ensures x == DATA + s && Clean(s) && (s == "" || s[0] == '/')
  {
    s := x[|DATA|..];
    CleanEnds(x, |DATA|);
  }

  /** For a pattern whose beginning the root's path uses up: right on every tree exactly if the
      only '*' of the rest is its last character, or the rest has an empty name. */
  lemma RootedExact(front: string, rest: string)
    requires Passes(DATA, front) && rest != "" && rest[0] == '/'
    ensures Safe(front + rest) <==> StarLast(rest) || !Clean(rest)
  {
    hide MatchQuery, Passes;
    var pattern := front + rest;
    if StarLast(rest) || !Clean(rest) {
      forall x, y | IsNodePath(x) && IsNodePath(y) && Below(x, y) && MatchQuery(x, pattern) == NotMatch
        ensures MatchQuery(y, pattern) != Match
      {
        RootedSafe(front, rest, x, y);
      }
    } else {
      var x, y := Overlooked(rest);
      assert y[0] == x[0];
      Rooted(x);
      Rooted(y);
      PassesOn(DATA, front, x, rest);
      PassesOn(DATA, front, y, rest);
      BelowRooted(x, y);
    }
  }

  lemma BelowRooted(x: string, y: string)
    ensures Below(x, y) <==> Below(DATA + x, DATA + y)
  {
    assert (DATA + x)[|DATA|..] == x && (DATA + y)[|DATA|..] == y;
    if Below(DATA + x, DATA + y) {
      assert (DATA + y)[..|DATA + x|] == DATA + x;
      assert y[..|x|] == (DATA + y)[..|DATA + x|][|DATA|..];
      assert (DATA + y)[|DATA + x|] == y[|x|];
    }
  }

  lemma RootedSafe(front: string, rest: string, x: string, y: string)
    requires Passes(DATA, front) && rest != "" && rest[0] == '/' && (StarLast(rest) || !Clean(rest))
    requires IsNodePath(x) && IsNodePath(y) && Below(x, y) && MatchQuery(x, front + rest) == NotMatch
    ensures MatchQuery(y, front + rest) != Match
  {
    hide MatchQuery, Passes, IsNodePath;
    var u := BehindRoot(x);
    var v := BehindRoot(y);
    BelowRooted(u, v);
    if u == "" {
      assert DATA + u == DATA;
      RootGoesOn(DATA, front, rest);
    } else {
      PassesOn(DATA, front, u, rest);
      PassesOn(DATA, front, v, rest);
      if StarLast(rest) {
        assert v == u + v[|u|..];
        NoMatchBelow(u, v[|u|..], rest);
      } else if MatchQuery(v, rest) == Match {
        MatchIsInLanguage(v, rest);
        UncleanLanguage(v, rest);
      }
    }
  }

  /** The usual case. */
  lemma DataPatternExact(rest: string)
    requires rest != "" && rest[0] == '/'
    ensures (forall t | IsDataTree(t) :: Watched(t, DATA + rest) == Matching(Nodes(t), DATA + rest)) <==> StarLast(rest) || !Clean(rest)
  {
    hide MatchQuery, Watched, Matching, Nodes, IsDataTree;
    DataPasses();
    RootedExact(DATA, rest);
    WalkExact(DATA + rest);
  }

  lemma DataPasses()
    ensures Passes(DATA, DATA) && Passes(DATA, "/?") && Passes(DATA, "?/data")
  {
    assert DATA[1..] == "data" && Segment("data") == 4 by {
      assert Segment("a") == 1 && Segment("ta") == 2 && Segment("ata") == 3;
    }
    assert Passes("", "") && Passes("a", "a") && Passes("ta", "ta") && Passes("ata", "ata") && Passes("data", "data");
  }

  // ---------- other patterns ----------

  /** Another text before any wildcard: nothing is watched and nothing matches. */
  lemma ForeignPattern(pattern: string, n: nat)
    requires n < |DATA| && n < |pattern| && pattern[..n] == DATA[..n]
    requires pattern[n] != DATA[n] && pattern[n] != '?' && pattern[n] != '*'
    ensures Safe(pattern) && forall x | IsNodePath(x) :: MatchQuery(x, pattern) == NotMatch
  {
    hide MatchQuery;
    forall x | IsNodePath(x) ensures MatchQuery(x, pattern) == NotMatch {
      assert x[..n] == DATA[..n] && x[n] == DATA[n];
      Differs(x, pattern, n);
    }
  }

  lemma Differs(path: string, pattern: string, n: nat)
    requires n < |path| && n < |pattern| && path[..n] == pattern[..n]
    requires path[n] != pattern[n] && pattern[n] != '?' && pattern[n] != '*'
    ensures MatchQuery(path, pattern) == NotMatch
  {
    assert forall i | 0 <= i < n :: path[i] == path[..n][i] && pattern[i] == pattern[..n][i];
    hide Common;
    CommonIs(path, pattern, n);
  }

  /** A '*' that the root's path reaches, and fails: nothing is watched, and that is right
      exactly if what follows has an empty name. */
  lemma FailingRoot(pattern: string, n: nat)
    requires n <= |DATA| && n < |pattern| - 1 && pattern[..n] == DATA[..n] && pattern[n] == '*'
    requires MatchQuery(DATA, pattern) == NotMatch
    ensures Safe(pattern) <==> !Clean(pattern[n + 1..])
  {
    hide MatchQuery, IsNodePath;
    if Clean(pattern[n + 1..]) {
      hide Clean;
      var y := MissedBelow(pattern, n);
      RootIsNode();
    } else {
      UncleanBehind(pattern, n + 1);
      forall y | IsNodePath(y) ensures MatchQuery(y, pattern) != Match {
        UncleanMatchesNone(pattern, y);
      }
    }
  }

  lemma MissedBelow(pattern: string, n: nat) returns (y: string)
    requires n <= |DATA| && n < |pattern| - 1 && pattern[..n] == DATA[..n] && pattern[n] == '*' && Clean(pattern[n + 1..])
    ensures IsNodePath(y) && Below(DATA, y) && MatchQuery(y, pattern) == Match
  {
    hide MatchQuery, BestFrom;
    var tail := pattern[n + 1..];
    var front := if tail[0] == '/' then "" else "/";
    var more := front + tail;
    assert Clean(more) && more[0] == '/';
    hide Clean;
    y := DATA + more;
    Rooted(more);
    assert y[|DATA|] == '/';
    JoinThree(pattern[..n], DATA[n..], more);
    assert pattern[..n] + DATA[n..] == DATA;
    AtStar(pattern, n, DATA[n..] + more);
    JoinThree(DATA[n..], front, tail);
    BestAtEnd(DATA[n..] + front, tail);
  }

  // A '*' that the root's path reaches and passes: right or wrong.
  lemma PassingRoot()
    ensures !StarLast("/*a*") && MatchQuery(DATA, "/*a*") == Match && Safe("/*a*")
    ensures !StarLast("*a/x") && MatchQuery(DATA, "*a/x") == PartialMatch && !Safe("*a/x")
  {
    hide MatchQuery;
    RootIsNode();
    assert "/*a*"[1] == '*' && "*a/x"[0] == '*';
    forall x | IsNodePath(x) ensures MatchQuery(x, "/*a*") == Match {
      AlwaysMatches(x);
    }
    var x, y := "/data/z", "/data/z/a/x";
    assert IsNodePath(x) && IsNodePath(y) && Below(x, y);
    RootIsPartial();
    ChildFails();
    LeafMatches();
  }

  lemma AlwaysMatches(x: string)
    requires IsNodePath(x)
    ensures MatchQuery(x, "/*a*") == Match
  {
    assert x[0] == '/' && x[1] == 'd' && x[2] == 'a' && x[3] == 't';
    AtStar("/*a*", 1, x[1..]);
    assert "/*a*"[..1] + x[1..] == x && "/*a*"[2..] == "a*";
    hide MatchQuery;
    BestBehind(x[1..], "a*");
    BestHere(x[2..], "a*");
    MatchStep(x[2..], "a*");
    FinalStar(x[3..]);
    assert x[1..][1..] == x[2..] && x[2..][1..] == x[3..] && "a*"[1..] == "*";
  }

  lemma FinalStar(path: string)
    requires path != "" && path[0] != '*'
    ensures MatchQuery(path, "*") == Match
  {
    assert Common(path, "*") == 0 && "*"[0..] == "*";
  }

  lemma BestBehind(path: string, pattern: string)
    requires path != "" && pattern != "" && path[0] != pattern[0]
    ensures BestFrom(path, pattern) == BestFrom(path[1..], pattern)
  {
  }

  lemma BestHere(path: string, pattern: string)
    requires path != "" && pattern != "" && path[0] == pattern[0]
    ensures BestFrom(path, pattern) == Better(MatchQuery(path, pattern), BestFrom(path[1..], pattern))
  {
  }

  lemma RootIsPartial()
    ensures MatchQuery("/data", "*a/x") == PartialMatch
  {
    LastOfRoot();
    FromStar("/data");
    hide MatchQuery, BestFrom;
    BestInData("");
    assert "a" + "" == "a" && "/data" + "" == "/data";
  }

  lemma LastOfRoot()
    ensures BestFrom("a", "a/x") == PartialMatch
  {
    BestHere("a", "a/x");
    assert "a"[1..] == "" && "a/x"[1..] == "/x";
    assert Common("a", "a/x") == 1;
  }

  lemma ChildFails()
    ensures MatchQuery("/data/z", "*a/x") == NotMatch
  {
    hide MatchQuery;
    FromStar("/data/z");
    BestInData("/z");
    assert "a" + "/z" == "a/z" && "/data" + "/z" == "/data/z";
    BestHere("a/z", "a/x");
    Differs("a/z", "a/x", 2);
    BestBehind("/z", "a/x");
    BestBehind("z", "a/x");
    assert "a/z"[1..] == "/z" && "/z"[1..] == "z" && "z"[1..] == "";
  }

  lemma LeafMatches()
    ensures MatchQuery("/data/z/a/x", "*a/x") == Match
  {
    hide MatchQuery, BestFrom;
    FromStar("/data/z/a/x");
    BestAtEnd("/data/z/", "a/x");
    assert "/data/z/" + "a/x" == "/data/z/a/x";
  }

  lemma FromStar(path: string)
    requires path != "" && path[0] != '*'
    ensures MatchQuery(path, "*a/x") == BestFrom(path, "a/x")
  {
    AtStar("*a/x", 0, path);
    assert "*a/x"[..0] + path == path && "*a/x"[1..] == "a/x";
  }

  // Of the two places in the root's path the first fails.
  lemma BestInData(rest: string)
    ensures BestFrom("/data" + rest, "a/x") == BestFrom("a" + rest, "a/x")
  {
    hide MatchQuery, BestFrom;
    BestBehind("/data" + rest, "a/x");
    BestBehind("data" + rest, "a/x");
    BestHere("ata" + rest, "a/x");
    Differs("ata" + rest, "a/x", 1);
    BestBehind("ta" + rest, "a/x");
    assert ("/data" + rest)[1..] == "data" + rest && ("data" + rest)[1..] == "ata" + rest;
    assert ("ata" + rest)[1..] == "ta" + rest && ("ta" + rest)[1..] == "a" + rest;
  }
}
