/** A running query (broker/src/query/query.c) while the tree grows: where it listens for new
    children, and that it comes to listen where a walk over the grown tree would. */
module QueryGrowth {
  import opened Query

  // ---------- where it listens for children ----------

  // All nodes, parents first.
  function TopDown(t: Tree): seq<string>
    decreases t, |t.children| + 1
  {
    [t.path] + TopDownBelow(t, |t.children|)
  }

  function TopDownBelow(t: Tree, k: nat): seq<string>
    requires k <= |t.children|
    decreases t, k
  {
    if k == 0 then [] else TopDownBelow(t, k - 1) + TopDown(t.children[k - 1])
  }

  // The paths that match or may have a match below.
  function Promising(paths: seq<string>, pattern: string): seq<string> {
    if paths == [] then []
    else
      var last := paths[|paths| - 1];
      Promising(paths[..|paths| - 1], pattern) + (if MatchQuery(last, pattern) != NotMatch then [last] else [])
  }

  lemma {:induction false} PromisingAppend(a: seq<string>, b: seq<string>, pattern: string)
    ensures Promising(a + b, pattern) == Promising(a, pattern) + Promising(b, pattern)
  {
    hide MatchQuery;
    if b == [] {
      assert a + b == a;
    } else {
      assert (a + b)[..|a + b| - 1] == a + b[..|b| - 1];
      PromisingAppend(a, b[..|b| - 1], pattern);
    }
  }

  lemma PromisingOne(path: string, pattern: string)
    ensures Promising([path], pattern) == if MatchQuery(path, pattern) != NotMatch then [path] else []
  {
    hide MatchQuery;
    assert [path][..0] == [];
  }

  lemma {:induction false} NonePromising(t: Tree, above: string, pattern: string)
    requires StarLast(pattern) && WellFormed(t) && above <= t.path && MatchQuery(above, pattern) == NotMatch
    ensures Promising(TopDown(t), pattern) == []
    decreases t, |t.children| + 1
  {
    hide MatchQuery, StarLast;
    var rest := t.path[|above|..];
    assert t.path == above + rest;
    NoMatchBelow(above, rest, pattern);
    NonePromisingBelow(t, |t.children|, pattern);
    PromisingOne(t.path, pattern);
    PromisingAppend([t.path], TopDownBelow(t, |t.children|), pattern);
  }

  lemma {:induction false} NonePromisingBelow(t: Tree, k: nat, pattern: string)
    requires StarLast(pattern) && WellFormed(t) && MatchQuery(t.path, pattern) == NotMatch && k <= |t.children|
    ensures Promising(TopDownBelow(t, k), pattern) == []
    decreases t, k
  {
    hide MatchQuery, StarLast;
    if k > 0 {
      NonePromisingBelow(t, k - 1, pattern);
      NonePromising(t.children[k - 1], t.path, pattern);
      PromisingAppend(TopDownBelow(t, k - 1), TopDown(t.children[k - 1]), pattern);
    }
  }

  /** It listens for new children at exactly the nodes of the whole tree whose paths match, or
      may have a match below them, parents first. */
  lemma {:induction false} EnteredIsFilter(t: Tree, pattern: string)
    requires StarLast(pattern) && WellFormed(t)
    ensures Entered(t, pattern) == Promising(TopDown(t), pattern)
    decreases t, |t.children| + 1
  {
    hide MatchQuery, StarLast;
    if MatchQuery(t.path, pattern) == NotMatch {
      NonePromising(t, t.path, pattern);
    } else {
      EnteredBelowIsFilter(t, |t.children|, pattern);
      PromisingOne(t.path, pattern);
      PromisingAppend([t.path], TopDownBelow(t, |t.children|), pattern);
    }
  }

  lemma {:induction false} EnteredBelowIsFilter(t: Tree, k: nat, pattern: string)
    requires StarLast(pattern) && WellFormed(t) && k <= |t.children|
    ensures EnteredBelow(t, k, pattern) == Promising(TopDownBelow(t, k), pattern)
    decreases t, k
  {
    hide MatchQuery, StarLast;
    if k > 0 {
      EnteredBelowIsFilter(t, k - 1, pattern);
      EnteredIsFilter(t.children[k - 1], pattern);
      PromisingAppend(TopDownBelow(t, k - 1), TopDown(t.children[k - 1]), pattern);
    }
  }

  // Both orders list the same nodes.
  lemma {:induction false} SameNodes(t: Tree)
    ensures multiset(TopDown(t)) == multiset(Nodes(t))
    decreases t, |t.children| + 1
  {
    SameNodesBelow(t, |t.children|);
  }

  lemma {:induction false} SameNodesBelow(t: Tree, k: nat)
    requires k <= |t.children|
    ensures multiset(TopDownBelow(t, k)) == multiset(NodesBelow(t, k))
    decreases t, k
  {
    if k > 0 {
      SameNodesBelow(t, k - 1);
      SameNodes(t.children[k - 1]);
    }
  }

  lemma {:induction false} SegmentUpTo(path: string, rest: string)
    requires rest != "" && rest[0] == '/' && Segment(path) == |path|
    ensures Segment(path + rest) == |path|
  {
    if path == "" {
      assert path + rest == rest;
    } else {
      assert (path + rest)[1..] == path[1..] + rest;
      SegmentUpTo(path[1..], rest);
    }
  }

  lemma SegmentedBehind(pattern: string, n: nat)
    requires Segmented(pattern) && StarLast(pattern) && n < |pattern|
    ensures Segmented(pattern[n + 1..]) && StarLast(pattern[n + 1..])
    ensures pattern[n] == '?' && n + 1 < |pattern| ==> pattern[n + 1..][0] == '/'
  {
  }

  /** A partial match has a match below it: the rest of the pattern, from where the path is
      used up. */
  lemma {:induction false} PartialGoesOn(path: string, pattern: string) returns (rest: string)
    requires StarLast(pattern) && Segmented(pattern) && MatchQuery(path, pattern) == PartialMatch
    ensures rest != "" && MatchQuery(path + rest, pattern) == Match
    decreases |pattern|
  {
    hide MatchQuery, Common, Segment, StarLast, Segmented;
    if path == "" {
      rest := pattern;
      PartialOfNothing(pattern);
      MatchesItself(pattern);
      assert path + rest == pattern;
    } else {
      var n := Common(path, pattern);
      PartialAt(path, pattern);
      var p, q := path[n..], pattern[n..];
      if q[0] == '?' {
        SegmentedBehind(pattern, n);
        assert q[1..] == pattern[n + 1..];
        AtMark(path, pattern);
        var k := Segment(p);
        if k < |p| {
          rest := PartialGoesOn(p[k..], q[1..]);
          CommonExtends(path, rest, pattern);
          SegmentExtends(p, rest);
          Behind(path, rest, n);
          Behind(p, rest, k);
        } else {
          rest := q[1..];
          assert p[k..] == "";
          PartialOfNothing(rest);
          MarkReached(path, rest, pattern);
          SegmentUpTo(p, rest);
          Behind(path, rest, n);
          assert (p + rest)[k..] == rest;
          MatchesItself(rest);
        }
        AtMark(path + rest, pattern);
      } else {
        rest := q;
        assert path + rest == pattern;
        MatchesItself(pattern);
      }
    }
  }

  lemma PartialOfNothing(pattern: string)
    requires MatchQuery("", pattern) == PartialMatch
    ensures pattern != ""
  {
  }

  // Where a path is used up, or a '?' goes on.
  lemma PartialAt(path: string, pattern: string)
    requires path != "" && StarLast(pattern) && MatchQuery(path, pattern) == PartialMatch
    ensures pattern != "" && Common(path, pattern) < |pattern|
    ensures pattern[Common(path, pattern)] == '?' || Common(path, pattern) == |path|
  {
    hide Common, Segment;
  }

  lemma MarkReached(path: string, rest: string, pattern: string)
    requires path != "" && rest != "" && rest[0] == '/'
    requires var n := Common(path, pattern); n < |pattern| && pattern[n] == '?'
    ensures Common(path + rest, pattern) == Common(path, pattern)
  {
    var n := Common(path, pattern);
    assert forall i | 0 <= i < n :: path[i] == path[..n][i] && pattern[i] == pattern[..n][i];
    CommonIs(path + rest, pattern, n);
  }

  /** So it listens for new children at exactly those paths that a match can begin with. */
  lemma ListeningExact(path: string, pattern: string)
    requires StarLast(pattern) && Segmented(pattern)
    ensures MatchQuery(path, pattern) != NotMatch <==> exists rest :: MatchQuery(path + rest, pattern) == Match
  {
    hide MatchQuery, Segmented, StarLast;
    if MatchQuery(path, pattern) == NotMatch {
      forall rest ensures MatchQuery(path + rest, pattern) != Match {
        NoMatchBelow(path, rest, pattern);
      }
    } else if MatchQuery(path, pattern) == PartialMatch {
      var rest := PartialGoesOn(path, pattern);
    } else {
      assert path + "" == path;
    }
  }

  // ---------- growing ----------

  // The node found by going down to children by their places.
  predicate IsPlace(t: Tree, place: seq<nat>)
    decreases |place|
  {
    place == [] || (place[0] < |t.children| && IsPlace(t.children[place[0]], place[1..]))
  }

  function NodeAt(t: Tree, place: seq<nat>): Tree
    requires IsPlace(t, place)
    decreases |place|
  {
    if place == [] then t else NodeAt(t.children[place[0]], place[1..])
  }

  // The tree with one more child, and what is below it, at a node.
  function Grown(t: Tree, place: seq<nat>, child: Tree): (g: Tree)
    requires IsPlace(t, place)
    ensures g.path == t.path
    decreases |place|
  {
    if place == [] then t.(children := t.children + [child])
    else t.(children := t.children[place[0] := Grown(t.children[place[0]], place[1..], child)])
  }

  // The walk comes to the node and listens there for new children.
  predicate Listens(t: Tree, place: seq<nat>, pattern: string)
    requires IsPlace(t, place)
    decreases |place|
  {
    MatchQuery(t.path, pattern) != NotMatch && (place == [] || Listens(t.children[place[0]], place[1..], pattern))
  }

  lemma {:induction false} ListensIsEntered(t: Tree, place: seq<nat>, pattern: string)
    requires IsPlace(t, place) && Listens(t, place, pattern)
    ensures NodeAt(t, place).path in Entered(t, pattern)
    decreases |place|
  {
    hide MatchQuery;
    if place != [] {
      ListensIsEntered(t.children[place[0]], place[1..], pattern);
      InBelow(t, |t.children|, place[0], NodeAt(t, place).path, pattern);
    }
  }

  lemma {:induction false} InBelow(t: Tree, k: nat, i: nat, path: string, pattern: string)
    requires i < k <= |t.children| && path in Entered(t.children[i], pattern)
    ensures path in EnteredBelow(t, k, pattern)
    decreases k
  {
    hide Entered;
    if i < k - 1 {
      InBelow(t, k - 1, i, path, pattern);
    }
  }

  // With the only '*' at the end it listens wherever the path itself is promising.
  lemma {:induction false} ListensExact(t: Tree, place: seq<nat>, pattern: string)
    requires StarLast(pattern) && WellFormed(t) && IsPlace(t, place)
    ensures Listens(t, place, pattern) <==> MatchQuery(NodeAt(t, place).path, pattern) != NotMatch
    ensures t.path <= NodeAt(t, place).path
    decreases |place|
  {
    hide MatchQuery, StarLast;
    if place != [] {
      ListensExact(t.children[place[0]], place[1..], pattern);
      var path := NodeAt(t, place).path;
      if MatchQuery(t.path, pattern) == NotMatch {
        NoMatchBelow(t.path, path[|t.path|..], pattern);
        assert path == t.path + path[|t.path|..];
      }
    }
  }

  // ---------- the walk over a grown tree ----------

  lemma {:induction false} SameBelow(t: Tree, g: Tree, k: nat, pattern: string)
    requires k <= |t.children| && k <= |g.children| && g.children[..k] == t.children[..k]
    ensures EnteredBelow(g, k, pattern) == EnteredBelow(t, k, pattern)
    ensures WatchedBelow(g, k, pattern) == WatchedBelow(t, k, pattern)
    decreases k
  {
    hide Entered, Watched;
    if k > 0 {
      assert g.children[..k - 1] == g.children[..k][..k - 1] && t.children[..k - 1] == t.children[..k][..k - 1];
      assert g.children[k - 1] == g.children[..k][k - 1] && t.children[k - 1] == t.children[..k][k - 1];
      SameBelow(t, g, k - 1, pattern);
    }
  }

  lemma Shuffle(a: multiset<string>, b: multiset<string>, c: multiset<string>)
    ensures a + b + c == a + c + b && a + (c + b) == a + c + b && a + multiset{} == a
  {
  }

  // One child in place of another.
  lemma {:induction false} OneEntered(t: Tree, g: Tree, i: nat, k: nat, pattern: string, more: multiset<string>)
    requires i < |t.children| == |g.children| && k <= |t.children| && g.children == t.children[i := g.children[i]]
    requires multiset(Entered(g.children[i], pattern)) == multiset(Entered(t.children[i], pattern)) + more
    ensures multiset(EnteredBelow(g, k, pattern)) == multiset(EnteredBelow(t, k, pattern)) + (if i < k then more else multiset{})
    decreases k
  {
    hide Entered;
    if k > 0 {
      OneEntered(t, g, i, k - 1, pattern, more);
      LastEntered(t, k, pattern);
      LastEntered(g, k, pattern);
      Shuffle(multiset(EnteredBelow(t, k - 1, pattern)), more, multiset(Entered(t.children[k - 1], pattern)));
      hide EnteredBelow;
      assert i != k - 1 ==> g.children[k - 1] == t.children[k - 1];
    }
  }

  lemma LastEntered(t: Tree, k: nat, pattern: string)
    requires 0 < k <= |t.children|
    ensures multiset(EnteredBelow(t, k, pattern)) == multiset(EnteredBelow(t, k - 1, pattern)) + multiset(Entered(t.children[k - 1], pattern))
  {
    hide Entered;
  }

  // The same for values.
  lemma {:induction false} OneWatched(t: Tree, g: Tree, i: nat, k: nat, pattern: string, more: multiset<string>)
    requires i < |t.children| == |g.children| && k <= |t.children| && g.children == t.children[i := g.children[i]]
    requires multiset(Watched(g.children[i], pattern)) == multiset(Watched(t.children[i], pattern)) + more
    ensures multiset(WatchedBelow(g, k, pattern)) == multiset(WatchedBelow(t, k, pattern)) + (if i < k then more else multiset{})
    decreases k
  {
    hide Watched;
    if k > 0 {
      OneWatched(t, g, i, k - 1, pattern, more);
      LastWatched(t, k, pattern);
      LastWatched(g, k, pattern);
      Shuffle(multiset(WatchedBelow(t, k - 1, pattern)), more, multiset(Watched(t.children[k - 1], pattern)));
      hide WatchedBelow;
      assert i != k - 1 ==> g.children[k - 1] == t.children[k - 1];
    }
  }

  lemma LastWatched(t: Tree, k: nat, pattern: string)
    requires 0 < k <= |t.children|
    ensures multiset(WatchedBelow(t, k, pattern)) == multiset(WatchedBelow(t, k - 1, pattern)) + multiset(Watched(t.children[k - 1], pattern))
  {
    hide Watched;
  }

  lemma EnteredHere(t: Tree, pattern: string)
    ensures multiset(Entered(t, pattern)) ==
            if MatchQuery(t.path, pattern) == NotMatch then multiset{}
            else multiset{t.path} + multiset(EnteredBelow(t, |t.children|, pattern))
  {
    hide MatchQuery, EnteredBelow;
  }

  lemma WatchedHere(t: Tree, pattern: string)
    ensures multiset(Watched(t, pattern)) ==
            if MatchQuery(t.path, pattern) == NotMatch then multiset{}
            else multiset(WatchedBelow(t, |t.children|, pattern)) + (if MatchQuery(t.path, pattern) == Match then multiset{t.path} else multiset{})
  {
    hide MatchQuery, WatchedBelow;
  }

  // What a walk over the child adds, if the query hears of it.
  function MoreEntered(t: Tree, place: seq<nat>, child: Tree, pattern: string): multiset<string>
    requires IsPlace(t, place)
  {
    if Listens(t, place, pattern) then multiset(Entered(child, pattern)) else multiset{}
  }

  function MoreWatched(t: Tree, place: seq<nat>, child: Tree, pattern: string): multiset<string>
    requires IsPlace(t, place)
  {
    if Listens(t, place, pattern) then multiset(Watched(child, pattern)) else multiset{}
  }

  lemma {:induction false} EnteredGrowth(t: Tree, place: seq<nat>, child: Tree, pattern: string)
    requires IsPlace(t, place)
    ensures multiset(Entered(Grown(t, place, child), pattern)) == multiset(Entered(t, pattern)) + MoreEntered(t, place, child, pattern)
    decreases |place|
  {
    hide MatchQuery, Entered, EnteredBelow;
    var g, n := Grown(t, place, child), |t.children|;
    EnteredHere(t, pattern);
    EnteredHere(g, pattern);
    if place == [] {
      assert g.children[..n] == t.children[..n];
      SameBelow(t, g, n, pattern);
      LastEntered(g, n + 1, pattern);
    } else {
      EnteredGrowth(t.children[place[0]], place[1..], child, pattern);
      OneEntered(t, g, place[0], n, pattern, MoreEntered(t.children[place[0]], place[1..], child, pattern));
    }
  }

  lemma {:induction false} WatchedGrowth(t: Tree, place: seq<nat>, child: Tree, pattern: string)
    requires IsPlace(t, place)
    ensures multiset(Watched(Grown(t, place, child), pattern)) == multiset(Watched(t, pattern)) + MoreWatched(t, place, child, pattern)
    decreases |place|
  {
    hide MatchQuery, Watched, WatchedBelow;
    var g, n := Grown(t, place, child), |t.children|;
    WatchedHere(t, pattern);
    WatchedHere(g, pattern);
    if place == [] {
      assert g.children[..n] == t.children[..n];
      SameBelow(t, g, n, pattern);
      LastWatched(g, n + 1, pattern);
    } else {
      WatchedGrowth(t.children[place[0]], place[1..], child, pattern);
      OneWatched(t, g, place[0], n, pattern, MoreWatched(t.children[place[0]], place[1..], child, pattern));
    }
  }

  /** When a node gets a child, walking the grown tree makes the listeners of walking the old
      one and, if the query listens at the node, those of walking the child. */
  lemma GrowthExact(t: Tree, place: seq<nat>, child: Tree, pattern: string)
    requires IsPlace(t, place)
    ensures var g := Grown(t, place, child);
            && multiset(Entered(g, pattern)) == multiset(Entered(t, pattern)) + (if Listens(t, place, pattern) then multiset(Entered(child, pattern)) else multiset{})
            && multiset(Watched(g, pattern)) == multiset(Watched(t, pattern)) + (if Listens(t, place, pattern) then multiset(Watched(child, pattern)) else multiset{})
  {
    EnteredGrowth(t, place, child, pattern);
    WatchedGrowth(t, place, child, pattern);
  }

  // ---------- whole histories ----------

  datatype Addition = Addition(place: seq<nat>, child: Tree)

  predicate CanGrow(t: Tree, adds: seq<Addition>)
    decreases |adds|
  {
    adds == [] || (IsPlace(t, adds[0].place) && CanGrow(Grown(t, adds[0].place, adds[0].child), adds[1..]))
  }

  function GrownBy(t: Tree, adds: seq<Addition>): Tree
    requires CanGrow(t, adds)
    decreases |adds|
  {
    if adds == [] then t else GrownBy(Grown(t, adds[0].place, adds[0].child), adds[1..])
  }

  // What the query does at each addition it hears of, one after the other.
  function Heard(t: Tree, adds: seq<Addition>, pattern: string): (r: (multiset<string>, multiset<string>))
    requires CanGrow(t, adds)
    decreases |adds|
  {
    if adds == [] then (multiset{}, multiset{})
    else
      var c := adds[0].child;
      var (entered, watched) := Heard(Grown(t, adds[0].place, c), adds[1..], pattern);
      if Listens(t, adds[0].place, pattern)
      then (multiset(Entered(c, pattern)) + entered, multiset(Watched(c, pattern)) + watched)
      else (entered, watched)
  }

  /** However the tree has grown since the query was started, it listens exactly where it would
      if it were started on the tree as it is now. */
  lemma {:induction false} HistoryExact(t: Tree, adds: seq<Addition>, pattern: string)
    requires CanGrow(t, adds)
    ensures var g, (entered, watched) := GrownBy(t, adds), Heard(t, adds, pattern);
            && multiset(Entered(t, pattern)) + entered == multiset(Entered(g, pattern))
            && multiset(Watched(t, pattern)) + watched == multiset(Watched(g, pattern))
    decreases |adds|
  {
    hide Entered, Watched, Listens, Grown;
    if adds != [] {
      var g := Grown(t, adds[0].place, adds[0].child);
      GrowthExact(t, adds[0].place, adds[0].child, pattern);
      HistoryExact(g, adds[1..], pattern);
    }
  }
}
