/** The wildcard queries of broker/src/query/query.c: what a pattern matches, and why the walk
    may leave out the subtree of a path that does not match. */
module Query {

  datatype MatchResult = NotMatch | PartialMatch | Match

  // How many characters agree from the start.
  function Common(path: string, pattern: string): (n: nat)
    ensures n <= |path| && n <= |pattern| && path[..n] == pattern[..n]
    ensures n < |path| && n < |pattern| ==> path[n] != pattern[n]
  {
    if path == "" || pattern == "" || path[0] != pattern[0] then 0 else 1 + Common(path[1..], pattern[1..])
  }

  // How far a '?' reaches: to the next slash, if there is one.
  function Segment(path: string): (n: nat)
    ensures n <= |path|
    ensures forall i | 0 <= i < n :: path[i] != '/'
    ensures n < |path| ==> path[n] == '/'
  {
    if path == "" || path[0] == '/' then 0 else 1 + Segment(path[1..])
  }

  function AtEnd(path: string, pattern: string): MatchResult {
    if path == "" then (if pattern == "" then Match else PartialMatch) else NotMatch
  }

  function Better(x: MatchResult, y: MatchResult): MatchResult {
    if x.Match? || y.Match? then Match else if x.PartialMatch? || y.PartialMatch? then PartialMatch else NotMatch
  }

  // match_query
  function MatchQuery(path: string, pattern: string): MatchResult
    decreases |pattern|, |path|, 0
  {
    if path == "" || pattern == "" then AtEnd(path, pattern)
    else
      var n := Common(path, pattern);
      var p, q := path[n..], pattern[n..];
      if q == "" then AtEnd(p, q)
      else if q[0] == '?' then MatchQuery(p[Segment(p)..], q[1..])
      else if q[0] == '*' then (if |q| == 1 then Match else BestFrom(p, q[1..]))
      else AtEnd(p, q)
  }

  // The best of all places behind a '*' that start with the next character.
  function BestFrom(path: string, pattern: string): MatchResult
    requires pattern != ""
    decreases |pattern|, |path|, 1
  {
    if path == "" then NotMatch
    else Better(if path[0] == pattern[0] then MatchQuery(path, pattern) else NotMatch, BestFrom(path[1..], pattern))
  }

  /** match_query, with the path and the pattern as the two pointers see them. */
  method Matches(path: string, pattern: string) returns (r: MatchResult)
    ensures r == MatchQuery(path, pattern)
    decreases |pattern|, |path|, 0
  {
    var p, q := path, pattern;
    while p != "" && q != ""
      invariant MatchQuery(p, q) == MatchQuery(path, pattern) && |q| <= |pattern|
      decreases |q|
    {
      ghost var p0, q0 := p, q;
      p, q := SkipCommon(p, q);
      if q == "" {
        return AtEnd(p, q);
      } else if q[0] == '?' {
        q := q[1..];
        p := SkipSegment(p);
      } else if q[0] == '*' {
        q := q[1..];
        if q == "" { return Match; }
        r := BestMatch(p, q);
        return;
      } else {
        return AtEnd(p, q);
      }
    }
    r := AtEnd(p, q);
  }

  method SkipCommon(path: string, pattern: string) returns (p: string, q: string)
    ensures p == path[Common(path, pattern)..] && q == pattern[Common(path, pattern)..]
  {
    p, q := path, pattern;
    ghost var n := 0;
    while p != "" && q != "" && p[0] == q[0]
      invariant n <= |path| && n <= |pattern| && p == path[n..] && q == pattern[n..]
      invariant Common(path, pattern) == n + Common(p, q)
      decreases |p|
    {
      p, q := p[1..], q[1..];
      n := n + 1;
    }
  }

  method SkipSegment(path: string) returns (p: string)
    ensures p == path[Segment(path)..]
  {
    p := path;
    ghost var n := 0;
    while p != "" && p[0] != '/'
      invariant n <= |path| && p == path[n..] && Segment(path) == n + Segment(p)
      decreases |p|
    {
      p := p[1..];
      n := n + 1;
    }
  }

  method BestMatch(path: string, pattern: string) returns (best: MatchResult)
    requires pattern != ""
    ensures best == BestFrom(path, pattern)
    decreases |pattern|, |path|, 1
  {
    best := NotMatch;
    var p := path;
    while p != ""
      invariant |p| <= |path| && best != Match && BestFrom(path, pattern) == Better(best, BestFrom(p, pattern))
      decreases |p|
    {
      if p[0] == pattern[0] {
        var found := Matches(p, pattern);
        if found == Match { return Match; }
        if found == PartialMatch { best := PartialMatch; }
      }
      p := p[1..];
    }
  }

  // ---------- what a match means ----------

  /** The language of a pattern: '?' stands for any characters but slashes, '*' for any
      characters at all. */
  ghost predicate InLanguage(path: string, pattern: string)
    decreases |pattern|
  {
    if pattern == "" then path == ""
    else if pattern[0] == '?' then exists k | 0 <= k <= |path| :: '/' !in path[..k] && InLanguage(path[k..], pattern[1..])
    else if pattern[0] == '*' then exists k | 0 <= k <= |path| :: InLanguage(path[k..], pattern[1..])
    else path != "" && path[0] == pattern[0] && InLanguage(path[1..], pattern[1..])
  }

  // A character of the pattern stands for itself, even a wildcard.
  lemma LanguageStep(path: string, pattern: string)
    requires path != "" && pattern != "" && path[0] == pattern[0] && InLanguage(path[1..], pattern[1..])
    ensures InLanguage(path, pattern)
  {
    assert path[0] == '?' ==> '/' !in path[..1];
  }

  lemma {:induction false} LanguagePrefix(path: string, pattern: string, n: nat)
    requires n <= |path| && n <= |pattern| && path[..n] == pattern[..n]
    requires InLanguage(path[n..], pattern[n..])
    ensures InLanguage(path, pattern)
    decreases n
  {
    if n == 0 {
      assert path[0..] == path && pattern[0..] == pattern;
    } else {
      assert path[1..][n - 1..] == path[n..] && pattern[1..][n - 1..] == pattern[n..];
      assert path[1..][..n - 1] == path[..n][1..] && pattern[1..][..n - 1] == pattern[..n][1..];
      assert path[0] == path[..n][0] && pattern[0] == pattern[..n][0];
      LanguagePrefix(path[1..], pattern[1..], n - 1);
      LanguageStep(path, pattern);
    }
  }

  lemma EmptyInStar(path: string)
    ensures InLanguage(path, "*")
  {
    assert "*"[1..] == "" && path[|path|..] == "";
    assert InLanguage(path[|path|..], "*"[1..]);
  }

  /** Whatever matches is in the language of the pattern. */
  lemma {:induction false} MatchIsInLanguage(path: string, pattern: string)
    requires MatchQuery(path, pattern) == Match
    ensures InLanguage(path, pattern)
    decreases |pattern|, |path|, 0
  {
    if path != "" && pattern != "" {
      var n := Common(path, pattern);
      var p, q := path[n..], pattern[n..];
      if q != "" && q[0] == '?' {
        var k := Segment(p);
        MatchIsInLanguage(p[k..], q[1..]);
        assert '/' !in p[..k];
      } else if q != "" && q[0] == '*' {
        if |q| == 1 {
          assert q == "*";
          EmptyInStar(p);
        } else {
          var k := BestIsInLanguage(p, q[1..]);
        }
      }
      LanguagePrefix(path, pattern, n);
    }
  }

  lemma {:induction false} BestIsInLanguage(path: string, pattern: string) returns (k: nat)
    requires pattern != "" && BestFrom(path, pattern) == Match
    ensures k <= |path| && InLanguage(path[k..], pattern)
    decreases |pattern|, |path|, 1
  {
    if path[0] == pattern[0] && MatchQuery(path, pattern) == Match {
      MatchIsInLanguage(path, pattern);
      k := 0;
      assert path[0..] == path;
    } else {
      k := BestIsInLanguage(path[1..], pattern);
      assert path[1..][k..] == path[k + 1..];
      k := k + 1;
    }
  }

  predicate IsPlain(path: string) {
    '?' !in path && '*' !in path
  }

  // A '?' reaches to the next slash, so it is complete only in front of one or at the end.
  predicate Segmented(pattern: string) {
    forall i | 0 <= i < |pattern| - 1 :: pattern[i] == '?' ==> pattern[i + 1] == '/'
  }

  lemma {:induction false} LanguageSuffix(path: string, pattern: string, n: nat)
    requires n <= |path| && n <= |pattern| && path[..n] == pattern[..n] && IsPlain(path) && InLanguage(path, pattern)
    ensures InLanguage(path[n..], pattern[n..]) && IsPlain(path[n..])
    decreases n
  {
    if n == 0 {
      assert path[0..] == path && pattern[0..] == pattern;
    } else {
      assert path[0] == path[..n][0] && pattern[0] == pattern[..n][0];
      assert path[1..][n - 1..] == path[n..] && pattern[1..][n - 1..] == pattern[n..];
      assert path[1..][..n - 1] == path[..n][1..] && pattern[1..][..n - 1] == pattern[..n][1..];
      LanguageSuffix(path[1..], pattern[1..], n - 1);
    }
  }

  lemma SegmentIs(p: string, k: nat, pattern: string)
    requires k <= |p| && '/' !in p[..k] && InLanguage(p[k..], pattern) && (pattern != "" ==> pattern[0] == '/')
    ensures k == Segment(p)
  {
    assert forall i | 0 <= i < k :: p[i] == p[..k][i];
    assert k < |p| ==> p[k..][0] == p[k];
  }

  /** For patterns whose '?' stand for whole ends of segments and whose only '*' is the last
      character, a path without wildcards matches exactly when it is in the language. */
  lemma {:induction false} MatchExact(path: string, pattern: string)
    requires StarLast(pattern) && Segmented(pattern) && IsPlain(path)
    requires path != "" || pattern == "" || (pattern[0] != '*' && pattern[0] != '?')
    ensures MatchQuery(path, pattern) == Match <==> InLanguage(path, pattern)
    decreases |pattern|
  {
    if MatchQuery(path, pattern) == Match {
      MatchIsInLanguage(path, pattern);
    } else if InLanguage(path, pattern) {
      LanguageMatches(path, pattern);
    }
  }

  lemma {:induction false} LanguageMatches(path: string, pattern: string)
    requires StarLast(pattern) && Segmented(pattern) && IsPlain(path)
    requires path != "" || pattern == "" || (pattern[0] != '*' && pattern[0] != '?')
    requires InLanguage(path, pattern)
    ensures MatchQuery(path, pattern) == Match
    decreases |pattern|
  {
    hide Common, Segment, InLanguage, MatchQuery;
    if path != "" && pattern != "" {
      var n := Common(path, pattern);
      var p, q := path[n..], pattern[n..];
      LanguageSuffix(path, pattern, n);
      if q != "" && q[0] == '?' {
        ghost var k := LanguageAtMark(p, q);
        SegmentIs(p, k, q[1..]);
        LanguageMatches(p[k..], q[1..]);
        AtMark(path, pattern);
      } else {
        EndMatches(path, pattern);
      }
    } else {
      NothingLeft(path, pattern);
    }
  }

  lemma LanguageAtMark(p: string, q: string) returns (k: nat)
    requires q != "" && q[0] == '?' && InLanguage(p, q)
    ensures k <= |p| && '/' !in p[..k] && InLanguage(p[k..], q[1..])
  {
    k :| 0 <= k <= |p| && '/' !in p[..k] && InLanguage(p[k..], q[1..]);
  }

  // Where no '?' follows, the pattern is at its end or at its last character, a '*'.
  lemma EndMatches(path: string, pattern: string)
    requires StarLast(pattern) && path != "" && pattern != ""
    requires var n := Common(path, pattern);
             InLanguage(path[n..], pattern[n..]) && IsPlain(path[n..]) && (n < |pattern| ==> pattern[n] != '?')
    ensures MatchQuery(path, pattern) == Match
  {
    hide Common;
  }

  lemma NothingLeft(path: string, pattern: string)
    requires path == "" || pattern == ""
    requires path != "" || pattern == "" || (pattern[0] != '*' && pattern[0] != '?')
    requires InLanguage(path, pattern)
    ensures MatchQuery(path, pattern) == Match
  {
  }

  // ---------- pruning ----------

  // The only '*' is the last character.
  predicate StarLast(pattern: string) {
    forall i | 0 <= i < |pattern| - 1 :: pattern[i] != '*'
  }

  lemma CommonExtends(path: string, rest: string, pattern: string)
    requires Common(path, pattern) < |path|
    ensures Common(path + rest, pattern) == Common(path, pattern)
  {
    var n := Common(path, pattern);
    CommonIs(path + rest, pattern, n);
  }

  lemma {:induction false} CommonIs(path: string, pattern: string, n: nat)
    requires n <= |path| && n <= |pattern| && (forall i | 0 <= i < n :: path[i] == pattern[i])
    requires n < |path| && n < |pattern| ==> path[n] != pattern[n]
    requires n < |path| || n == |pattern|
    ensures Common(path, pattern) == n
    decreases n
  {
    if n > 0 {
      CommonIs(path[1..], pattern[1..], n - 1);
    }
  }

  lemma {:induction false} SegmentExtends(path: string, rest: string)
    requires Segment(path) < |path|
    ensures Segment(path + rest) == Segment(path)
    decreases |path|
  {
    if path[0] != '/' {
      assert (path + rest)[1..] == path[1..] + rest;
      SegmentExtends(path[1..], rest);
    }
  }

  /** A path that does not match has no extension that matches, not even partially. */
  lemma {:induction false} NoMatchBelow(path: string, rest: string, pattern: string)
    requires StarLast(pattern) && MatchQuery(path, pattern) == NotMatch
    ensures MatchQuery(path + rest, pattern) == NotMatch
    decreases |pattern|
  {
    hide Common, Segment;
    if pattern != "" {
      var n := Common(path, pattern);
      var p, q := path[n..], pattern[n..];
      NotAtEnd(path, pattern);
      if q != "" && q[0] == '?' {
        var k := Segment(p);
        AtMark(path, pattern);
        NotAtEnd(p[k..], q[1..]);
        hide MatchQuery;
        CommonExtends(path, rest, pattern);
        SegmentExtends(p, rest);
        Behind(path, rest, n);
        Behind(p, rest, k);
        NoMatchBelow(p[k..], rest, q[1..]);
        AtMark(path + rest, pattern);
      } else {
        CommonExtends(path, rest, pattern);
        Behind(path, rest, n);
      }
    }
  }

  lemma Behind(path: string, rest: string, n: nat)
    requires n <= |path|
    ensures (path + rest)[n..] == path[n..] + rest
  {
  }

  // What is matched behind a '?'.
  lemma AtMark(path: string, pattern: string)
    requires path != "" && pattern != ""
    ensures var n := Common(path, pattern);
            n < |pattern| && pattern[n] == '?' ==>
              MatchQuery(path, pattern) == MatchQuery(path[n..][Segment(path[n..])..], pattern[n..][1..])
  {
    hide Common, Segment;
  }

  lemma NotAtEnd(path: string, pattern: string)
    requires MatchQuery(path, pattern) == NotMatch
    ensures path != ""
  {
  }

  // A pattern matches itself, whatever it holds.
  lemma MatchesItself(pattern: string)
    ensures MatchQuery(pattern, pattern) == Match
  {
    CommonIs(pattern, pattern, |pattern|);
  }

  // The part in front of a '*' that is not the last character has nothing to match behind it.
  lemma FrontFails(pattern: string, i: nat)
    requires 0 < i < |pattern| - 1 && pattern[i] == '*'
    ensures MatchQuery(pattern[..i], pattern) == NotMatch
  {
    hide Common;
    CommonOfPrefix(pattern[..i], pattern);
    var p, q := pattern[..i][i..], pattern[i..];
    assert BestFrom(p, q[1..]) == NotMatch;
  }

  lemma {:induction false} CommonOfPrefix(path: string, pattern: string)
    requires path <= pattern
    ensures Common(path, pattern) == |path|
  {
    if path != "" {
      CommonOfPrefix(path[1..], pattern[1..]);
    }
  }

  // A '*' in front finds its match behind any character but its own and the next one's.
  lemma LeadingStar(pattern: string, c: char)
    requires |pattern| > 1 && pattern[0] == '*' && c != '*' && c != pattern[1]
    ensures MatchQuery([c], pattern) == NotMatch && MatchQuery([c] + pattern[1..], pattern) == Match
  {
    var q, whole := pattern[1..], [c] + pattern[1..];
    assert [c][0..] == [c] && whole[0..] == whole && pattern[0..] == pattern && whole[1..] == q;
    assert BestFrom([c][1..], q) == NotMatch;
    MatchesItself(q);
    assert BestFrom(q, q) == Match;
    assert BestFrom(whole, q) == Match;
    assert Common(whole, pattern) == 0 && Common([c], pattern) == 0;
  }

  lemma StarInside(pattern: string) returns (path: string, rest: string)
    requires !StarLast(pattern)
    ensures MatchQuery(path, pattern) == NotMatch && MatchQuery(path + rest, pattern) == Match
  {
    var i :| 0 <= i < |pattern| - 1 && pattern[i] == '*';
    if i == 0 {
      var c := if pattern[1] != 'a' then 'a' else 'b';
      path, rest := [c], pattern[1..];
      LeadingStar(pattern, c);
    } else {
      path, rest := pattern[..i], pattern[i..];
      FrontFails(pattern, i);
      assert path + rest == pattern;
      MatchesItself(pattern);
    }
  }

  /** Giving up below a path that does not match is right for exactly the patterns whose only
      '*' is the last character: every other pattern fails some path and matches an
      extension of it. */
  lemma PruningExact(pattern: string)
    ensures StarLast(pattern) <==>
            forall path, rest :: MatchQuery(path, pattern) == NotMatch ==> MatchQuery(path + rest, pattern) == NotMatch
  {
    if StarLast(pattern) {
      forall path, rest | MatchQuery(path, pattern) == NotMatch
        ensures MatchQuery(path + rest, pattern) == NotMatch
      {
        NoMatchBelow(path, rest, pattern);
      }
    } else {
      var path, rest := StarInside(pattern);
      assert MatchQuery(path, pattern) == NotMatch && MatchQuery(path + rest, pattern) != NotMatch;
    }
  }

  // ---------- the walk ----------

  datatype Tree = Tree(path: string, children: seq<Tree>)

  // The path of a child extends that of its parent.
  predicate WellFormed(t: Tree)
    decreases t
  {
    forall i | 0 <= i < |t.children| :: t.path <= t.children[i].path && WellFormed(t.children[i])
  }

  function Watched(t: Tree, pattern: string): seq<string>
    decreases t, |t.children| + 1
  {
    if MatchQuery(t.path, pattern) == NotMatch then []
    else WatchedBelow(t, |t.children|, pattern) + (if MatchQuery(t.path, pattern) == Match then [t.path] else [])
  }

  // The nodes that query_child_added_stream puts a value listener on, below t.
  function WatchedBelow(t: Tree, k: nat, pattern: string): seq<string>
    requires k <= |t.children|
    decreases t, k
  {
    if k == 0 then [] else WatchedBelow(t, k - 1, pattern) + Watched(t.children[k - 1], pattern)
  }

  // The nodes it waits for new children of, in the order it comes to them.
  function Entered(t: Tree, pattern: string): seq<string>
    decreases t, |t.children| + 1
  {
    if MatchQuery(t.path, pattern) == NotMatch then [] else [t.path] + EnteredBelow(t, |t.children|, pattern)
  }

  function EnteredBelow(t: Tree, k: nat, pattern: string): seq<string>
    requires k <= |t.children|
    decreases t, k
  {
    if k == 0 then [] else EnteredBelow(t, k - 1, pattern) + Entered(t.children[k - 1], pattern)
  }

  // All nodes, children first.
  function Nodes(t: Tree): seq<string>
    decreases t, |t.children| + 1
  {
    NodesBelow(t, |t.children|) + [t.path]
  }

  function NodesBelow(t: Tree, k: nat): seq<string>
    requires k <= |t.children|
    decreases t, k
  {
    if k == 0 then [] else NodesBelow(t, k - 1) + Nodes(t.children[k - 1])
  }

  function Matching(paths: seq<string>, pattern: string): seq<string> {
    if paths == [] then []
    else Matching(paths[..|paths| - 1], pattern)
         + (if MatchQuery(paths[|paths| - 1], pattern) == Match then [paths[|paths| - 1]] else [])
  }

  lemma {:induction false} MatchingAppend(a: seq<string>, b: seq<string>, pattern: string)
    ensures Matching(a + b, pattern) == Matching(a, pattern) + Matching(b, pattern)
  {
    hide MatchQuery;
    if b == [] {
      assert a + b == a;
    } else {
      assert (a + b)[..|a + b| - 1] == a + b[..|b| - 1];
      MatchingAppend(a, b[..|b| - 1], pattern);
    }
  }

  lemma {:induction false} NothingBelow(t: Tree, pattern: string, above: string)
    requires StarLast(pattern) && WellFormed(t) && above <= t.path && MatchQuery(above, pattern) == NotMatch
    ensures Matching(Nodes(t), pattern) == []
    decreases t, |t.children| + 1
  {
    var rest := t.path[|above|..];
    assert t.path == above + rest;
    NoMatchBelow(above, rest, pattern);
    NothingBelowAll(t, |t.children|, pattern);
    MatchingAppend(NodesBelow(t, |t.children|), [t.path], pattern);
    assert [t.path][..0] == [];
  }

  lemma {:induction false} NothingBelowAll(t: Tree, k: nat, pattern: string)
    requires StarLast(pattern) && WellFormed(t) && MatchQuery(t.path, pattern) == NotMatch && k <= |t.children|
    ensures Matching(NodesBelow(t, k), pattern) == []
    decreases t, k
  {
    if k > 0 {
      NothingBelowAll(t, k - 1, pattern);
      NothingBelow(t.children[k - 1], pattern, t.path);
      MatchingAppend(NodesBelow(t, k - 1), Nodes(t.children[k - 1]), pattern);
    }
  }

  /** The pruned walk listens on exactly the nodes of the whole tree that match. */
  lemma {:induction false} WalkIsFilter(t: Tree, pattern: string)
    requires StarLast(pattern) && WellFormed(t)
    ensures Watched(t, pattern) == Matching(Nodes(t), pattern)
    decreases t, |t.children| + 1
  {
    if MatchQuery(t.path, pattern) == NotMatch {
      NothingBelow(t, pattern, t.path);
    } else {
      WalkBelow(t, |t.children|, pattern);
      MatchingAppend(NodesBelow(t, |t.children|), [t.path], pattern);
      assert [t.path][..0] == [];
    }
  }

  lemma {:induction false} WalkBelow(t: Tree, k: nat, pattern: string)
    requires StarLast(pattern) && WellFormed(t) && k <= |t.children|
    ensures WatchedBelow(t, k, pattern) == Matching(NodesBelow(t, k), pattern)
    decreases t, k
  {
    if k > 0 {
      WalkBelow(t, k - 1, pattern);
      WalkIsFilter(t.children[k - 1], pattern);
      MatchingAppend(NodesBelow(t, k - 1), Nodes(t.children[k - 1]), pattern);
    }
  }

  /** A running query: the nodes it listens to for new children and for new values. */
  class ParsedQuery {
    const pattern: string
    var childAddListeners: seq<string>
    var valueUpdateListeners: seq<string>

    constructor (pattern: string)
      ensures this.pattern == pattern && childAddListeners == [] && valueUpdateListeners == []
    {
      this.pattern := pattern;
      childAddListeners, valueUpdateListeners := [], [];
    }

    // query_child_added_stream
    method ChildAdded(node: Tree)
      modifies this
      ensures valueUpdateListeners == old(valueUpdateListeners) + Watched(node, pattern)
      ensures childAddListeners == old(childAddListeners) + Entered(node, pattern)
      decreases node
    {
      hide MatchQuery;
      var rslt := Matches(node.path, pattern);
      if rslt == Match || rslt == PartialMatch {
        childAddListeners := childAddListeners + [node.path];
        var i := 0;
        while i < |node.children|
          invariant i <= |node.children|
          invariant valueUpdateListeners == old(valueUpdateListeners) + WatchedBelow(node, i, pattern)
          invariant childAddListeners == old(childAddListeners) + [node.path] + EnteredBelow(node, i, pattern)
        {
          ChildAdded(node.children[i]);
          i := i + 1;
        }
      }
      if rslt == Match {
        valueUpdateListeners := valueUpdateListeners + [node.path];
      }
    }
  }
}
