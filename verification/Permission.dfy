/** Permission lists on the tree of nodes (broker/src/permission/permission.c). Regular nodes,
    links and the virtual nodes below links are one datatype; they differ in what setting or
    reading a list below them creates. */
module Permission {
  import opened Common

  // PERMISSION_NONE to PERMISSION_CONFIG, the only levels a list holds.
  type Level = n: nat | n <= 4

  const NONE: Level := 0
  const READ: Level := 2
  const CONFIG: Level := 4
  const NEVER: nat := 5

  datatype Entry = Entry(group: string, level: Level)

  datatype Kind = Regular | Link | Virtual

  datatype Node = Node(kind: Kind, list: Option<seq<Entry>>, children: map<string, Node>)

  // ---------- names of levels ----------

  function LevelName(l: Level): string {
    if l == 0 then "none" else if l == 1 then "list" else if l == 2 then "read" else if l == 3 then "write" else "config"
  }

  // permission_str_level
  method StrLevel(str: string) returns (p: nat)
    ensures p <= NEVER && (p < NEVER ==> LevelName(p) == str) && (p == NEVER ==> forall l: Level :: LevelName(l) != str)
  {
    p := 0;
    while p <= CONFIG
      invariant p <= NEVER && forall l: Level | l < p :: LevelName(l) != str
    {
      if str == LevelName(p) { break; }
      p := p + 1;
    }
  }

  function ParseLevel(str: string): Option<Level> {
    if str == "none" then Some(0) else if str == "list" then Some(1) else if str == "read" then Some(2)
    else if str == "write" then Some(3) else if str == "config" then Some(4) else None
  }

  lemma ParseName(l: Level)
    ensures ParseLevel(LevelName(l)) == Some(l)
  {
    assert "none"[0] == 'n' && "list"[0] == 'l' && "read"[0] == 'r' && "write"[0] == 'w' && "config"[0] == 'c';
  }

  // ---------- groups ----------

  function CommaAt(str: string, from: nat): (i: nat)
    requires from <= |str|
    ensures from <= i <= |str|
    ensures i < |str| ==> str[i] == ','
    ensures forall j | from <= j < i :: str[j] != ','
    decreases |str| - from
  {
    if from == |str| || str[from] == ',' then from else CommaAt(str, from + 1)
  }

  // The non-empty fields between commas.
  function Fields(str: string): seq<string>
    decreases |str|
  {
    var i := CommaAt(str, 0);
    (if i > 0 then [str[..i]] else []) + (if i < |str| then Fields(str[i + 1..]) else [])
  }

  function JoinFields(gs: seq<string>): string {
    if gs == [] then "" else if |gs| == 1 then gs[0] else gs[0] + "," + JoinFields(gs[1..])
  }

  // A list of groups that could be written down is read back.
  lemma {:induction false} FieldsOfJoin(gs: seq<string>)
    requires forall i | 0 <= i < |gs| :: gs[i] != "" && ',' !in gs[i]
    ensures Fields(JoinFields(gs)) == gs
  {
    hide Fields;
    if |gs| == 1 {
      FieldsHead(gs[0], "");
      assert gs[0] + "" == gs[0];
    } else if |gs| > 1 {
      FieldsOfJoin(gs[1..]);
      var rest := "," + JoinFields(gs[1..]);
      FieldsHead(gs[0], rest);
      assert gs[0] + rest == JoinFields(gs) && rest[1..] == JoinFields(gs[1..]);
    } else {
      FieldsHead("", "");
    }
  }

  lemma CommaIs(g: string, rest: string)
    requires ',' !in g && (rest == "" || rest[0] == ',')
    ensures CommaAt(g + rest, 0) == |g|
  {
    var s := g + rest;
    assert forall j | 0 <= j < |g| :: s[j] == g[j];
    assert rest != "" ==> s[|g|] == ',';
  }

  lemma FieldsHead(g: string, rest: string)
    requires ',' !in g && (rest == "" || rest[0] == ',')
    ensures Fields(g + rest) == (if g != "" then [g] else []) + (if rest != "" then Fields(rest[1..]) else [])
  {
    hide CommaAt, Fields;
    CommaIs(g, rest);
    CommaSlices(g, rest);
    FieldsUnfold(g + rest);
  }

  lemma FieldsUnfold(str: string)
    ensures var i := CommaAt(str, 0);
            Fields(str) == (if i > 0 then [str[..i]] else []) + (if i < |str| then Fields(str[i + 1..]) else [])
  {
  }

  lemma CommaSlices(g: string, rest: string)
    ensures (g + rest)[..|g|] == g && (rest != "" ==> (g + rest)[|g| + 1..] == rest[1..])
  {
  }

  /** permission_groups_load: the array is grown so that the dsId still has room. */
  method GroupsLoad(dsId: string, str: Option<string>) returns (groups: seq<string>)
    ensures groups == (match str case None => [] case Some(s) => Fields(s)) + [dsId]
  {
    hide Fields, CommaAt;
    if str == None { return [dsId]; }
    var s := str.value;
    var buffer := new string[4](i => "");
    var len, start, end := 0, 0, 0;
    assert s[0..] == s;
    while true
      invariant start <= end <= |s| && forall j | start <= j < end :: s[j] != ','
      invariant len + 1 <= buffer.Length && fresh(buffer)
      invariant buffer[..len] + Fields(s[start..]) == Fields(s)
      decreases |s| - end
    {
      if end == |s| || s[end] == ',' {
        FieldsStep(s, start, end);
        ghost var rest := if end < |s| then Fields(s[end + 1..]) else [];
        if end > start {
          JoinThree(buffer[..len], [s[start..end]], rest);
          buffer := AppendGroup(buffer, len, s[start..end]);
          len := len + 1;
        } else {
          NothingInFront(rest);
        }
        assert buffer[..len] + rest == Fields(s);
        if end == |s| { break; }
        start := end + 1;
      }
      end := end + 1;
    }
    buffer[len] := dsId;
    len := len + 1;
    groups := buffer[..len];
  }

  // Room is kept for the current value and for the dsId.
  method AppendGroup(a: array<string>, len: nat, group: string) returns (b: array<string>)
    requires len + 1 <= a.Length
    modifies a
    ensures (b == a || fresh(b)) && len + 2 <= b.Length && b[..len + 1] == old(a[..len]) + [group]
  {
    b := a;
    if len + 2 > a.Length {
      b := Realloc(a, a.Length * 2);
      assert b[..len] == a[..len];
    }
    b[len] := group;
  }

  lemma NothingInFront<T>(s: seq<T>)
    ensures [] + s == s
  {
  }

  lemma FieldsStep(s: string, start: nat, end: nat)
    requires start <= end <= |s| && (forall j | start <= j < end :: s[j] != ',') && (end < |s| ==> s[end] == ',')
    ensures Fields(s[start..]) == (if end > start then [s[start..end]] else []) + (if end < |s| then Fields(s[end + 1..]) else [])
  {
    hide Fields;
    var g, rest := s[start..end], s[end..];
    FieldsHead(g, rest);
    assert s[start..] == g + rest;
  }

  method Realloc(a: array<string>, n: nat) returns (b: array<string>)
    requires n >= a.Length
    ensures fresh(b) && b.Length == n && b[..a.Length] == a[..]
  {
    b := new string[n](i => "");
    var i := 0;
    while i < a.Length
      invariant i <= a.Length && b[..i] == a[..i]
    {
      b[i] := a[i];
      i := i + 1;
    }
  }

  // ---------- the effective permission ----------

  predicate Matches(e: Entry, group: string) {
    e.group == group || e.group == "default"
  }

  // What a list says for a group: its first entry for the group or for everyone.
  function FirstMatch(list: seq<Entry>, group: string): Level {
    if list == [] then NONE else if Matches(list[0], group) then list[0].level else FirstMatch(list[1..], group)
  }

  // The groups from g on, one after the other, until one reaches config.
  function Raised(list: seq<Entry>, groups: seq<string>, levels: seq<Level>, g: nat): (r: (seq<Level>, bool))
    requires |levels| == |groups| && g <= |groups|
    ensures |r.0| == |levels|
    decreases |groups| - g
  {
    if g == |groups| then (levels, false)
    else
      var l := FirstMatch(list, groups[g]);
      if levels[g] < l then
        if l == CONFIG then (levels[g := l], true) else Raised(list, groups, levels[g := l], g + 1)
      else Raised(list, groups, levels, g + 1)
  }

  function AtNode(node: Node, groups: seq<string>, levels: seq<Level>): (r: (seq<Level>, bool))
    requires |levels| == |groups|
    ensures |r.0| == |levels|
  {
    if node.list.Some? then Raised(node.list.value, groups, levels, 0) else (levels, false)
  }

  // get_node_permission and get_virtual_permission, on the components of the path.
  function Walk(node: Node, comps: seq<string>, groups: seq<string>, levels: seq<Level>): (r: seq<Level>)
    requires |levels| == |groups|
    ensures |r| == |levels|
    decreases |comps|
  {
    var (l, stop) := AtNode(node, groups, levels);
    if stop || comps == [] || comps[0] !in node.children then l
    else Walk(node.children[comps[0]], comps[1..], groups, l)
  }

  function MaxOf(levels: seq<Level>): (m: Level)
    ensures forall i | 0 <= i < |levels| :: levels[i] <= m
    ensures m == NONE || exists i | 0 <= i < |levels| :: levels[i] == m
  {
    if levels == [] then NONE
    else
      var front := levels[..|levels| - 1];
      var rest, last := MaxOf(front), levels[|levels| - 1];
      assert forall i | 0 <= i < |front| :: levels[i] == front[i];
      if last > rest then last else rest
  }

  function SlashAt(path: string): (i: nat)
    ensures i <= |path|
    ensures i < |path| ==> path[i] == '/'
    ensures forall j | 0 <= j < i :: path[j] != '/'
  {
    if path == "" || path[0] == '/' then 0 else 1 + SlashAt(path[1..])
  }

  // The names the recursion takes off the path; nothing follows a final slash.
  function Components(path: string): seq<string>
    decreases |path|
  {
    if path == "" then []
    else
      var i := SlashAt(path);
      [path[..i]] + (if i < |path| then Components(path[i + 1..]) else [])
  }

  // get_permission
  function GetPermission(root: Node, path: string, groups: seq<string>): Level {
    if root.list == None then CONFIG
    else if path == "" || path[0] != '/' then NONE
    else MaxOf(Walk(root, Components(path[1..]), groups, seq(|groups|, i => NONE)))
  }

  // ---------- the code ----------

  // get_current_permission
  method GetCurrentPermission(list: seq<Entry>, groups: seq<string>, levels: array<Level>) returns (stop: bool)
    requires levels.Length == |groups|
    modifies levels
    ensures (levels[..], stop) == Raised(list, groups, old(levels[..]), 0)
  {
    ghost var was := levels[..];
    var g := 0;
    while g < |groups|
      invariant g <= |groups|
      invariant Raised(list, groups, levels[..], g) == Raised(list, groups, was, 0)
    {
      ghost var now := levels[..];
      var i := 0;
      while i < |list| && !Matches(list[i], groups[g])
        invariant i <= |list| && FirstMatch(list[i..], groups[g]) == FirstMatch(list, groups[g])
      {
        i := i + 1;
      }
      assert i < |list| ==> FirstMatch(list[i..], groups[g]) == list[i].level;
      if i < |list| && levels[g] < list[i].level {
        levels[g] := list[i].level;
        assert levels[..] == now[g := list[i].level];
        if list[i].level == CONFIG { return true; }
      }
      g := g + 1;
    }
    stop := false;
  }

  // get_node_permission and get_virtual_permission
  method GetNodePermission(path: string, node: Node, groups: seq<string>, levels: array<Level>)
    requires levels.Length == |groups|
    modifies levels
    ensures levels[..] == Walk(node, Components(path), groups, old(levels[..]))
    decreases |path|
  {
    if node.list.Some? {
      var stop := GetCurrentPermission(node.list.value, groups, levels);
      if stop { return; }
    }
    if path == "" { return; }
    var next := SlashAt(path);
    var name := path[..next];
    if name in node.children {
      GetNodePermission(if next < |path| then path[next + 1..] else "", node.children[name], groups, levels);
    }
  }

  method Permitted(path: string, root: Node, groups: seq<string>) returns (max: Level)
    ensures max == GetPermission(root, path, groups)
  {
    if root.list == None { return CONFIG; }
    if path == "" || path[0] != '/' { return NONE; }
    var levels := new Level[|groups|](i => NONE);
    assert levels[..] == seq<Level>(|groups|, i => NONE);
    GetNodePermission(path[1..], root, groups, levels);
    max := NONE;
    var i := 0;
    while i < levels.Length
      invariant i <= levels.Length && max == MaxOf(levels[..i])
    {
      assert levels[..i + 1][..i] == levels[..i];
      if levels[i] > max {
        max := levels[i];
      }
      i := i + 1;
    }
    assert levels[..i] == levels[..];
  }

  // ---------- the simple form ----------

  // The best a list says for any of the groups.
  function BestOf(list: seq<Entry>, groups: seq<string>): Level {
    if groups == [] then NONE
    else
      var rest, last := BestOf(list, groups[..|groups| - 1]), FirstMatch(list, groups[|groups| - 1]);
      if last > rest then last else rest
  }

  // The best of all nodes on the path, without any early exit.
  function Best(node: Node, comps: seq<string>, groups: seq<string>): Level
    decreases |comps|
  {
    var here := if node.list.Some? then BestOf(node.list.value, groups) else NONE;
    if comps == [] || comps[0] !in node.children then here
    else
      var below := Best(node.children[comps[0]], comps[1..], groups);
      if below > here then below else here
  }

  function Higher(x: Level, y: Level): Level {
    if x < y then y else x
  }

  lemma MaxLast(levels: seq<Level>)
    requires levels != []
    ensures MaxOf(levels) == Higher(MaxOf(levels[..|levels| - 1]), levels[|levels| - 1])
  {
  }

  lemma {:induction false} MaxUpdated(levels: seq<Level>, g: nat, l: Level)
    requires g < |levels| && levels[g] <= l
    ensures MaxOf(levels[g := l]) == Higher(MaxOf(levels), l)
    decreases |levels|
  {
    hide MaxOf;
    var front, u := levels[..|levels| - 1], levels[g := l];
    MaxLast(levels);
    MaxLast(u);
    if g == |levels| - 1 {
      assert u[..g] == front;
    } else {
      assert u[..|u| - 1] == front[g := l];
      MaxUpdated(front, g, l);
    }
  }

  lemma MaxAt(levels: seq<Level>, g: nat)
    requires g < |levels|
    ensures levels[g] <= MaxOf(levels)
  {
  }

  // The groups from g on.
  lemma {:induction false} BestFirst(list: seq<Entry>, groups: seq<string>)
    requires groups != []
    ensures BestOf(list, groups) == Higher(FirstMatch(list, groups[0]), BestOf(list, groups[1..]))
  {
    if |groups| > 1 {
      BestFirst(list, groups[..|groups| - 1]);
      assert groups[..|groups| - 1][1..] == groups[1..][..|groups| - 2];
    }
  }

  lemma {:induction false} RaisedIsBest(list: seq<Entry>, groups: seq<string>, levels: seq<Level>, g: nat)
    requires |levels| == |groups| && g <= |groups|
    ensures var (l, stop) := Raised(list, groups, levels, g);
            MaxOf(l) == Higher(MaxOf(levels), BestOf(list, groups[g..])) && (stop ==> MaxOf(l) == CONFIG)
    decreases |groups| - g
  {
    if g < |groups| {
      var l := FirstMatch(list, groups[g]);
      BestFirst(list, groups[g..]);
      assert groups[g..][1..] == groups[g + 1..];
      MaxAt(levels, g);
      if levels[g] < l {
        MaxUpdated(levels, g, l);
        if l != CONFIG {
          RaisedIsBest(list, groups, levels[g := l], g + 1);
        }
      } else {
        RaisedIsBest(list, groups, levels, g + 1);
      }
    }
  }

  lemma {:induction false} WalkIsBest(node: Node, comps: seq<string>, groups: seq<string>, levels: seq<Level>)
    requires |levels| == |groups|
    ensures MaxOf(Walk(node, comps, groups, levels)) == Higher(MaxOf(levels), Best(node, comps, groups))
    decreases |comps|
  {
    var (l, stop) := AtNode(node, groups, levels);
    if node.list.Some? {
      RaisedIsBest(node.list.value, groups, levels, 0);
      assert groups[0..] == groups;
    }
    if !stop && comps != [] && comps[0] in node.children {
      WalkIsBest(node.children[comps[0]], comps[1..], groups, l);
    }
  }

  lemma {:induction false} MaxOfNone(n: nat)
    ensures MaxOf(seq<Level>(n, i => NONE)) == NONE
  {
  }

  /** The early exits change nothing: config without a list at the root, else the best level
      that the first fitting entry of any node on the path gives any of the groups. */
  lemma PermissionIsBest(root: Node, path: string, groups: seq<string>)
    ensures GetPermission(root, path, groups)
         == if root.list == None then CONFIG
            else if path == "" || path[0] != '/' then NONE
            else Best(root, Components(path[1..]), groups)
  {
    if root.list != None && path != "" && path[0] == '/' {
      MaxOfNone(|groups|);
      WalkIsBest(root, Components(path[1..]), groups, seq(|groups|, i => NONE));
    }
  }

  lemma {:induction false} BestGrows(node: Node, comps: seq<string>, more: seq<string>, groups: seq<string>)
    ensures Best(node, comps, groups) <= Best(node, comps + more, groups)
    decreases |comps|
  {
    if comps != [] && comps[0] in node.children {
      assert (comps + more)[1..] == comps[1..] + more;
      BestGrows(node.children[comps[0]], comps[1..], more, groups);
    } else if comps == [] {
      assert comps + more == more;
    }
  }

  lemma {:induction false} ComponentsGrow(path: string, more: string)
    ensures Components(path) <= Components(path + "/" + more)
    decreases |path|
  {
    if path != "" {
      var i := SlashAt(path);
      var longer := path + "/" + more;
      SlashIs(path, "/" + more);
      assert longer == path + ("/" + more) && longer[..i] == path[..i];
      if i < |path| {
        assert longer[i + 1..] == path[i + 1..] + "/" + more;
        ComponentsGrow(path[i + 1..], more);
      }
    }
  }

  lemma {:induction false} SlashIs(path: string, rest: string)
    requires rest != "" && rest[0] == '/'
    ensures SlashAt(path + rest) == SlashAt(path)
  {
    if path == "" {
      assert path + rest == rest;
    } else if path[0] != '/' {
      assert (path + rest)[1..] == path[1..] + rest;
      SlashIs(path[1..], rest);
    }
  }

  /** A longer path never has less permission. */
  lemma PermissionGrows(root: Node, path: string, more: string, groups: seq<string>)
    requires path != "" && path[0] == '/'
    ensures GetPermission(root, path, groups) <= GetPermission(root, path + "/" + more, groups)
  {
    PermissionIsBest(root, path, groups);
    PermissionIsBest(root, path + "/" + more, groups);
    ComponentsBelow(path, more);
    hide GetPermission, Components, Best;
    var comps, longer := Components(path[1..]), Components((path + "/" + more)[1..]);
    BestGrows(root, comps, longer[|comps|..], groups);
  }

  lemma ComponentsBelow(path: string, more: string)
    requires path != ""
    ensures var comps, longer := Components(path[1..]), Components((path + "/" + more)[1..]);
            |comps| <= |longer| && longer == comps + longer[|comps|..] && (path + "/" + more)[0] == path[0]
  {
    ComponentsGrow(path[1..], more);
    hide Components;
    assert (path + "/" + more)[1..] == path[1..] + "/" + more;
  }

  // ---------- names and lists, spelled out ----------

  // The names in the order of their levels, and the levels that are asked for by number.
  lemma LevelNames()
    ensures LevelName(0) == "none" && LevelName(1) == "list" && LevelName(2) == "read" && LevelName(3) == "write" && LevelName(4) == "config"
    ensures LevelName(NONE) == "none" && LevelName(READ) == "read" && LevelName(CONFIG) == "config"
  {
  }

  /** A list gives a group the level of the first entry for this group or for "default", and
      none if it has neither. */
  lemma {:induction false} FirstMatchExact(list: seq<Entry>, group: string, i: nat)
    requires i <= |list| && forall j | 0 <= j < i :: list[j].group != group && list[j].group != "default"
    requires i < |list| ==> list[i].group == group || list[i].group == "default"
    ensures FirstMatch(list, group) == if i < |list| then list[i].level else NONE
    decreases i
  {
    if i > 0 {
      FirstMatchExact(list[1..], group, i - 1);
    }
  }

  function JoinNames(names: seq<string>): string {
    if names == [] then "" else if |names| == 1 then names[0] else names[0] + "/" + JoinNames(names[1..])
  }

  lemma NameTakenOff(name: string, rest: string)
    requires '/' !in name
    ensures name != "" ==> Components(name) == [name]
    ensures Components(name + ("/" + rest)) == [name] + Components(rest)
  {
    var path := name + ("/" + rest);
    SlashBehind(name, rest);
    assert path[..|name|] == name && path[|name| + 1..] == rest;
    NoSlashIn(name);
    assert name[..|name|] == name;
  }

  lemma {:induction false} SlashBehind(name: string, rest: string)
    requires '/' !in name
    ensures SlashAt(name + ("/" + rest)) == |name|
  {
    var path := name + ("/" + rest);
    if name != "" {
      assert path[0] == name[0] && path[1..] == name[1..] + ("/" + rest);
      SlashBehind(name[1..], rest);
    }
  }

  lemma {:induction false} NoSlashIn(name: string)
    requires '/' !in name
    ensures SlashAt(name) == |name|
  {
    if name != "" {
      NoSlashIn(name[1..]);
    }
  }

  /** The names joined by slashes are taken off the path again, with or without a slash at
      the end. */
  lemma {:induction false} ComponentsOfJoin(names: seq<string>)
    requires names != [] && forall i | 0 <= i < |names| :: names[i] != "" && '/' !in names[i]
    ensures Components(JoinNames(names)) == names && Components(JoinNames(names) + "/") == names
  {
    hide Components, SlashAt;
    if |names| == 1 {
      NameTakenOff(names[0], "");
      assert JoinNames(names) + "/" == names[0] + ("/" + "") && Components("") == [] by { NoComponents(); }
      assert [names[0]] + [] == names;
    } else {
      ComponentsOfJoin(names[1..]);
      var rest := JoinNames(names[1..]);
      NameTakenOff(names[0], rest);
      NameTakenOff(names[0], rest + "/");
      assert JoinNames(names) == names[0] + ("/" + rest) && JoinNames(names) + "/" == names[0] + ("/" + (rest + "/"));
    }
  }

  lemma NoComponents()
    ensures Components("") == []
  {
  }

  /** Fields are read from both sides of a comma. */
  lemma {:induction false} FieldsApart(a: string, b: string)
    ensures Fields(a + ("," + b)) == Fields(a) + Fields(b)
    decreases |a|
  {
    hide Fields, CommaAt;
    if ',' in a {
      var g, more := FirstField(a);
      var rest := more + ("," + b);
      FieldsApart(more, b);
      CommaBehind(g, more);
      CommaBehind(g, rest);
      assert a + ("," + b) == g + ("," + rest);
    } else {
      FieldAlone(a);
      CommaBehind(a, b);
    }
  }

  /** An empty field is no group. */
  lemma FieldAlone(g: string)
    requires ',' !in g
    ensures Fields(g) == if g == "" then [] else [g]
  {
    hide Fields, CommaAt;
    FieldsHead(g, "");
    assert g + "" == g;
  }

  lemma CommaBehind(g: string, rest: string)
    requires ',' !in g
    ensures Fields(g + ("," + rest)) == (if g == "" then [] else [g]) + Fields(rest)
  {
    hide Fields, CommaAt;
    FieldsHead(g, "," + rest);
    assert ("," + rest)[1..] == rest;
  }

  lemma FirstField(a: string) returns (g: string, more: string)
    requires ',' in a
    ensures ',' !in g && a == g + ("," + more)
  {
    if a[0] == ',' {
      g, more := "", a[1..];
    } else {
      g, more := FirstField(a[1..]);
      g := [a[0]] + g;
    }
  }
}
