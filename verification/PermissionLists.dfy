/** Setting, reading, saving and loading permission lists (broker/src/permission/permission.c).
    A list below a link may be set or read before anything is there, and the virtual nodes
    this creates change no permission. */
module PermissionLists {
  import opened Common
  import opened Json
  import opened Permission

  // ---------- lists as JSON ----------

  function SavedEntry(e: Entry): Json {
    JArray([JString(e.group), JString(LevelName(e.level))])
  }

  function SavedEntries(list: seq<Entry>): (r: seq<Json>)
    ensures |r| == |list| && forall i | 0 <= i < |list| :: r[i] == SavedEntry(list[i])
  {
    seq(|list|, i requires 0 <= i < |list| => SavedEntry(list[i]))
  }

  // permission_list_save; there is nothing to save of an empty list.
  function SaveList(list: Option<seq<Entry>>): Option<Json> {
    if list == None || list.value == [] then None else Some(JArray(SavedEntries(list.value)))
  }

  function LoadedEntry(value: Json): Option<Entry> {
    if value.JArray? && |value.items| == 2 && value.items[0].JString? && value.items[1].JString? then
      match ParseLevel(value.items[1].text)
      case None => None
      case Some(l) => Some(Entry(value.items[0].text, l))
    else None
  }

  function LoadedEntries(items: seq<Json>): seq<Entry> {
    if items == [] then []
    else
      LoadedEntries(items[..|items| - 1])
      + (match LoadedEntry(items[|items| - 1]) case None => [] case Some(e) => [e])
  }

  // permission_list_load; an array without any entry to be read is a list, an empty one.
  function LoadList(json: Json): Option<seq<Entry>> {
    if !json.JArray? || json.items == [] then None else Some(LoadedEntries(json.items))
  }

  lemma {:induction false} LoadSaved(list: seq<Entry>)
    ensures LoadedEntries(SavedEntries(list)) == list
  {
    if list != [] {
      var front := list[..|list| - 1];
      assert SavedEntries(list)[..|list| - 1] == SavedEntries(front);
      LoadSaved(front);
      ParseName(list[|list| - 1].level);
    }
  }

  /** A list survives saving and loading exactly when it is not an empty one, which comes
      back as none. */
  lemma LoadSaveExact(list: Option<seq<Entry>>)
    ensures LoadList(match SaveList(list) case None => JNull case Some(j) => j) == list <==> list != Some([])
  {
    if list.Some? {
      LoadSaved(list.value);
    }
  }

  method PermissionListLoad(json: Json) returns (list: Option<seq<Entry>>)
    ensures list == LoadList(json)
  {
    if !json.JArray? || json.items == [] { return None; }
    var rslt: seq<Entry> := [];
    var i := 0;
    while i < |json.items|
      invariant i <= |json.items| && rslt == LoadedEntries(json.items[..i])
    {
      assert json.items[..i + 1][..i] == json.items[..i];
      var value := json.items[i];
      if value.JArray? && |value.items| == 2 && value.items[0].JString? && value.items[1].JString? {
        var p := StrLevel(value.items[1].text);
        NamesDiffer(p, value.items[1].text);
        if p <= CONFIG {
          rslt := rslt + [Entry(value.items[0].text, p)];
        }
      }
      i := i + 1;
    }
    assert json.items[..i] == json.items;
    list := Some(rslt);
  }

  lemma NamesDiffer(p: nat, text: string)
    requires p <= NEVER && (p < NEVER ==> LevelName(p) == text) && (p == NEVER ==> forall l: Level :: LevelName(l) != text)
    ensures ParseLevel(text) == if p <= CONFIG then Some(p) else None
  {
    assert ParseLevel(text).Some? ==> LevelName(ParseLevel(text).value) == text;
    if p <= CONFIG {
      ParseName(p);
    }
  }

  // ---------- setting ----------

  const EMPTY := Node(Virtual, None, map[])

  // set_node_permission_list and set_virtual_permission_list; None when a regular node on the
  // way is missing.
  function SetList(node: Node, comps: seq<string>, list: Option<seq<Entry>>): (r: Option<Node>)
    ensures r.Some? ==> r.value.kind == node.kind && (comps != [] ==> r.value.list == node.list)
    decreases |comps|
  {
    if comps == [] then Some(node.(list := list))
    else if comps[0] !in node.children && node.kind.Regular? then None
    else
      var child := if comps[0] in node.children then node.children[comps[0]] else EMPTY;
      match SetList(child, comps[1..], list)
      case None => None
      case Some(c) => Some(node.(children := node.children[comps[0] := c]))
  }

  // get_node_permission_list and get_virtual_permission_list: what is read, and the tree left.
  function ReadList(node: Node, comps: seq<string>): (Option<Json>, Node)
    decreases |comps|
  {
    if comps == [] then (SaveList(node.list), node)
    else if comps[0] !in node.children && node.kind.Regular? then (None, node)
    else
      var child := if comps[0] in node.children then node.children[comps[0]] else EMPTY;
      var (json, c) := ReadList(child, comps[1..]);
      (json, node.(children := node.children[comps[0] := c]))
  }

  // The list at a path; a node that is not there has none.
  function ListAt(node: Node, comps: seq<string>): Option<seq<Entry>>
    decreases |comps|
  {
    if comps == [] then node.list
    else if comps[0] in node.children then ListAt(node.children[comps[0]], comps[1..])
    else None
  }

  // Every regular node on the way is there.
  predicate Addressable(node: Node, comps: seq<string>)
    decreases |comps|
  {
    comps == []
    || (if comps[0] in node.children then Addressable(node.children[comps[0]], comps[1..])
        else !node.kind.Regular?)
  }

  lemma {:induction false} EmptyTree(comps: seq<string>, list: Option<seq<Entry>>)
    ensures SetList(EMPTY, comps, list).Some?
  {
    if comps != [] {
      EmptyTree(comps[1..], list);
    }
  }

  lemma {:induction false} SetExact(node: Node, comps: seq<string>, list: Option<seq<Entry>>)
    ensures SetList(node, comps, list).Some? <==> Addressable(node, comps)
    decreases |comps|
  {
    if comps != [] {
      if comps[0] in node.children {
        SetExact(node.children[comps[0]], comps[1..], list);
      } else {
        EmptyTree(comps[1..], list);
      }
    }
  }

  /** The list is set where it was to be set, and nowhere else. */
  lemma {:induction false} SetChangesOne(node: Node, comps: seq<string>, list: Option<seq<Entry>>, other: seq<string>)
    requires SetList(node, comps, list).Some?
    ensures ListAt(SetList(node, comps, list).value, other) == if other == comps then list else ListAt(node, other)
    decreases |comps|
  {
    if comps != [] && other != [] && other[0] == comps[0] {
      var child := if comps[0] in node.children then node.children[comps[0]] else EMPTY;
      SetChangesOne(child, comps[1..], list, other[1..]);
      assert other == comps <==> other[1..] == comps[1..] by {
        assert other == [other[0]] + other[1..] && comps == [comps[0]] + comps[1..];
      }
      assert child == EMPTY ==> ListAt(child, other[1..]) == None;
    }
  }

  // Reading finds what is at the path.
  lemma {:induction false} ReadFinds(node: Node, comps: seq<string>)
    ensures ReadList(node, comps).0 == SaveList(ListAt(node, comps))
    decreases |comps|
  {
    if comps != [] {
      if comps[0] in node.children {
        ReadFinds(node.children[comps[0]], comps[1..]);
      } else if !node.kind.Regular? {
        ReadFinds(EMPTY, comps[1..]);
      }
    }
  }

  /** What is set from JSON is read as its loaded and saved form. */
  lemma SetThenRead(node: Node, comps: seq<string>, json: Json)
    requires SetList(node, comps, LoadList(json)).Some?
    ensures ReadList(SetList(node, comps, LoadList(json)).value, comps).0 == SaveList(LoadList(json))
  {
    var t := SetList(node, comps, LoadList(json)).value;
    ReadFinds(t, comps);
    SetChangesOne(node, comps, LoadList(json), comps);
  }

  // ---------- the nodes left ----------

  // What kind of node is at a path.
  function KindAt(node: Node, comps: seq<string>): Option<Kind>
    decreases |comps|
  {
    if comps == [] then Some(node.kind)
    else if comps[0] in node.children then KindAt(node.children[comps[0]], comps[1..])
    else None
  }

  // The nodes on the way to a path that may be made are there afterwards, those not there
  // before as virtual ones.
  function KindWith(node: Node, comps: seq<string>, other: seq<string>): Option<Kind> {
    if KindAt(node, other) == None && other <= comps then Some(Virtual) else KindAt(node, other)
  }

  lemma KindBelow(node: Node, comps: seq<string>, other: seq<string>)
    requires comps != [] && other != [] && other[0] == comps[0]
    ensures var child := if comps[0] in node.children then node.children[comps[0]] else EMPTY;
            KindWith(node, comps, other) == KindWith(child, comps[1..], other[1..])
  {
    assert other <= comps <==> other[1..] <= comps[1..] by {
      assert other == [other[0]] + other[1..] && comps == [comps[0]] + comps[1..];
    }
    if comps[0] !in node.children {
      assert KindAt(EMPTY, other[1..]) == if other[1..] == [] then Some(Virtual) else None;
    }
  }

  lemma {:induction false} SetMakesWay(node: Node, comps: seq<string>, list: Option<seq<Entry>>, other: seq<string>)
    requires SetList(node, comps, list).Some?
    ensures KindAt(SetList(node, comps, list).value, other) == KindWith(node, comps, other)
    decreases |comps|
  {
    if comps != [] && other != [] {
      if other[0] == comps[0] {
        var child := if comps[0] in node.children then node.children[comps[0]] else EMPTY;
        SetMakesWay(child, comps[1..], list, other[1..]);
        KindBelow(node, comps, other);
      } else {
        assert !(other <= comps);
      }
    }
  }

  lemma {:induction false} ReadMakesWay(node: Node, comps: seq<string>, other: seq<string>)
    ensures KindAt(ReadList(node, comps).1, other) == if Addressable(node, comps) then KindWith(node, comps, other) else KindAt(node, other)
    decreases |comps|
  {
    if comps != [] && other != [] {
      if other[0] != comps[0] {
        assert !(other <= comps);
      } else if comps[0] in node.children || !node.kind.Regular? {
        var child := if comps[0] in node.children then node.children[comps[0]] else EMPTY;
        ReadMakesWay(child, comps[1..], other[1..]);
        KindBelow(node, comps, other);
        EmptyAddressable(comps[1..]);
      }
    }
  }

  lemma EmptyAddressable(comps: seq<string>)
    ensures Addressable(EMPTY, comps)
  {
  }

  // ---------- permissions after setting and reading ----------

  lemma {:induction false} EmptyGivesNothing(comps: seq<string>, groups: seq<string>)
    ensures Best(EMPTY, comps, groups) == NONE
  {
  }

  lemma {:induction false} SetBelow(node: Node, comps: seq<string>, list: Option<seq<Entry>>, path: seq<string>, groups: seq<string>)
    requires SetList(node, comps, list).Some? && !(comps <= path)
    ensures Best(SetList(node, comps, list).value, path, groups) == Best(node, path, groups)
    decreases |comps|
  {
    if path != [] && path[0] == comps[0] {
      var child := if comps[0] in node.children then node.children[comps[0]] else EMPTY;
      assert !(comps[1..] <= path[1..]) by {
        assert comps == [comps[0]] + comps[1..] && path == [path[0]] + path[1..];
      }
      SetBelow(child, comps[1..], list, path[1..], groups);
      EmptyGivesNothing(path[1..], groups);
    }
  }

  lemma {:induction false} ReadBest(node: Node, comps: seq<string>, path: seq<string>, groups: seq<string>)
    ensures Best(ReadList(node, comps).1, path, groups) == Best(node, path, groups)
    ensures ReadList(node, comps).1.list == node.list
    decreases |comps|
  {
    if comps != [] && (comps[0] in node.children || !node.kind.Regular?) && path != [] && path[0] == comps[0] {
      var child := if comps[0] in node.children then node.children[comps[0]] else EMPTY;
      ReadBest(child, comps[1..], path[1..], groups);
      EmptyGivesNothing(path[1..], groups);
    }
  }

  lemma {:induction false} ReadKeepsLists(node: Node, comps: seq<string>, other: seq<string>)
    ensures ListAt(ReadList(node, comps).1, other) == ListAt(node, other)
    decreases |comps|
  {
    if comps != [] && (comps[0] in node.children || !node.kind.Regular?) && other != [] && other[0] == comps[0] {
      var child := if comps[0] in node.children then node.children[comps[0]] else EMPTY;
      ReadKeepsLists(child, comps[1..], other[1..]);
      assert child == EMPTY ==> ListAt(child, other[1..]) == None;
    }
  }

  // set_permission_list; 1 is failure. The code reads behind an empty path.
  function SetPermissionList(root: Node, path: string, groups: seq<string>, json: Json): (nat, Node)
    requires path != ""
  {
    if !json.JArray? then (1, root)
    else if GetPermission(root, path, groups) != CONFIG then (1, root)
    else
      match SetList(root, Components(path[1..]), LoadList(json))
      case None => (1, root)
      case Some(t) => (0, t)
  }

  // get_permission_list
  function GetPermissionList(root: Node, path: string, groups: seq<string>): (Option<Json>, Node)
    requires path != ""
  {
    if GetPermission(root, path, groups) < READ then (None, root) else ReadList(root, Components(path[1..]))
  }

  /** Setting a list needs config permission and a place for it, and changes permissions only
      at its path and below. */
  lemma SetPermissionExact(root: Node, path: string, groups: seq<string>, json: Json, other: string, who: seq<string>)
    requires path != "" && other != "" && other[0] == '/'
    ensures var (code, t) := SetPermissionList(root, path, groups, json);
            && (code == 0 <==> json.JArray? && GetPermission(root, path, groups) == CONFIG && Addressable(root, Components(path[1..])))
            && (code != 0 ==> code == 1 && t == root)
            && (!(Components(path[1..]) <= Components(other[1..])) ==> GetPermission(t, other, who) == GetPermission(root, other, who))
  {
    var comps := Components(path[1..]);
    SetExact(root, comps, LoadList(json));
    var t := SetPermissionList(root, path, groups, json).1;
    PermissionIsBest(root, other, who);
    PermissionIsBest(t, other, who);
    hide GetPermission, Components;
    if t != root && !(comps <= Components(other[1..])) {
      SetBelow(root, comps, LoadList(json), Components(other[1..]), who);
    }
  }

  /** A list that is set is the one at its path afterwards, and every other list is as it was.
      All nodes are still there, and on the way to the path virtual ones are made. */
  lemma SetPermissionSets(root: Node, path: string, groups: seq<string>, json: Json, c: seq<string>)
    requires path != "" && SetPermissionList(root, path, groups, json).0 == 0
    ensures var t, comps := SetPermissionList(root, path, groups, json).1, Components(path[1..]);
            && ListAt(t, c) == (if c == comps then LoadList(json) else ListAt(root, c))
            && KindAt(t, c) == KindWith(root, comps, c)
  {
    hide GetPermission, Components, LoadList;
    var comps := Components(path[1..]);
    SetChangesOne(root, comps, LoadList(json), c);
    SetMakesWay(root, comps, LoadList(json), c);
  }

  /** Whoever may read at a path is answered the list there, saved, and nobody else anything;
      no list changes by that, and no node but virtual ones on the way are made. */
  lemma GetPermissionExact(root: Node, path: string, who: seq<string>, c: seq<string>)
    requires path != ""
    ensures var (json, t) := GetPermissionList(root, path, who);
            var may, comps := GetPermission(root, path, who) >= READ, Components(path[1..]);
            && json == (if may then SaveList(ListAt(root, comps)) else None)
            && ListAt(t, c) == ListAt(root, c)
            && KindAt(t, c) == (if may && Addressable(root, comps) then KindWith(root, comps, c) else KindAt(root, c))
  {
    hide GetPermission, Components, SaveList;
    var comps := Components(path[1..]);
    ReadFinds(root, comps);
    ReadKeepsLists(root, comps, c);
    ReadMakesWay(root, comps, c);
  }

  /** What has been set is answered to whoever may read there then. */
  lemma SetThenGet(root: Node, path: string, groups: seq<string>, json: Json, who: seq<string>)
    requires path != "" && SetPermissionList(root, path, groups, json).0 == 0
    ensures var t := SetPermissionList(root, path, groups, json).1;
            GetPermissionList(t, path, who).0 == if GetPermission(t, path, who) >= READ then SaveList(LoadList(json)) else None
  {
    var t, comps := SetPermissionList(root, path, groups, json).1, Components(path[1..]);
    SetPermissionSets(root, path, groups, json, comps);
    GetPermissionExact(t, path, who, comps);
  }

  /** Reading a list changes no permission, whatever it creates. */
  lemma ReadChangesNothing(root: Node, path: string, groups: seq<string>, other: string, who: seq<string>)
    requires path != ""
    ensures var t := GetPermissionList(root, path, groups).1;
            GetPermission(t, other, who) == GetPermission(root, other, who)
  {
    var t := GetPermissionList(root, path, groups).1;
    PermissionIsBest(root, other, who);
    PermissionIsBest(t, other, who);
    var comps := if other != "" then Components(other[1..]) else [];
    ReadBest(root, Components(path[1..]), comps, who);
  }

  // ---------- entries as JSON, spelled out ----------

  /** An entry is read from an array of its group and the name of its level, and from nothing
      else. */
  lemma LoadedEntryExact(value: Json, e: Entry)
    ensures LoadedEntry(value) == Some(e) <==> value == JArray([JString(e.group), JString(LevelName(e.level))])
  {
    ParseName(e.level);
    if LoadedEntry(value) == Some(e) {
      NameOfLevel(value.items[1].text);
      assert value.items == [JString(e.group), JString(LevelName(e.level))];
    }
  }

  lemma NameOfLevel(text: string)
    ensures ParseLevel(text).Some? ==> LevelName(ParseLevel(text).value) == text
  {
  }

  // A list is read entry by entry, in order, and saved the same way.
  lemma {:induction false} EntriesApart(a: seq<Json>, b: seq<Json>)
    ensures LoadedEntries(a + b) == LoadedEntries(a) + LoadedEntries(b)
  {
    hide LoadedEntry;
    if b == [] {
      assert a + b == a;
    } else {
      assert (a + b)[..|a + b| - 1] == a + b[..|b| - 1];
      EntriesApart(a, b[..|b| - 1]);
    }
  }

  // ---------- the best level, spelled out ----------

  // A list on the way to the path gives one of the groups the level.
  ghost predicate Gives(node: Node, comps: seq<string>, groups: seq<string>, k: nat, g: nat, level: Level)
    requires k <= |comps| && g < |groups|
  {
    var list := ListAt(node, comps[..k]);
    list.Some? && FirstMatch(list.value, groups[g]) == level
  }

  lemma {:induction false} BestOfIsMax(list: seq<Entry>, groups: seq<string>)
    ensures forall g | 0 <= g < |groups| :: FirstMatch(list, groups[g]) <= BestOf(list, groups)
    ensures BestOf(list, groups) != NONE ==> exists g | 0 <= g < |groups| :: FirstMatch(list, groups[g]) == BestOf(list, groups)
  {
    hide FirstMatch;
    if groups != [] {
      var front := groups[..|groups| - 1];
      BestOfIsMax(list, front);
      assert forall g | 0 <= g < |front| :: groups[g] == front[g];
      assert FirstMatch(list, groups[|groups| - 1]) <= BestOf(list, groups);
    }
  }

  /** The best level is one that a list on the way gives a group, if it is not none, and no
      list on the way gives any group a higher one. */
  lemma {:induction false} BestIsMax(node: Node, comps: seq<string>, groups: seq<string>)
    ensures forall k, g, level: Level | 0 <= k <= |comps| && 0 <= g < |groups| && Gives(node, comps, groups, k, g, level) ::
              level <= Best(node, comps, groups)
    ensures Best(node, comps, groups) != NONE ==>
              exists k, g | 0 <= k <= |comps| && 0 <= g < |groups| :: Gives(node, comps, groups, k, g, Best(node, comps, groups))
    decreases |comps|
  {
    hide FirstMatch, BestOf;
    if node.list.Some? {
      BestOfIsMax(node.list.value, groups);
    }
    var best := Best(node, comps, groups);
    var further := comps != [] && comps[0] in node.children;
    if further {
      BestIsMax(node.children[comps[0]], comps[1..], groups);
    }
    forall k, g, level: Level | 0 <= k <= |comps| && 0 <= g < |groups| && Gives(node, comps, groups, k, g, level)
      ensures level <= best
    {
      GivesBelow(node, comps, groups, k, g, level);
    }
    if best != NONE {
      if further && best == Best(node.children[comps[0]], comps[1..], groups) {
        var k, g :| 0 <= k <= |comps[1..]| && 0 <= g < |groups| && Gives(node.children[comps[0]], comps[1..], groups, k, g, best);
        GivesBelow(node, comps, groups, k + 1, g, best);
      } else {
        var g :| 0 <= g < |groups| && FirstMatch(node.list.value, groups[g]) == best;
        GivesBelow(node, comps, groups, 0, g, best);
      }
    }
  }

  lemma GivesBelow(node: Node, comps: seq<string>, groups: seq<string>, k: nat, g: nat, level: Level)
    requires k <= |comps| && g < |groups|
    ensures Gives(node, comps, groups, k, g, level) <==>
            if k == 0 then node.list.Some? && FirstMatch(node.list.value, groups[g]) == level
            else comps[0] in node.children && Gives(node.children[comps[0]], comps[1..], groups, k - 1, g, level)
  {
    hide FirstMatch;
    if k > 0 {
      assert comps[..k][0] == comps[0] && comps[..k][1..] == comps[1..][..k - 1];
    }
  }

  /** A list is read from every array but an empty one; its entries are those of the array that
      are entries, and no others. What is saved is the array of all entries, or nothing if there
      are none. */
  lemma LoadListExact(json: Json, list: Option<seq<Entry>>, e: Entry)
    ensures LoadList(json).Some? <==> json.JArray? && json.items != []
    ensures LoadList(json).Some? ==> (e in LoadList(json).value <==> JArray([JString(e.group), JString(LevelName(e.level))]) in json.items)
    ensures SaveList(list).Some? <==> list.Some? && list.value != []
    ensures SaveList(list).Some? ==>
              && SaveList(list).value.JArray? && |SaveList(list).value.items| == |list.value|
              && forall i | 0 <= i < |list.value| ::
                   SaveList(list).value.items[i] == JArray([JString(list.value[i].group), JString(LevelName(list.value[i].level))])
  {
    hide LoadedEntries, LevelName;
    if LoadList(json).Some? {
      LoadedMembers(json.items, e);
    }
  }

  lemma {:induction false} LoadedMembers(items: seq<Json>, e: Entry)
    ensures e in LoadedEntries(items) <==> JArray([JString(e.group), JString(LevelName(e.level))]) in items
  {
    hide LoadedEntry, LevelName;
    if items != [] {
      var front, last := items[..|items| - 1], items[|items| - 1];
      assert items == front + [last];
      LoadedMembers(front, e);
      LoadedEntryExact(last, e);
    }
  }
}
