/** Saving and loading the nodes of links with their virtual trees
    (broker/src/node/node_serialization.c). Metadata and children are maps that are walked in
    the order of insertion. */
module Serialization {
  import opened Common
  import opened Json
  import opened Permission
  import opened PermissionLists

  datatype Child = Child(name: string, node: VNode)

  datatype VNode = VNode(meta: seq<Field>, list: Option<seq<Entry>>, children: seq<Child>)

  const PERMISSIONS := "?permissions"
  const BLANK := VNode([], None, [])

  predicate IsMeta(key: string) {
    key != "" && (key[0] == '$' || key[0] == '@')
  }

  predicate IsHidden(key: string) {
    key != "" && key[0] == '?'
  }

  // ---------- saving ----------

  // The metadata and the permissions of a node.
  function SavedBase(n: VNode): seq<Field> {
    match SaveList(n.list)
    case None => n.meta
    case Some(list) => SetField(n.meta, PERMISSIONS, list)
  }

  // broker_save_downstream_virtual_nodes with the first k children.
  function SavedFields(n: VNode, k: nat): seq<Field>
    requires k <= |n.children|
    decreases n, k
  {
    if k == 0 then SavedBase(n)
    else SetField(SavedFields(n, k - 1), n.children[k - 1].name, Saved(n.children[k - 1].node))
  }

  function Saved(n: VNode): Json
    decreases n, |n.children| + 1
  {
    JObject(SavedFields(n, |n.children|))
  }

  // ---------- loading ----------

  // dslink_map_set on the children: a known name keeps its place.
  function ChildAt(cs: seq<Child>, name: string): (i: int)
    ensures -1 <= i < |cs|
    ensures i >= 0 ==> cs[i].name == name
    ensures i == -1 ==> forall j | 0 <= j < |cs| :: cs[j].name != name
  {
    if cs == [] then -1 else if cs[|cs| - 1].name == name then |cs| - 1 else ChildAt(cs[..|cs| - 1], name)
  }

  function SetChild(cs: seq<Child>, name: string, node: VNode): seq<Child> {
    var i := ChildAt(cs, name);
    if i >= 0 then cs[i := Child(name, node)] else cs + [Child(name, node)]
  }

  // One key of the object; `below` is the node its value loads to.
  function WithKey(n: VNode, key: string, value: Json, below: VNode): VNode {
    if IsHidden(key) then
      if key == PERMISSIONS then n.(list := LoadList(value)) else n
    else if IsMeta(key) then n.(meta := SetField(n.meta, key, value))
    else n.(children := SetChild(n.children, key, below))
  }

  function LoadedFields(data: Json, k: nat): VNode
    requires data.JObject? && k <= |data.fields|
    decreases data, k
  {
    if k == 0 then BLANK
    else
      var f := data.fields[k - 1];
      WithKey(LoadedFields(data, k - 1), f.key, f.value, Loaded(f.value))
  }

  // broker_load_downstream_virtual_nodes
  function Loaded(data: Json): VNode
    decreases data, if data.JObject? then |data.fields| + 1 else 0
  {
    if data.JObject? then LoadedFields(data, |data.fields|) else BLANK
  }

  // ---------- what can be saved ----------

  predicate DistinctNames(cs: seq<Child>) {
    forall i, j | 0 <= i < j < |cs| :: cs[i].name != cs[j].name
  }

  // A map holds no key twice.
  predicate IsTree(n: VNode)
    decreases n
  {
    && DistinctFields(n.meta) && DistinctNames(n.children)
    && forall i | 0 <= i < |n.children| :: IsTree(n.children[i].node)
  }

  // Keys that come back as what they were, and no empty list.
  predicate SavableHere(n: VNode) {
    && (forall i | 0 <= i < |n.meta| :: IsMeta(n.meta[i].key))
    && (forall i | 0 <= i < |n.children| :: !IsMeta(n.children[i].name) && !IsHidden(n.children[i].name))
    && n.list != Some([])
  }

  predicate Savable(n: VNode)
    decreases n
  {
    SavableHere(n) && forall i | 0 <= i < |n.children| :: Savable(n.children[i].node)
  }

  // ---------- savable trees come back ----------

  function PermissionFields(n: VNode): (r: seq<Field>)
    ensures |r| <= 1 && forall i | 0 <= i < |r| :: r[i].key == PERMISSIONS
  {
    match SaveList(n.list)
    case None => []
    case Some(list) => [Field(PERMISSIONS, list)]
  }

  function ChildFields(n: VNode, k: nat): (r: seq<Field>)
    requires k <= |n.children|
    ensures |r| == k && forall i | 0 <= i < k :: r[i] == Field(n.children[i].name, Saved(n.children[i].node))
  {
    seq(k, i requires 0 <= i < k => Field(n.children[i].name, Saved(n.children[i].node)))
  }

  // The fields of a node, its first k children included.
  function Plain(n: VNode, k: nat): seq<Field>
    requires k <= |n.children|
  {
    n.meta + PermissionFields(n) + ChildFields(n, k)
  }

  lemma KeyKinds(n: VNode, k: nat, i: nat)
    requires SavableHere(n) && k <= |n.children| && i < |Plain(n, k)|
    ensures var f, m, p := Plain(n, k)[i], |n.meta|, |PermissionFields(n)|;
            if i < m then f == n.meta[i] && IsMeta(f.key)
            else if i < m + p then f == PermissionFields(n)[0] && f.key == PERMISSIONS
            else f == Field(n.children[i - m - p].name, Saved(n.children[i - m - p].node)) && !IsMeta(f.key) && !IsHidden(f.key)
  {
    hide Saved, PermissionFields;
  }

  lemma PlainNext(n: VNode, k: nat)
    requires k < |n.children|
    ensures Plain(n, k + 1) == Plain(n, k) + [Field(n.children[k].name, Saved(n.children[k].node))]
  {
    hide Saved, PermissionFields;
  }

  lemma NameIsNew(n: VNode, k: nat)
    requires SavableHere(n) && DistinctNames(n.children) && k < |n.children|
    ensures forall i | 0 <= i < |Plain(n, k)| :: Plain(n, k)[i].key != n.children[k].name
  {
    forall i | 0 <= i < |Plain(n, k)| ensures Plain(n, k)[i].key != n.children[k].name {
      KeyKinds(n, k, i);
      hide Plain, Saved;
    }
  }

  lemma PlainBase(n: VNode)
    requires SavableHere(n)
    ensures SavedFields(n, 0) == Plain(n, 0)
  {
    if SaveList(n.list).Some? {
      SetNew(n.meta, PERMISSIONS, SaveList(n.list).value);
    }
  }

  lemma SavedNext(n: VNode, k: nat)
    requires k < |n.children|
    ensures SavedFields(n, k + 1) == SetField(SavedFields(n, k), n.children[k].name, Saved(n.children[k].node))
  {
  }

  // No key overwrites another.
  lemma {:induction false} SavedPlain(n: VNode, k: nat)
    requires SavableHere(n) && DistinctNames(n.children) && k <= |n.children|
    ensures SavedFields(n, k) == Plain(n, k)
  {
    hide SavedFields, Saved, Plain, SetField, SavableHere, DistinctNames;
    if k == 0 {
      PlainBase(n);
    } else {
      SavedPlain(n, k - 1);
      SavedNext(n, k - 1);
      PlainNext(n, k - 1);
      NameIsNew(n, k - 1);
      SetNew(SavedFields(n, k - 1), n.children[k - 1].name, Saved(n.children[k - 1].node));
    }
  }

  // ---------- loading what was saved ----------

  lemma SetNewChild(cs: seq<Child>, name: string, node: VNode)
    requires forall j | 0 <= j < |cs| :: cs[j].name != name
    ensures SetChild(cs, name, node) == cs + [Child(name, node)]
  {
  }

  // The children as they come back.
  function Returned(n: VNode, k: nat): (r: seq<Child>)
    requires k <= |n.children|
    ensures |r| == k && forall i | 0 <= i < k :: r[i] == Child(n.children[i].name, Loaded(Saved(n.children[i].node)))
  {
    seq(k, i requires 0 <= i < k => Child(n.children[i].name, Loaded(Saved(n.children[i].node))))
  }

  // Where the loading of n stands after k fields.
  function Halfway(n: VNode, k: nat): VNode
    requires k <= |n.meta| + |PermissionFields(n)| + |n.children|
  {
    var m, p := |n.meta|, |PermissionFields(n)|;
    VNode(n.meta[..Min(k, m)], if k >= m + p then n.list else None, Returned(n, Max(0, k - m - p)))
  }

  lemma NoList(n: VNode)
    requires SavableHere(n)
    ensures PermissionFields(n) == [] <==> n.list == None
    ensures PermissionFields(n) != [] ==> LoadList(PermissionFields(n)[0].value) == n.list
  {
    if n.list.Some? {
      LoadSaved(n.list.value);
    }
  }

  lemma LoadMeta(n: VNode, i: nat)
    requires DistinctFields(n.meta) && i < |n.meta|
    ensures SetField(n.meta[..i], n.meta[i].key, n.meta[i].value) == n.meta[..i + 1]
  {
    SetNew(n.meta[..i], n.meta[i].key, n.meta[i].value);
  }

  lemma LoadChild(n: VNode, i: nat)
    requires DistinctNames(n.children) && i < |n.children|
    ensures SetChild(Returned(n, i), n.children[i].name, Loaded(Saved(n.children[i].node))) == Returned(n, i + 1)
  {
    hide Loaded, Saved;
    SetNewChild(Returned(n, i), n.children[i].name, Loaded(Saved(n.children[i].node)));
    hide SetChild;
    assert Returned(n, i + 1) == Returned(n, i) + [Child(n.children[i].name, Loaded(Saved(n.children[i].node)))];
  }

  lemma LoadedNext(data: Json, k: nat)
    requires data.JObject? && k < |data.fields|
    ensures LoadedFields(data, k + 1) == WithKey(LoadedFields(data, k), data.fields[k].key, data.fields[k].value, Loaded(data.fields[k].value))
  {
  }

  lemma PlainLength(n: VNode)
    ensures |Plain(n, |n.children|)| == |n.meta| + |PermissionFields(n)| + |n.children|
  {
  }

  lemma LoadNext(n: VNode, k: nat)
    requires IsTree(n) && SavableHere(n) && k < |Plain(n, |n.children|)|
    ensures |Plain(n, |n.children|)| == |n.meta| + |PermissionFields(n)| + |n.children|
    ensures var f := Plain(n, |n.children|)[k];
            WithKey(Halfway(n, k), f.key, f.value, Loaded(f.value)) == Halfway(n, k + 1)
  {
    hide Plain, WithKey, IsMeta, IsHidden, Loaded, Saved, SetField, SetChild, LoadList, SaveList, SavableHere, PermissionFields,
         DistinctFields, DistinctNames, Halfway;
    var f := Plain(n, |n.children|)[k];
    KeyKinds(n, |n.children|, k);
    PlainLength(n);
    KindOfKey(Halfway(n, k), f.key, f.value, Loaded(f.value));
    var m, p := |n.meta|, |PermissionFields(n)|;
    if k < m {
      HalfwayMeta(n, k);
    } else if k < m + p {
      HalfwayList(n, k);
    } else {
      HalfwayChild(n, k);
    }
  }

  lemma HalfwayMeta(n: VNode, k: nat)
    requires IsTree(n) && SavableHere(n) && k < |n.meta|
    ensures Halfway(n, k).(meta := SetField(Halfway(n, k).meta, n.meta[k].key, n.meta[k].value)) == Halfway(n, k + 1)
  {
    hide SetField, PermissionFields, SaveList, LoadList;
    LoadMeta(n, k);
    NoList(n);
  }

  lemma HalfwayList(n: VNode, k: nat)
    requires SavableHere(n) && |n.meta| <= k < |n.meta| + |PermissionFields(n)|
    ensures Halfway(n, k).(list := LoadList(PermissionFields(n)[0].value)) == Halfway(n, k + 1)
  {
    hide PermissionFields, LoadList, SaveList;
    NoList(n);
  }

  lemma HalfwayChild(n: VNode, k: nat)
    requires IsTree(n) && |n.meta| + |PermissionFields(n)| <= k < |n.meta| + |PermissionFields(n)| + |n.children|
    ensures var c := n.children[k - |n.meta| - |PermissionFields(n)|];
            Halfway(n, k).(children := SetChild(Halfway(n, k).children, c.name, Loaded(Saved(c.node)))) == Halfway(n, k + 1)
  {
    hide PermissionFields, SetChild, Loaded, Saved;
    LoadChild(n, k - |n.meta| - |PermissionFields(n)|);
  }

  lemma KindOfKey(n: VNode, key: string, value: Json, below: VNode)
    ensures IsMeta(key) ==> WithKey(n, key, value, below) == n.(meta := SetField(n.meta, key, value))
    ensures key == PERMISSIONS ==> WithKey(n, key, value, below) == n.(list := LoadList(value))
    ensures !IsMeta(key) && !IsHidden(key) ==> WithKey(n, key, value, below) == n.(children := SetChild(n.children, key, below))
  {
    hide SetField, SetChild, LoadList;
  }

  lemma LoadFirst(n: VNode)
    requires SavableHere(n)
    ensures LoadedFields(JObject(Plain(n, |n.children|)), 0) == Halfway(n, 0)
  {
    NoList(n);
  }

  lemma {:induction false} LoadPlain(n: VNode, k: nat)
    requires IsTree(n) && SavableHere(n) && k <= |Plain(n, |n.children|)|
    ensures |Plain(n, |n.children|)| == |n.meta| + |PermissionFields(n)| + |n.children|
    ensures LoadedFields(JObject(Plain(n, |n.children|)), k) == Halfway(n, k)
  {
    hide LoadedFields, Loaded, Plain, Halfway, WithKey;
    PlainLength(n);
    if k == 0 {
      LoadFirst(n);
    } else {
      LoadPlain(n, k - 1);
      LoadNext(n, k - 1);
      LoadedNext(JObject(Plain(n, |n.children|)), k - 1);
    }
  }

  // What comes back of a node whose own keys are savable.
  lemma LoadBack(n: VNode)
    requires IsTree(n) && SavableHere(n)
    ensures Loaded(Saved(n)) == n.(children := Returned(n, |n.children|))
  {
    var k := |n.children|;
    SavedPlain(n, k);
    assert Saved(n) == JObject(Plain(n, k));
    LoadPlain(n, |Plain(n, k)|);
    hide Saved, Plain;
  }

  // ---------- nothing else comes back ----------

  lemma SetFieldKeys(fields: seq<Field>, key: string, value: Json, i: nat)
    requires i < |SetField(fields, key, value)|
    ensures SetField(fields, key, value)[i].key == key || (i < |fields| && SetField(fields, key, value)[i].key == fields[i].key)
  {
  }

  lemma SetChildNames(cs: seq<Child>, name: string, node: VNode, i: nat)
    requires i < |SetChild(cs, name, node)|
    ensures SetChild(cs, name, node)[i].name == name || (i < |cs| && SetChild(cs, name, node)[i].name == cs[i].name)
  {
  }

  ghost predicate GoodKeys(n: VNode) {
    && (forall i | 0 <= i < |n.meta| :: IsMeta(n.meta[i].key))
    && (forall i | 0 <= i < |n.children| :: !IsMeta(n.children[i].name) && !IsHidden(n.children[i].name))
  }

  lemma WithKeyGood(n: VNode, key: string, value: Json, below: VNode)
    requires GoodKeys(n)
    ensures GoodKeys(WithKey(n, key, value, below))
    ensures key != PERMISSIONS ==> WithKey(n, key, value, below).list == n.list
  {
    var t := WithKey(n, key, value, below);
    hide SetField, SetChild;
    forall i | 0 <= i < |t.meta| ensures IsMeta(t.meta[i].key) {
      if t.meta != n.meta {
        SetFieldKeys(n.meta, key, value, i);
      }
    }
    forall i | 0 <= i < |t.children| ensures !IsMeta(t.children[i].name) && !IsHidden(t.children[i].name) {
      if t.children != n.children {
        SetChildNames(n.children, key, below, i);
      }
    }
  }

  // Loaded keys are good, and without the key there is no list.
  lemma {:induction false} LoadedGood(data: Json, k: nat)
    requires data.JObject? && k <= |data.fields|
    ensures GoodKeys(LoadedFields(data, k))
    ensures (forall i | 0 <= i < k :: data.fields[i].key != PERMISSIONS) ==> LoadedFields(data, k).list == None
  {
    if k > 0 {
      LoadedGood(data, k - 1);
      LoadedNext(data, k - 1);
      var f := data.fields[k - 1];
      hide LoadedFields, WithKey, GoodKeys, Loaded;
      WithKeyGood(LoadedFields(data, k - 1), f.key, f.value, Loaded(f.value));
    }
  }

  lemma BaseHasNoList(n: VNode)
    requires GoodKeys(n) && n.list == Some([])
    ensures forall i | 0 <= i < |SavedFields(n, 0)| :: SavedFields(n, 0)[i].key != PERMISSIONS
  {
  }

  lemma ChildIsPlain(n: VNode, k: nat)
    requires GoodKeys(n) && k < |n.children|
    ensures n.children[k].name != PERMISSIONS
  {
  }

  lemma {:induction false} SavedHasNoList(n: VNode, k: nat)
    requires GoodKeys(n) && n.list == Some([]) && k <= |n.children|
    ensures forall i | 0 <= i < |SavedFields(n, k)| :: SavedFields(n, k)[i].key != PERMISSIONS
  {
    hide SavedFields, Saved, SetField, GoodKeys;
    if k == 0 {
      BaseHasNoList(n);
    } else {
      SavedHasNoList(n, k - 1);
      SavedNext(n, k - 1);
      ChildIsPlain(n, k - 1);
      forall i | 0 <= i < |SavedFields(n, k)| ensures SavedFields(n, k)[i].key != PERMISSIONS {
        SetFieldKeys(SavedFields(n, k - 1), n.children[k - 1].name, Saved(n.children[k - 1].node), i);
      }
    }
  }

  lemma Lost(n: VNode)
    requires !SavableHere(n)
    ensures Loaded(Saved(n)) != n
  {
    var k := |n.children|;
    LoadedGood(Saved(n), |SavedFields(n, k)|);
    assert GoodKeys(Loaded(Saved(n)));
    if GoodKeys(n) {
      SavedHasNoList(n, k);
    }
  }

  /** Saving and loading gives a virtual tree back, order and all, exactly when on every level
      metadata keys start with '$' or '@', children's names with neither of them nor '?', and
      no permission list is an empty one. */
  lemma {:induction false} RoundTrip(n: VNode)
    requires IsTree(n)
    ensures Loaded(Saved(n)) == n <==> Savable(n)
    decreases n
  {
    if SavableHere(n) {
      LoadBack(n);
      hide Loaded, Saved;
      forall i | 0 <= i < |n.children|
        ensures Loaded(Saved(n.children[i].node)) == n.children[i].node <==> Savable(n.children[i].node)
      {
        RoundTrip(n.children[i].node);
      }
      SameChildren(n);
    } else {
      Lost(n);
    }
  }

  lemma SameChildren(n: VNode)
    ensures Returned(n, |n.children|) == n.children
       <==> forall i | 0 <= i < |n.children| :: Loaded(Saved(n.children[i].node)) == n.children[i].node
  {
    hide Loaded, Saved;
    if Returned(n, |n.children|) == n.children {
      forall i | 0 <= i < |n.children| ensures Loaded(Saved(n.children[i].node)) == n.children[i].node {
        assert Returned(n, |n.children|)[i] == n.children[i];
      }
    }
  }

  // ---------- the nodes of links ----------

  datatype LinkNode = LinkNode(name: string, dsId: string, meta: seq<Field>, list: Option<seq<Entry>>, children: seq<Child>)

  const DISCONNECTED := "$disconnectedTs"
  const DSID := "$$dsId"
  const IS := "$is"
  const LINK_PROFILE := JString("dsa/link")

  // What of a link's node is saved.
  function View(d: LinkNode): VNode {
    VNode(DeleteField(d.meta, DISCONNECTED), d.list, d.children)
  }

  // One node of broker_save_downstream_nodes.
  function SavedLink(d: LinkNode): Json {
    Saved(View(d))
  }

  // The loop of broker_load_downstream_nodes over a node that broker_init_downstream_node has
  // given its profile.
  function LinkFields(data: Json, k: nat): VNode
    requires data.JObject? && k <= |data.fields|
  {
    if k == 0 then VNode([Field(IS, LINK_PROFILE)], None, [])
    else
      var f := data.fields[k - 1];
      WithKey(LinkFields(data, k - 1), f.key, f.value, Loaded(f.value))
  }

  function LoadedLink(name: string, data: Json): Option<LinkNode> {
    if IsMeta(name) || !data.JObject? then None
    else
      match Value(data.fields, DSID)
      case Some(JString(dsId)) =>
        var n := LinkFields(data, |data.fields|);
        Some(LinkNode(name, dsId, n.meta, n.list, n.children))
      case _ => None
  }

  // The same as a virtual node, but for the profile.
  ghost predicate SameBut(n: VNode, v: VNode) {
    && n.list == v.list && n.children == v.children && DistinctFields(n.meta) && DistinctFields(v.meta)
    && forall key :: Value(n.meta, key) == if key == IS && Value(v.meta, key) == None then Some(LINK_PROFILE) else Value(v.meta, key)
  }

  lemma WithKeySame(n: VNode, v: VNode, key: string, value: Json, below: VNode)
    requires SameBut(n, v)
    ensures SameBut(WithKey(n, key, value, below), WithKey(v, key, value, below))
  {
    hide SetField, SetChild, Value, LoadList;
    forall other
      ensures Value(SetField(n.meta, key, value), other) == if other == key then Some(value) else Value(n.meta, other)
      ensures Value(SetField(v.meta, key, value), other) == if other == key then Some(value) else Value(v.meta, other)
    {
      ValueSet(n.meta, key, value, other);
      ValueSet(v.meta, key, value, other);
    }
    ValueSet(n.meta, key, value, key);
    ValueSet(v.meta, key, value, key);
  }

  lemma {:induction false} LinkSame(data: Json, k: nat)
    requires data.JObject? && k <= |data.fields|
    ensures SameBut(LinkFields(data, k), LoadedFields(data, k))
  {
    if k > 0 {
      LinkSame(data, k - 1);
      LoadedNext(data, k - 1);
      var f := data.fields[k - 1];
      hide WithKey, Loaded, LoadedFields, SameBut;
      WithKeySame(LinkFields(data, k - 1), LoadedFields(data, k - 1), f.key, f.value, Loaded(f.value));
    } else {
      assert [Field(IS, LINK_PROFILE)][..0] == [];
    }
  }

  // The dsId is found among the metadata.
  lemma SavedDsId(d: LinkNode)
    requires IsTree(View(d)) && SavableHere(View(d))
    ensures Saved(View(d)).JObject? && Value(Saved(View(d)).fields, DSID) == Value(View(d).meta, DSID)
  {
    var n := View(d);
    var k := |n.children|;
    SavedPlain(n, k);
    hide Saved, SavedFields;
    assert Saved(n) == JObject(Plain(n, k)) by { SavedIsFields(n); }
    ValueAmong(n, k);
  }

  lemma SavedIsFields(n: VNode)
    ensures Saved(n) == JObject(SavedFields(n, |n.children|))
  {
  }

  lemma ValueAmong(n: VNode, k: nat)
    requires SavableHere(n) && k <= |n.children|
    ensures Value(Plain(n, k), DSID) == Value(n.meta, DSID)
  {
    var fields := Plain(n, k);
    forall i | 0 <= i < |fields| ensures fields[i].key == DSID ==> i < |n.meta| && fields[i] == n.meta[i] {
      KeyKinds(n, k, i);
      hide Plain;
    }
    LastAmong(fields, n.meta, DSID);
  }

  lemma LastAmong(fields: seq<Field>, meta: seq<Field>, key: string)
    requires |meta| <= |fields| && fields[..|meta|] == meta
    requires forall i | 0 <= i < |fields| :: fields[i].key == key ==> i < |meta|
    ensures Value(fields, key) == Value(meta, key)
  {
    if |fields| == |meta| {
      assert fields == meta;
    } else {
      assert fields[|fields| - 1].key != key;
      assert fields[..|fields| - 1][..|meta|] == meta;
      LastAmong(fields[..|fields| - 1], meta, key);
    }
  }

  /** What of a link's node comes back: all but the time of disconnection, with a profile. */
  ghost predicate ReturnsAs(d: LinkNode, r: LinkNode) {
    && r.name == d.name && r.dsId == d.dsId && r.list == d.list && r.children == d.children
    && forall key :: Value(r.meta, key) == if key == DISCONNECTED then None
                                           else if key == IS && Value(d.meta, key) == None then Some(LINK_PROFILE)
                                           else Value(d.meta, key)
  }

  // The dsId is kept among the metadata, or is missing there.
  ghost predicate Storable(d: LinkNode) {
    && IsTree(View(d)) && DistinctFields(d.meta) && Savable(View(d))
    && forall dsId :: Value(d.meta, DSID) == Some(JString(dsId)) ==> dsId == d.dsId
  }

  // A link under a name that the file keeps for metadata is not read back, nor one without a dsId.
  predicate IsKept(d: LinkNode) {
    !IsMeta(d.name) && Value(d.meta, DSID) == Some(JString(d.dsId))
  }

  /** A link's node comes back with its permission list, its whole virtual tree and all its
      metadata but the time of disconnection, exactly when it is kept. */
  lemma LinkRoundTrip(d: LinkNode)
    requires Storable(d)
    ensures LoadedLink(d.name, SavedLink(d)).Some? <==> IsKept(d)
    ensures IsKept(d) ==> ReturnsAs(d, LoadedLink(d.name, SavedLink(d)).value)
  {
    hide Saved, Loaded, Savable, DeleteField, LinkFields, LoadedFields, SavableHere, IsTree;
    var n := View(d);
    assert Loaded(Saved(n)) == n by { RoundTrip(n); }
    assert SavableHere(n) by { SavableHasKeys(n); }
    SavedDsId(d);
    ValueDeleted(d.meta, DISCONNECTED, DSID);
    var data := Saved(n);
    LinkSame(data, |data.fields|);
    assert LoadedFields(data, |data.fields|) == n by { LoadedIsFields(data); }
    forall key ensures Value(n.meta, key) == if key == DISCONNECTED then None else Value(d.meta, key) {
      ValueDeleted(d.meta, DISCONNECTED, key);
    }
  }

  lemma SavableHasKeys(n: VNode)
    requires Savable(n)
    ensures SavableHere(n)
  {
  }

  lemma LoadedIsFields(data: Json)
    requires data.JObject?
    ensures Loaded(data) == LoadedFields(data, |data.fields|)
  {
  }

  // ---------- the file of all links ----------

  // The loop of broker_save_downstream_nodes.
  function SavedFile(ds: seq<LinkNode>): seq<Field> {
    if ds == [] then []
    else SetField(SavedFile(ds[..|ds| - 1]), ds[|ds| - 1].name, SavedLink(ds[|ds| - 1]))
  }

  // The loop of broker_load_downstream_nodes, which adds the links it can read.
  function LoadedFile(fields: seq<Field>): seq<LinkNode> {
    if fields == [] then []
    else
      var last := fields[|fields| - 1];
      LoadedFile(fields[..|fields| - 1]) + match LoadedLink(last.key, last.value) case Some(d) => [d] case None => []
  }

  predicate DistinctLinks(ds: seq<LinkNode>) {
    forall i, j | 0 <= i < j < |ds| :: ds[i].name != ds[j].name
  }

  function Kept(ds: seq<LinkNode>): seq<LinkNode> {
    if ds == [] then [] else Kept(ds[..|ds| - 1]) + (if IsKept(ds[|ds| - 1]) then [ds[|ds| - 1]] else [])
  }

  lemma {:induction false} SavedInOrder(ds: seq<LinkNode>)
    requires DistinctLinks(ds)
    ensures |SavedFile(ds)| == |ds|
    ensures forall i | 0 <= i < |ds| :: SavedFile(ds)[i] == Field(ds[i].name, SavedLink(ds[i]))
  {
    hide SavedLink, SetField;
    if ds != [] {
      var front, last := ds[..|ds| - 1], ds[|ds| - 1];
      SavedInOrder(front);
      assert forall i | 0 <= i < |front| :: SavedFile(front)[i].key == ds[i].name != last.name;
      SetNew(SavedFile(front), last.name, SavedLink(last));
    }
  }

  /** The file of all links: those that are kept come back, each as it was, in their order. */
  lemma {:induction false} FileRoundTrip(ds: seq<LinkNode>)
    requires DistinctLinks(ds) && forall i | 0 <= i < |ds| :: Storable(ds[i])
    ensures |LoadedFile(SavedFile(ds))| == |Kept(ds)|
    ensures forall i | 0 <= i < |Kept(ds)| :: ReturnsAs(Kept(ds)[i], LoadedFile(SavedFile(ds))[i])
  {
    hide SavedLink, LoadedLink, Storable, IsKept, ReturnsAs, SavedFile;
    SavedInOrder(ds);
    if ds != [] {
      var front, last := ds[..|ds| - 1], ds[|ds| - 1];
      SavedInOrder(front);
      FileRoundTrip(front);
      LinkRoundTrip(last);
      assert SavedFile(ds)[..|ds| - 1] == SavedFile(front);
    } else {
      assert SavedFile(ds) == [];
    }
  }

  // ---------- what is in the file ----------

  lemma PlainDistinct(n: VNode)
    requires IsTree(n) && SavableHere(n)
    ensures DistinctFields(Plain(n, |n.children|))
  {
    var fields, m, p := Plain(n, |n.children|), |n.meta|, |PermissionFields(n)|;
    PlainLength(n);
    PermissionsIsHidden();
    hide Saved, SavableHere, Plain, PermissionFields, IsMeta, IsHidden;
    forall i, j | 0 <= i < j < |fields| ensures fields[i].key != fields[j].key {
      KeyKinds(n, |n.children|, i);
      KeyKinds(n, |n.children|, j);
      if j < m {
        assert n.meta[i].key != n.meta[j].key;
      } else if i >= m + p {
        assert n.children[i - m - p].name != n.children[j - m - p].name;
      }
    }
  }

  lemma PermissionsIsHidden()
    ensures IsHidden(PERMISSIONS) && !IsMeta(PERMISSIONS)
  {
  }

  /** What is written of a node: under "?permissions" its list, if it has one; under their keys
      its metadata; under their names its children; and nothing else. */
  lemma SavedKeys(n: VNode, key: string)
    requires IsTree(n) && SavableHere(n)
    ensures Saved(n).JObject?
    ensures key == "?permissions" ==> Value(Saved(n).fields, key) == SaveList(n.list)
    ensures forall i | 0 <= i < |n.meta| && n.meta[i].key == key :: Value(Saved(n).fields, key) == Some(n.meta[i].value)
    ensures forall i | 0 <= i < |n.children| && n.children[i].name == key :: Value(Saved(n).fields, key) == Some(Saved(n.children[i].node))
    ensures Value(Saved(n).fields, key).Some? ==>
              || key == "?permissions" || (exists i | 0 <= i < |n.meta| :: n.meta[i].key == key)
              || exists i | 0 <= i < |n.children| :: n.children[i].name == key
  {
    var k := |n.children|;
    var fields := Plain(n, k);
    SavedPlain(n, k);
    SavedIsFields(n);
    PlainDistinct(n);
    PlainLength(n);
    hide Saved, SavedFields, SavableHere, IsTree, Value, SaveList;
    PlainKeys(n, key);
  }

  lemma PlainKeys(n: VNode, key: string)
    requires SavableHere(n) && DistinctFields(Plain(n, |n.children|))
    ensures var fields := Plain(n, |n.children|);
            && (key == PERMISSIONS ==> Value(fields, key) == SaveList(n.list))
            && (forall i | 0 <= i < |n.meta| && n.meta[i].key == key :: Value(fields, key) == Some(n.meta[i].value))
            && (forall i | 0 <= i < |n.children| && n.children[i].name == key :: Value(fields, key) == Some(Saved(n.children[i].node)))
            && (Value(fields, key).Some? ==>
                  || key == PERMISSIONS || (exists i | 0 <= i < |n.meta| :: n.meta[i].key == key)
                  || exists i | 0 <= i < |n.children| :: n.children[i].name == key)
  {
    var k, m, p := |n.children|, |n.meta|, |PermissionFields(n)|;
    var fields := Plain(n, k);
    PlainLength(n);
    PermissionsIsHidden();
    forall i | 0 <= i < m && n.meta[i].key == key ensures Value(fields, key) == Some(n.meta[i].value) {
      KeyKinds(n, k, i);
      FieldUnique(fields, key, i);
    }
    forall i | 0 <= i < k && n.children[i].name == key ensures Value(fields, key) == Some(Saved(n.children[i].node)) {
      KeyKinds(n, k, m + p + i);
      FieldUnique(fields, key, m + p + i);
    }
    var at := FieldAt(fields, key);
    if at >= 0 {
      KeyKinds(n, k, at);
    }
    if p > 0 {
      KeyKinds(n, k, m);
      FieldUnique(fields, PERMISSIONS, m);
    }
    hide Saved, SavableHere, Plain, IsMeta, IsHidden;
  }

  /** A link is read back under a name that is not one for metadata, with the dsId that is
      under "$$dsId"; the profile it begins with is "dsa/link" under "$is", and the time under
      "$disconnectedTs" is not written. */
  lemma LinkKeys(name: string, data: Json, d: LinkNode)
    requires DistinctFields(d.meta)
    ensures LoadedLink(name, data).Some? <==>
              && !(name != "" && (name[0] == '$' || name[0] == '@'))
              && data.JObject? && Value(data.fields, "$$dsId").Some? && Value(data.fields, "$$dsId").value.JString?
    ensures LoadedLink(name, data).Some? ==>
              var l := LoadedLink(name, data).value; l.name == name && Value(data.fields, "$$dsId") == Some(JString(l.dsId))
    ensures data.JObject? ==> LinkFields(data, 0).meta == [Field("$is", JString("dsa/link"))]
    ensures Value(View(d).meta, "$disconnectedTs") == None
    ensures forall key | key != "$disconnectedTs" :: Value(View(d).meta, key) == Value(d.meta, key)
  {
    hide LinkFields, Value, DeleteField, DistinctFields;
    LinkBegins(data);
    forall key ensures Value(View(d).meta, key) == if key == DISCONNECTED then None else Value(d.meta, key) {
      ValueDeleted(d.meta, DISCONNECTED, key);
    }
  }

  lemma LinkBegins(data: Json)
    ensures data.JObject? ==> LinkFields(data, 0).meta == [Field("$is", JString("dsa/link"))]
  {
  }
}
