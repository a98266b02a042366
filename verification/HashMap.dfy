/** The chained hash map of sdk/src/col/map.c with its entry list in insertion order.

    What the map means is a sequence of bindings with distinct keys; the class keeps the
    bucket array, the doubly linked chains and the entry list, and is proved to refine it
    for every hash function. */
module HashMap {
  import opened Common
  import opened IntrusiveList

  // ---------- the meaning ----------

  datatype Pair<K, V> = Pair(key: K, val: V)

  predicate DistinctKeys<K(==), V>(m: seq<Pair<K, V>>) {
    forall i, j | 0 <= i < j < |m| :: m[i].key != m[j].key
  }

  function IndexOf<K(==), V>(m: seq<Pair<K, V>>, key: K): (r: int)
    ensures -1 <= r < |m|
    ensures r >= 0 ==> m[r].key == key
    ensures r == -1 ==> forall i | 0 <= i < |m| :: m[i].key != key
  {
    if m == [] then -1
    else if m[|m| - 1].key == key then |m| - 1
    else IndexOf(m[..|m| - 1], key)
  }

  function Lookup<K(==), V>(m: seq<Pair<K, V>>, key: K): Option<V> {
    var i := IndexOf(m, key);
    if i >= 0 then Some(m[i].val) else None
  }

  // A new key goes to the end; a known one keeps its place.
  function Updated<K(==), V>(m: seq<Pair<K, V>>, key: K, val: V): seq<Pair<K, V>> {
    var i := IndexOf(m, key);
    if i >= 0 then m[i := Pair(key, val)] else m + [Pair(key, val)]
  }

  function Removed<K(==), V>(m: seq<Pair<K, V>>, key: K): seq<Pair<K, V>> {
    var i := IndexOf(m, key);
    if i >= 0 then DropAt(m, i) else m
  }

  lemma IndexUnique<K, V>(m: seq<Pair<K, V>>, key: K, i: nat)
    requires DistinctKeys(m) && i < |m| && m[i].key == key
    ensures IndexOf(m, key) == i
  {
  }

  // It is a finite map: an update is seen at its key and nowhere else.
  lemma LookupUpdated<K, V>(m: seq<Pair<K, V>>, key: K, val: V, other: K)
    requires DistinctKeys(m)
    ensures DistinctKeys(Updated(m, key, val))
    ensures Lookup(Updated(m, key, val), other) == if other == key then Some(val) else Lookup(m, other)
    ensures |Updated(m, key, val)| == |m| + if Lookup(m, key) == None then 1 else 0
  {
    var u := Updated(m, key, val);
    var i := IndexOf(m, other);
    if other == key {
      IndexUnique(u, key, if i >= 0 then i else |m|);
    } else if i >= 0 {
      IndexUnique(u, other, i);
    }
  }

  lemma LookupRemoved<K, V>(m: seq<Pair<K, V>>, key: K, other: K)
    requires DistinctKeys(m)
    ensures DistinctKeys(Removed(m, key))
    ensures Lookup(Removed(m, key), other) == if other == key then None else Lookup(m, other)
  {
    var k := IndexOf(m, key);
    var r := Removed(m, key);
    if k >= 0 {
      var i := IndexOf(m, other);
      if i >= 0 && i != k {
        IndexUnique(r, other, if i < k then i else i - 1);
      } else {
        forall j | 0 <= j < |r| ensures r[j].key != other {
          assert r[j] == m[if j < k then j else j + 1];
        }
      }
    }
  }

  // ---------- the representation ----------

  datatype Binding<K(0), V(0)> = Binding(key: K, val: V, node: MapNode?<K, V>)

  class MapNode<K(0), V(0)> {
    var prev: MapNode?<K, V>
    var next: MapNode?<K, V>
    var entry: ListNode<Binding<K, V>>

    constructor (entry: ListNode<Binding<K, V>>)
      ensures this.entry == entry && prev == null && next == null
    {
      prev, next := null, null;
      this.entry := entry;
    }
  }

  function Pow2(k: nat): (p: nat)
    ensures p >= 1
  {
    if k == 0 then 1 else 2 * Pow2(k - 1)
  }

  ghost predicate IsCapacity(c: nat) {
    exists k: nat :: c == 8 * Pow2(k)
  }

  ghost function Pairs<K(0), V(0)>(entries: seq<ListNode<Binding<K, V>>>): (r: seq<Pair<K, V>>)
    reads entries
    ensures |r| == |entries|
    ensures forall i | 0 <= i < |entries| :: r[i] == Pair(entries[i].value.key, entries[i].value.val)
  {
    seq(|entries|, i requires 0 <= i < |entries| reads entries => Pair(entries[i].value.key, entries[i].value.val))
  }

  class Map<K(0,==), V(0)> {
    const hash: K -> nat
    const list: List<Binding<K, V>>
    var table: array<MapNode?<K, V>>
    var size: nat
    var locked: bool

    // The nodes of every bucket, first to last, and all objects the map is made of.
    ghost var Chains: seq<seq<MapNode<K, V>>>
    ghost var Repr: set<object>

    function Bucket(key: K): (b: nat)
      reads this
      requires table.Length > 0
      ensures b < table.Length
    {
      hash(key) % table.Length
    }

    ghost predicate NodeLinked(chain: seq<MapNode<K, V>>, i: nat)
      requires i < |chain|
      reads chain
    {
      chain[i].prev == Around(chain, null, i - 1) && chain[i].next == Around(chain, null, i + 1)
    }

    ghost predicate ChainOk(b: nat)
      requires b < |Chains| == table.Length
      reads this, table, Chains[b]
    {
      && table[b] == Around(Chains[b], null, 0)
      && NoDup(Chains[b])
      && forall i {:trigger NodeLinked(Chains[b], i)} | 0 <= i < |Chains[b]| :: NodeLinked(Chains[b], i)
    }

    // The node n stands in the bucket b of its key, for one of the entries given, which
    // points back at it.
    ghost predicate NodeOk(n: MapNode<K, V>, b: nat, entries: seq<ListNode<Binding<K, V>>>)
      reads this, n, n.entry
      requires table.Length > 0
    {
      n.entry in entries && n.entry.value.node == n && Bucket(n.entry.value.key) == b
    }

    ghost predicate BucketOk(b: nat, entries: seq<ListNode<Binding<K, V>>>)
      requires b < |Chains| == table.Length
      reads this, table, Chains[b], set n | n in Chains[b] :: n.entry
    {
      ChainOk(b) && forall n | n in Chains[b] :: NodeOk(n, b, entries)
    }

    ghost predicate EntryOk(e: ListNode<Binding<K, V>>)
      requires |Chains| == table.Length > 0
      reads this, e, e.value.node
    {
      && e.value.node != null && e.value.node.entry == e
      && e.value.node in Chains[Bucket(e.value.key)]
    }

    ghost predicate Owned()
      reads this, list
    {
      && this in Repr && table in Repr && list in Repr && list.head in Repr
      && (forall e: ListNode<Binding<K, V>> | e in list.Nodes :: e in Repr)
      && (forall b, n: MapNode<K, V> | 0 <= b < |Chains| && n in Chains[b] :: n in Repr)
    }

    ghost predicate Valid()
      reads this, Repr
      ensures Valid() ==> this in Repr
    {
      && this in Repr && table in Repr && list in Repr && list.head in Repr
      && Owned()
      && list.Valid() && size == |list.Nodes|
      && |Chains| == table.Length && IsCapacity(table.Length) && 4 * size <= 3 * table.Length
      && (forall b, n | 0 <= b < |Chains| && n in Chains[b] :: n.entry in Repr)
      && (forall b | 0 <= b < |Chains| :: BucketOk(b, list.Nodes))
      && (forall e | e in list.Nodes :: e.value.node in Repr)
      && (forall e | e in list.Nodes :: EntryOk(e))
      && DistinctKeys(Pairs(list.Nodes))
    }

    // The bindings, in the order of insertion.
    ghost function Model(): seq<Pair<K, V>>
      reads this, Repr
      requires Valid()
    {
      Pairs(list.Nodes)
    }

    // dslink_map_init
    constructor (hash: K -> nat)
      ensures Valid() && fresh(Repr) && this.hash == hash && Model() == [] && !locked
    {
      this.hash := hash;
      var l := new List<Binding<K, V>>();
      var t := new MapNode?<K, V>[8](i => null);
      list, table := l, t;
      size := 0;
      locked := false;
      assert 8 == 8 * Pow2(0);
      Chains := seq(8, i => []);
      Repr := {this, l, l.head, t};
    }

    // The walk that every operation makes along the chain of a key.
    method Find(key: K) returns (node: MapNode?<K, V>, last: MapNode?<K, V>, ghost i: nat)
      requires Valid()
      ensures last == Around(Chains[Bucket(key)], null, i - 1)
      ensures i <= |Chains[Bucket(key)]| && node == Around(Chains[Bucket(key)], null, i)
      ensures node != null <==> i < |Chains[Bucket(key)]|
      ensures node != null ==> node in Repr && NodeOk(node, Bucket(key), list.Nodes) && node.entry.value.key == key
      ensures node == null ==> IndexOf(Model(), key) == -1
    {
      var b := Bucket(key);
      assert BucketOk(b, list.Nodes);
      ghost var chain := Chains[b];
      node, last := table[b], null;
      i := 0;
      while node != null
        invariant last == Around(chain, null, i - 1)
        invariant i <= |chain| && node == Around(chain, null, i) && (node == null <==> i == |chain|)
        invariant forall j | 0 <= j < i :: chain[j].entry.value.key != key
        decreases |chain| - i
      {
        assert NodeLinked(chain, i) && NodeOk(chain[i], b, list.Nodes);
        if node.entry.value.key == key { return; }
        last, node := node, node.next;
        i := i + 1;
      }
      AbsentKey(key, chain);
    }

    // A key that no node of its bucket has is not in the map.
    lemma AbsentKey(key: K, chain: seq<MapNode<K, V>>)
      requires Valid() && chain == Chains[Bucket(key)]
      requires forall j | 0 <= j < |chain| :: chain[j].entry.value.key != key
      ensures IndexOf(Model(), key) == -1
    {
      forall k | 0 <= k < |list.Nodes| ensures Model()[k].key != key {
        var e := list.Nodes[k];
        assert EntryOk(e) && Model()[k].key == e.value.key;
      }
    }

    lemma KnownKey(n: MapNode<K, V>, key: K)
      requires Valid() && NodeOk(n, Bucket(key), list.Nodes) && n.entry.value.key == key
      ensures n.entry in list.Nodes && IndexOf(Model(), key) == Pos(list.Nodes, n.entry)
    {
      IndexUnique(Model(), key, Pos(list.Nodes, n.entry));
    }

    // dslink_map_getl
    method Get(key: K) returns (val: Option<V>)
      requires Valid()
      ensures val == Lookup(Model(), key)
    {
      ghost var i;
      var node, last;
      node, last, i := Find(key);
      if node == null {
        val := None;
      } else {
        KnownKey(node, key);
        val := Some(node.entry.value.val);
      }
    }

    // dslink_map_containsl
    method Contains(key: K) returns (found: bool)
      requires Valid()
      ensures found <==> Lookup(Model(), key) != None
    {
      var val := Get(key);
      found := val.Some?;
    }

    // Storing a value under a key that is there.
    method Overwrite(node: MapNode<K, V>, key: K, val: V, ghost k: nat)
      requires Valid() && k < |list.Nodes| && list.Nodes[k] == node.entry
      requires NodeOk(node, Bucket(key), list.Nodes) && node.entry.value.key == key
      modifies node.entry
      ensures Valid() && Model() == old(Model())[k := Pair(key, val)]
    {
      hide NoDup, Around, IsCapacity, DistinctKeys;
      ghost var was := Model();
      node.entry.value := Binding(key, val, node);
      assert list.Valid() by {
        forall i | 0 <= i < |list.Nodes| ensures list.Linked(list.Nodes[i], i) {
          assert old(list.Linked(list.Nodes[i], i));
        }
      }
      forall b | 0 <= b < |Chains| ensures BucketOk(b, list.Nodes) {
        assert old(BucketOk(b, list.Nodes));
        forall i | 0 <= i < |Chains[b]| ensures NodeLinked(Chains[b], i) {
          assert old(NodeLinked(Chains[b], i));
        }
        forall n | n in Chains[b] ensures NodeOk(n, b, list.Nodes) {
          assert old(NodeOk(n, b, list.Nodes));
        }
      }
      forall e | e in list.Nodes ensures EntryOk(e) {
        assert old(EntryOk(e));
      }
      OverwriteKeys(was, k, val);
      forall i | 0 <= i < |list.Nodes| && i != k ensures list.Nodes[i] != node.entry {
        NoDupAt(list.Nodes, k);
      }
      assert Pairs(list.Nodes) == was[k := Pair(key, val)];
    }

    lemma OverwriteKeys(m: seq<Pair<K, V>>, k: nat, val: V)
      requires DistinctKeys(m) && k < |m|
      ensures DistinctKeys(m[k := Pair(m[k].key, val)])
    {
    }

    // The table holds exactly the entries given: what is true of the map while it is rehashed.
    ghost predicate Hashed(entries: seq<ListNode<Binding<K, V>>>)
      reads *
    {
      && |Chains| == table.Length > 0
      && (forall b | 0 <= b < |Chains| :: BucketOk(b, entries))
      && (forall e | e in entries :: EntryOk(e))
    }

    // What adding a node at the end of the chain of its key changes.
    twostate predicate Joined(entries: seq<ListNode<Binding<K, V>>>, new e: ListNode<Binding<K, V>>, new n: MapNode<K, V>)
      requires old(Hashed(entries))
      reads *
    {
      JoinedSeqs(entries, e, n) && JoinedTable(e, n) && JoinedLinks(n)
    }

    twostate predicate JoinedSeqs(entries: seq<ListNode<Binding<K, V>>>, new e: ListNode<Binding<K, V>>, new n: MapNode<K, V>)
      requires old(Hashed(entries))
      reads *
    {
      && table == old(table) && e !in entries && n.entry == e && e.value.node == n
      && (forall d | d in entries :: d.value == old(d.value))
      && Chains == old(Chains)[Bucket(e.value.key) := old(Chains)[Bucket(e.value.key)] + [n]]
      && n.next == null && n.prev == Around(old(Chains)[Bucket(e.value.key)], null, |old(Chains)[Bucket(e.value.key)]| - 1)
    }

    twostate predicate JoinedTable(new e: ListNode<Binding<K, V>>, new n: MapNode<K, V>)
      requires table == old(table) && table.Length > 0
      reads *
    {
      forall c | 0 <= c < table.Length :: table[c] == if c == Bucket(e.value.key) && n.prev == null then n else old(table[c])
    }

    twostate predicate JoinedLinks(new n: MapNode<K, V>)
      reads *
    {
      && (n.prev != null ==> n.prev.next == n)
      && (forall c, m | 0 <= c < |old(Chains)| && m in old(Chains)[c] :: m.entry == old(m.entry) && m.prev == old(m.prev))
      && (forall c, m | 0 <= c < |old(Chains)| && m in old(Chains)[c] && m != n.prev :: m.next == old(m.next))
    }

    twostate lemma JoinedHere(entries: seq<ListNode<Binding<K, V>>>, new e: ListNode<Binding<K, V>>, new n: MapNode<K, V>)
      requires old(Hashed(entries)) && Joined(entries, e, n)
      ensures ChainOk(Bucket(e.value.key))
    {
      hide NoDup, EntryOk;
      var b := Bucket(e.value.key);
      ghost var chain := old(Chains)[b];
      assert old(BucketOk(b, entries));
      assert n !in chain by {
        forall m | m in chain ensures m != n {
          assert old(NodeOk(m, b, entries));
        }
      }
      NoDupAppend(chain, n);
      AroundAppend(chain, null, n, 0);
      FirstIsNull(chain);
      forall i | 0 <= i < |chain + [n]| ensures NodeLinked(chain + [n], i) {
        AroundAppend(chain, null, n, i - 1);
        if i < |chain| {
          AroundAppend(chain, null, n, i + 1);
          assert old(NodeLinked(chain, i)) && (chain + [n])[i] == chain[i] && chain[i] in old(Chains)[b];
          LastOnly(chain, i);
        }
      }
    }

    lemma FirstIsNull(chain: seq<MapNode<K, V>>)
      ensures Around(chain, null, |chain| - 1) == null <==> chain == []
    {
    }

    lemma LastOnly(chain: seq<MapNode<K, V>>, i: nat)
      requires NoDup(chain) && i < |chain|
      ensures chain[i] == Around(chain, null, |chain| - 1) <==> i == |chain| - 1
    {
    }

    twostate lemma JoinedElsewhere(entries: seq<ListNode<Binding<K, V>>>, new e: ListNode<Binding<K, V>>, new n: MapNode<K, V>)
      requires old(Hashed(entries)) && Joined(entries, e, n)
      ensures forall c | 0 <= c < |Chains| && c != Bucket(e.value.key) :: ChainOk(c)
    {
      hide NoDup, EntryOk;
      var b := Bucket(e.value.key);
      var last := n.prev;
      assert old(BucketOk(b, entries));
      assert last != null ==> last in old(Chains)[b] && old(NodeOk(last, b, entries));
      forall c | 0 <= c < |Chains| && c != b ensures ChainOk(c) {
        assert old(BucketOk(c, entries)) && Chains[c] == old(Chains)[c];
        forall i | 0 <= i < |Chains[c]| ensures NodeLinked(Chains[c], i) {
          assert old(NodeLinked(Chains[c], i)) && Chains[c][i] in old(Chains)[c] && old(NodeOk(Chains[c][i], c, entries));
        }
      }
    }

    twostate lemma JoinedHashed(entries: seq<ListNode<Binding<K, V>>>, new e: ListNode<Binding<K, V>>, new n: MapNode<K, V>)
      requires old(Hashed(entries)) && Joined(entries, e, n)
      ensures Hashed(entries + [e])
    {
      hide ChainOk;
      JoinedHere(entries, e, n);
      JoinedElsewhere(entries, e, n);
      forall c | 0 <= c < |Chains| ensures BucketOk(c, entries + [e]) {
        assert old(BucketOk(c, entries));
        forall m | m in Chains[c] ensures NodeOk(m, c, entries + [e]) {
          assert m != n ==> m in old(Chains)[c] && old(NodeOk(m, c, entries));
        }
      }
      forall d | d in entries + [e] ensures EntryOk(d) {
        if d != e {
          assert old(EntryOk(d));
          var c := Bucket(d.value.key);
          assert old(d.value.node) in old(Chains)[c];
        }
      }
    }

    // The end of dslink_map_get_raw_node for a key that is not there: the new node goes to
    // the end of its chain and its entry to the end of the list.
    method AppendNode(key: K, val: V, last: MapNode?<K, V>)
      requires Valid() && IndexOf(Model(), key) == -1 && 4 * (size + 1) <= 3 * table.Length
      requires last == Around(Chains[Bucket(key)], null, |Chains[Bucket(key)]| - 1)
      modifies this, table, last, list, list.head, list.Nodes
      ensures Valid() && fresh(Repr - old(Repr)) && table == old(table) && locked == old(locked)
      ensures Model() == old(Model()) + [Pair(key, val)]
    {
      hide Valid, Model, List.Valid, Around, Hashed;
      Shape();
      ghost var b := Bucket(key);
      ghost var chain := Chains[b];
      FirstIsNull(chain);
      var e, n := AttachNode(key, val, last);
      size := size + 1;
      list.InsertNode(e);
      Chains := Chains[b := chain + [n]];
      Repr := Repr + {e, n};
      assert Joined(old(list.Nodes), e, n);
      hide Joined;
      AppendedValid(e, n);
    }

    lemma Shape()
      requires Valid()
      ensures list.Valid() && size == |list.Nodes| && Hashed(list.Nodes) && |Chains| == table.Length > 0
      ensures list in Repr && list.head in Repr && table in Repr
      ensures forall c, m: MapNode<K, V> | 0 <= c < |Chains| && m in Chains[c] :: m in Repr
      ensures forall d: ListNode<Binding<K, V>> | d in list.Nodes :: d in Repr
    {
    }

    // The new node and its entry, linked into the bucket but not yet into the list.
    method AttachNode(key: K, val: V, last: MapNode?<K, V>) returns (e: ListNode<Binding<K, V>>, n: MapNode<K, V>)
      requires table.Length > 0
      modifies table, last
      ensures fresh(e) && fresh(n) && e.value == Binding(key, val, n)
      ensures n.entry == e && n.prev == last && n.next == null
      ensures last != null ==> last.next == n && last.prev == old(last.prev) && last.entry == old(last.entry)
      ensures forall c | 0 <= c < table.Length :: table[c] == if c == Bucket(key) && last == null then n else old(table[c])
    {
      e := new ListNode(Binding(key, val, null));
      n := new MapNode(e);
      e.value := Binding(key, val, n);
      if last == null {
        table[hash(key) % table.Length] := n;
      } else {
        last.next := n;
        n.prev := last;
      }
    }

    twostate lemma AppendedValid(new e: ListNode<Binding<K, V>>, new n: MapNode<K, V>)
      requires old(Valid()) && Joined(old(list.Nodes), e, n) && list.Nodes == old(list.Nodes) + [e]
      requires IndexOf(old(Model()), e.value.key) == -1 && 4 * size <= 3 * table.Length
      requires list.Valid() && size == |list.Nodes| && Repr == old(Repr) + {e, n}
      ensures Valid() && Model() == old(Model()) + [Pair(e.value.key, e.value.val)]
    {
      hide IsCapacity, DistinctKeys, BucketOk, EntryOk, NoDup, Around, JoinedTable;
      JoinedHashed(old(list.Nodes), e, n);
      assert forall c, m | 0 <= c < |Chains| && m in Chains[c] :: m == n || m in old(Chains)[c];
      assert Pairs(list.Nodes) == old(Model()) + [Pair(e.value.key, e.value.val)];
      AppendKeys(old(Model()), e.value.key, e.value.val);
      forall c, m: MapNode<K, V> | 0 <= c < |Chains| && m in Chains[c] ensures m in Repr && m.entry in Repr {
        assert m != n ==> m in old(Chains)[c] && m in old(Repr) && old(m.entry) in old(Repr);
      }
    }

    lemma AppendKeys(m: seq<Pair<K, V>>, key: K, val: V)
      requires DistinctKeys(m) && IndexOf(m, key) == -1
      ensures DistinctKeys(m + [Pair(key, val)])
    {
    }

    // What taking a node out of its chain and its entry out of the list changes.
    twostate predicate Detached(n: MapNode<K, V>)
      requires old(Valid())
      reads *
    {
      DetachedSeqs(n) && DetachedTable(n) && DetachedLinks(n)
    }

    twostate predicate DetachedSeqs(n: MapNode<K, V>)
      requires old(Valid())
      reads *
    {
      && table == old(table) && old(n.entry) in old(list.Nodes) && n in old(Chains)[Home(n)]
      && list.Nodes == DropAt(old(list.Nodes), Pos(old(list.Nodes), old(n.entry)))
      && (forall d | d in old(list.Nodes) :: d.value == old(d.value))
      && Chains == old(Chains)[Home(n) := DropAt(old(Chains)[Home(n)], Pos(old(Chains)[Home(n)], n))]
    }

    twostate predicate DetachedTable(n: MapNode<K, V>)
      requires old(Valid()) && table == old(table)
      reads *
    {
      && (forall c | 0 <= c < table.Length && (c != Home(n) || old(n.prev) != null) :: table[c] == old(table[c]))
      && (old(n.prev) == null ==> table[Home(n)] == old(n.next))
      && (old(n.prev) != null ==> old(n.prev).next == old(n.next))
      && (old(n.next) != null ==> old(n.next).prev == old(n.prev))
    }

    twostate predicate DetachedLinks(n: MapNode<K, V>)
      reads *
    {
      && (forall c, m | 0 <= c < |old(Chains)| && m in old(Chains)[c] :: m.entry == old(m.entry))
      && (forall c, m | 0 <= c < |old(Chains)| && m in old(Chains)[c] && m != old(n.prev) :: m.next == old(m.next))
      && (forall c, m | 0 <= c < |old(Chains)| && m in old(Chains)[c] && m != old(n.next) :: m.prev == old(m.prev))
    }

    // The bucket a node stood in.
    twostate function Home(n: MapNode<K, V>): nat
      requires old(Valid())
      reads *
    {
      old(Bucket(n.entry.value.key))
    }

    twostate lemma DetachedHere(n: MapNode<K, V>)
      requires old(Valid()) && Detached(n)
      ensures ChainOk(Home(n))
    {
      hide IsCapacity, DistinctKeys, NoDup, EntryOk, NodeOk, Around, DropAt;
      var b := Home(n);
      ghost var chain := old(Chains)[b];
      ghost var k := Pos(chain, n);
      assert old(BucketOk(b, list.Nodes)) && old(NodeLinked(chain, k));
      NoDupDrop(chain, k);
      ChainEnd(chain, k);
      forall i | 0 <= i < |chain| - 1 ensures NodeLinked(DropAt(chain, k), i) {
        var j := if i < k then i else i + 1;
        ChainNeighbours(chain, k, i);
        assert old(NodeLinked(chain, j)) && chain[j] in old(Chains)[b];
      }
    }

    lemma ChainEnd(chain: seq<MapNode<K, V>>, k: nat)
      requires NoDup(chain) && k < |chain|
      ensures Around(DropAt(chain, k), null, 0) == Around(chain, null, if k == 0 then 1 else 0)
      ensures Around(chain, null, k - 1) == null <==> k == 0
      ensures k == 0 ==> Around(chain, null, 0) == chain[k]
    {
    }

    // A node that stays has the old neighbours, but for those of the node that goes.
    lemma ChainNeighbours(chain: seq<MapNode<K, V>>, k: nat, i: nat)
      requires NoDup(chain) && k < |chain| && i < |chain| - 1
      ensures var j := if i < k then i else i + 1; var t := DropAt(chain, k);
              && t[i] == chain[j] && chain[j] != chain[k]
              && Around(t, null, i - 1) == Around(chain, null, if j == k + 1 then k - 1 else j - 1)
              && Around(t, null, i + 1) == Around(chain, null, if j == k - 1 then k + 1 else j + 1)
              && (chain[j] == Around(chain, null, k - 1) <==> j == k - 1)
              && (chain[j] == Around(chain, null, k + 1) <==> j == k + 1)
    {
    }

    twostate lemma DetachedElsewhere(n: MapNode<K, V>)
      requires old(Valid()) && Detached(n)
      ensures forall c | 0 <= c < |Chains| && c != Home(n) :: ChainOk(c)
    {
      hide IsCapacity, DistinctKeys, NoDup, EntryOk, DropAt;
      var b := Home(n);
      ghost var k := Pos(old(Chains)[b], n);
      assert old(BucketOk(b, list.Nodes)) && old(NodeLinked(Chains[b], k));
      var before, after := old(n.prev), old(n.next);
      assert before != null ==> before in old(Chains)[b] && old(NodeOk(before, b, list.Nodes));
      assert after != null ==> after in old(Chains)[b] && old(NodeOk(after, b, list.Nodes));
      forall c | 0 <= c < |Chains| && c != b ensures ChainOk(c) {
        assert old(BucketOk(c, list.Nodes)) && Chains[c] == old(Chains)[c];
        forall i | 0 <= i < |Chains[c]| ensures NodeLinked(Chains[c], i) {
          assert old(NodeLinked(Chains[c], i)) && Chains[c][i] in old(Chains)[c] && old(NodeOk(Chains[c][i], c, list.Nodes));
        }
      }
    }

    twostate lemma DetachedNodes(n: MapNode<K, V>)
      requires old(Valid()) && Detached(n)
      ensures forall c, m | 0 <= c < |Chains| && m in Chains[c] :: NodeOk(m, c, list.Nodes)
    {
      hide IsCapacity, DistinctKeys, NodeLinked, EntryOk, NoDup, DropAt;
      var b := Home(n);
      ghost var chain := old(Chains)[b];
      assert old(BucketOk(b, list.Nodes)) && old(NodeOk(n, b, list.Nodes));
      NoDupDrop(chain, Pos(chain, n));
      forall c, m | 0 <= c < |Chains| && m in Chains[c] ensures NodeOk(m, c, list.Nodes) {
        assert old(BucketOk(c, list.Nodes)) && m in old(Chains)[c] && old(NodeOk(m, c, list.Nodes));
        assert m != n;
        DropKeeps(old(list.Nodes), old(n.entry), m.entry);
      }
    }

    twostate lemma DetachedEntry(n: MapNode<K, V>, new d: ListNode<Binding<K, V>>)
      requires old(Valid()) && Detached(n) && d in list.Nodes
      ensures EntryOk(d)
    {
      hide IsCapacity, DistinctKeys, NoDup, DropAt, BucketOk, ChainOk, NodeOk, Owned;
      NoDupDrop(old(list.Nodes), Pos(old(list.Nodes), old(n.entry)));
      assert d in old(list.Nodes) && old(EntryOk(d)) && d != old(n.entry);
      var m: MapNode<K, V>, c := d.value.node, Bucket(d.value.key);
      assert m in old(Chains)[c] && m.entry == d && m != n;
      if c == Home(n) {
        DropKeeps(old(Chains)[c], n, m);
      }
      assert m in Chains[c];
    }

    twostate lemma DroppedPairs(s: seq<ListNode<Binding<K, V>>>, new k: nat)
      requires k < |s| && forall d | d in s :: d.value == old(d.value)
      ensures Pairs(DropAt(s, k)) == DropAt(old(Pairs(s)), k)
    {
    }

    twostate lemma DetachedModel(n: MapNode<K, V>)
      requires old(Valid()) && Detached(n)
      ensures DistinctKeys(Pairs(list.Nodes)) && Pairs(list.Nodes) == Removed(old(Model()), old(n.entry.value.key))
    {
      hide IsCapacity, DistinctKeys, BucketOk, EntryOk, NoDup, Owned, DropAt;
      ghost var was := old(Model());
      var key := old(n.entry.value.key);
      ghost var k := Pos(old(list.Nodes), old(n.entry));
      assert was[k].key == key;
      IndexUnique(was, key, k);
      LookupRemoved(was, key, key);
      DroppedPairs(old(list.Nodes), k);
    }

    twostate lemma DetachedOwned(n: MapNode<K, V>)
      requires old(Valid()) && Detached(n) && Repr == old(Repr)
      ensures Owned()
      ensures forall c, m | 0 <= c < |Chains| && m in Chains[c] :: m.entry in Repr
      ensures forall d | d in list.Nodes :: d.value.node in Repr
    {
      hide IsCapacity, DistinctKeys, NodeOk, EntryOk, DropAt;
      var b := Home(n);
      ghost var chain := old(Chains)[b];
      assert old(BucketOk(b, list.Nodes));
      NoDupDrop(old(list.Nodes), Pos(old(list.Nodes), old(n.entry)));
      hide NoDup;
      NoDupDrop(chain, Pos(chain, n));
    }

    twostate lemma DetachedValid(n: MapNode<K, V>)
      requires old(Valid()) && Detached(n)
      requires list.Valid() && size == |list.Nodes| && Repr == old(Repr)
      ensures Valid() && Model() == Removed(old(Model()), old(n.entry.value.key))
    {
      hide IsCapacity, DistinctKeys, ChainOk, NodeOk, EntryOk, NoDup, Around, DropAt, Removed;
      DetachedHere(n);
      DetachedElsewhere(n);
      DetachedNodes(n);
      forall d | d in list.Nodes ensures EntryOk(d) {
        DetachedEntry(n, d);
      }
      DetachedModel(n);
      NoDupDrop(old(list.Nodes), Pos(old(list.Nodes), old(n.entry)));
      DetachedOwned(n);
    }

    // dslink_map_removel_get
    method Remove(key: K) returns (val: Option<V>)
      requires Valid()
      modifies Repr
      ensures Valid() && Repr == old(Repr) && table == old(table) && locked == old(locked)
      ensures old(locked) ==> val == None && Model() == old(Model())
      ensures !old(locked) ==> val == Lookup(old(Model()), key) && Model() == Removed(old(Model()), key)
    {
      if locked { return None; }
      ghost var i;
      var node, last;
      node, last, i := Find(key);
      if node == null { return None; }
      KnownKey(node, key);
      val := Some(node.entry.value.val);
      Unlink(node, key);
    }

    method Unlink(n: MapNode<K, V>, key: K)
      requires Valid() && n in Repr && n.entry.value.key == key
      requires n in Chains[Bucket(key)]
      modifies Repr
      ensures Valid() && Repr == old(Repr) && table == old(table) && locked == old(locked)
      ensures Model() == Removed(old(Model()), key)
    {
      hide Valid, Model, List.Valid, Around;
      Shape();
      NodeShape(n, Bucket(key));
      ghost var b := Bucket(key);
      ghost var chain := Chains[b];
      Splice(n, hash(key) % table.Length);
      size := size - 1;
      list.RemoveNode(n.entry, Pos(list.Nodes, n.entry));
      Chains := Chains[b := DropAt(chain, Pos(chain, n))];
      assert DetachedSeqs(n);
      hide DetachedSeqs;
      assert DetachedTable(n) && DetachedLinks(n);
      hide DetachedTable, DetachedLinks;
      DetachedValid(n);
    }

    lemma NodeShape(n: MapNode<K, V>, b: nat)
      requires Valid() && b < |Chains| && n in Chains[b]
      ensures n.entry in list.Nodes && n.entry.value.node == n && Bucket(n.entry.value.key) == b
      ensures n.prev != null ==> n.prev in Chains[b] && n.prev in Repr
      ensures n.next != null ==> n.next in Chains[b] && n.next in Repr
      ensures n.prev != n && n.next != n && (n.prev == null || n.prev != n.next)
    {
      assert BucketOk(b, list.Nodes);
      assert NodeLinked(Chains[b], Pos(Chains[b], n));
    }

    // Taking a node out of its chain.
    method Splice(n: MapNode<K, V>, b: nat)
      requires b < table.Length && n.prev != n && n.next != n && (n.prev == null || n.prev != n.next)
      modifies table, n.prev, n.next
      ensures n.prev == old(n.prev) && n.next == old(n.next)
      ensures n.prev != null ==> n.prev.next == n.next && n.prev.prev == old(n.prev.prev) && n.prev.entry == old(n.prev.entry)
      ensures n.next != null ==> n.next.prev == n.prev && n.next.next == old(n.next.next) && n.next.entry == old(n.next.entry)
      ensures forall c | 0 <= c < table.Length :: table[c] == if c == b && n.prev == null then n.next else old(table[c])
    {
      if n.prev == null {
        if n.next != null {
          var tmp := n.next;
          tmp.prev := null;
          table[b] := tmp;
        } else {
          table[b] := null;
        }
      } else {
        n.prev.next := n.next;
        if n.next != null {
          n.next.prev := n.prev;
        }
      }
    }

    // dslink_map_clear
    method Clear()
      requires Valid()
      modifies Repr
      ensures Valid() && Repr <= old(Repr) && table == old(table) && locked == old(locked)
      ensures Model() == []
    {
      hide List.Valid, NodeOk, EntryOk, NodeLinked, IsCapacity;
      if size == 0 { return; }
      assert IsCapacity(table.Length);
      list.Reset();
      forall c | 0 <= c < table.Length {
        table[c] := null;
      }
      size := 0;
      Chains := seq(table.Length, c => []);
      Repr := {this, table, list, list.head};
    }

    // One entry of the rehashing loop: walk to the end of the chain and hang the node there.
    method Place(e: ListNode<Binding<K, V>>, ghost placed: seq<ListNode<Binding<K, V>>>, ghost nodes: set<MapNode<K, V>>)
      requires Hashed(placed) && e !in placed && e.value.node in nodes && e.value.node.entry == e
      requires forall c, m | 0 <= c < |Chains| && m in Chains[c] :: m in nodes
      modifies table, `Chains, nodes
      ensures Hashed(placed + [e])
      ensures forall m | m in nodes :: m.entry == old(m.entry)
    {
      hide EntryOk, NoDup, BucketOk, Hashed;
      ChainNodes(placed);
      var b := Bucket(e.value.key);
      var node: MapNode<K, V> := e.value.node;
      ghost var chain := Chains[b];
      Front(b, placed);
      Apart(b, placed);
      if table[b] != null {
        var last := Tail(b, placed);
        assert last in nodes;
        last.next := node;
        node.prev := last;
        node.next := null;
      } else {
        node.next := null;
        node.prev := null;
        table[b] := node;
      }
      Chains := Chains[b := chain + [node]];
      assert JoinedSeqs(placed, e, node);
      hide JoinedSeqs;
      assert JoinedTable(e, node) && JoinedLinks(node);
      hide JoinedTable, JoinedLinks;
      JoinedHashed(placed, e, node);
    }

    lemma Front(b: nat, entries: seq<ListNode<Binding<K, V>>>)
      requires Hashed(entries) && b < |Chains|
      ensures table[b] == null <==> Chains[b] == []
    {
      assert BucketOk(b, entries);
    }

    // The nodes of other buckets are other nodes.
    lemma Apart(b: nat, entries: seq<ListNode<Binding<K, V>>>)
      requires Hashed(entries) && b < |Chains|
      ensures forall c, m | 0 <= c < |Chains| && c != b && m in Chains[c] :: m !in Chains[b]
    {
      hide EntryOk, ChainOk;
      forall c, m | 0 <= c < |Chains| && c != b && m in Chains[c] ensures m !in Chains[b] {
        assert BucketOk(b, entries) && BucketOk(c, entries) && NodeOk(m, c, entries);
        assert m in Chains[b] ==> NodeOk(m, b, entries);
      }
    }

    method Tail(b: nat, ghost placed: seq<ListNode<Binding<K, V>>>) returns (last: MapNode<K, V>)
      requires Hashed(placed) && b < table.Length && table[b] != null
      ensures Chains[b] != [] && last == Chains[b][|Chains[b]| - 1]
    {
      hide EntryOk, NoDup, NodeOk;
      ghost var chain := Chains[b];
      assert BucketOk(b, placed);
      last := table[b];
      ghost var i := 0;
      while last.next != null
        invariant i < |chain| && last == chain[i]
        decreases |chain| - i
      {
        assert NodeLinked(chain, i);
        last := last.next;
        i := i + 1;
      }
      assert NodeLinked(chain, i);
    }

    lemma Entries()
      requires Valid()
      ensures forall e | e in list.Nodes :: e.value.node != null && e.value.node.entry == e && e.value.node in Repr
    {
      hide IsCapacity, DistinctKeys, BucketOk, List.Valid;
      assert forall e | e in list.Nodes :: EntryOk(e);
    }

    lemma EmptyHashed()
      requires |Chains| == table.Length > 0
      requires forall b | 0 <= b < |Chains| :: Chains[b] == [] && table[b] == null
      ensures Hashed([])
    {
    }

    // Where the walk over the list stands.
    lemma Walk(k: nat)
      requires list.Valid() && k <= |list.Nodes|
      ensures list.head.next == list.At(0)
      ensures list.At(k) == list.head <==> k == |list.Nodes|
      ensures k < |list.Nodes| ==> list.At(k) == list.Nodes[k] && list.Nodes[k].next == list.At(k + 1) && list.Nodes[k] !in list.Nodes[..k]
    {
      assert k < |list.Nodes| ==> list.Linked(list.Nodes[k], k);
    }

    lemma ChainNodes(entries: seq<ListNode<Binding<K, V>>>)
      requires Hashed(entries)
      ensures |Chains| == table.Length > 0
      ensures forall c, m | 0 <= c < |Chains| && m in Chains[c] :: m.entry in entries && m.entry.value.node == m
    {
      hide ChainOk, EntryOk;
      assert forall c, m | 0 <= c < |Chains| && m in Chains[c] :: BucketOk(c, entries) && NodeOk(m, c, entries);
    }

    lemma Reachable(k: nat, nodes: set<MapNode<K, V>>)
      requires k <= |list.Nodes| && Hashed(list.Nodes[..k])
      requires forall e | e in list.Nodes :: e.value.node in nodes
      ensures forall c, m | 0 <= c < |Chains| && m in Chains[c] :: m in nodes
    {
      ChainNodes(list.Nodes[..k]);
      forall c, m | 0 <= c < |Chains| && m in Chains[c] ensures m in nodes {
        assert m.entry in list.Nodes[..k] && m == m.entry.value.node;
      }
    }

    lemma CapacityDoubles(c: nat)
      requires IsCapacity(c)
      ensures c >= 8 && IsCapacity(2 * c)
      ensures forall n: nat | 4 * n < 3 * c :: 4 * (n + 1) <= 3 * c
    {
      ghost var k: nat :| c == 8 * Pow2(k);
      assert 2 * c == 8 * Pow2(k + 1);
    }

    method PlaceNext(ghost k: nat, entry: ListNode<Binding<K, V>>, ghost nodes: set<MapNode<K, V>>)
      requires list.Valid() && k < |list.Nodes| && entry == list.Nodes[k]
      requires Hashed(list.Nodes[..k])
      requires forall e | e in list.Nodes :: e.value.node != null && e.value.node.entry == e && e.value.node in nodes
      modifies table, `Chains, nodes
      ensures list.Valid() && Hashed(list.Nodes[..k + 1])
      ensures forall e | e in list.Nodes :: e.value.node.entry == e
    {
      hide List.Valid, Hashed;
      Walk(k);
      Reachable(k, nodes);
      assert list.Nodes[..k] + [entry] == list.Nodes[..k + 1];
      Place(entry, list.Nodes[..k], nodes);
    }

    // The loop of dslink_map_rehash_table over the entry list.
    method PlaceAll(ghost nodes: set<MapNode<K, V>>)
      requires list.Valid() && Hashed([])
      requires forall e | e in list.Nodes :: e.value.node != null && e.value.node.entry == e && e.value.node in nodes
      modifies table, `Chains, nodes
      ensures list.Valid() && Hashed(list.Nodes)
    {
      hide List.Valid, List.At, Hashed;
      Walk(0);
      var entry: ListNode<Binding<K, V>> := list.head.next;
      ghost var k := 0;
      assert list.Nodes[..0] == [];
      while entry != list.head
        invariant k <= |list.Nodes| && entry == list.At(k) && list.Valid()
        invariant Hashed(list.Nodes[..k])
        invariant forall e | e in list.Nodes :: e.value.node != null && e.value.node.entry == e
        decreases |list.Nodes| - k
      {
        Walk(k);
        Walk(k + 1);
        PlaceNext(k, entry, nodes);
        entry := entry.next;
        k := k + 1;
      }
      Walk(k);
      assert list.Nodes[..k] == list.Nodes;
    }

    // dslink_map_rehash_table
    method Rehash()
      requires Valid()
      modifies Repr
      ensures Valid() && fresh(Repr - old(Repr)) && locked == old(locked) && size == old(size)
      ensures table.Length == 2 * old(table.Length) && Model() == old(Model())
    {
      hide Valid, Model, List.Valid, Hashed, IsCapacity;
      Shape();
      Entries();
      ghost var nodes: set<MapNode<K, V>> := set e | e in list.Nodes :: e.value.node;
      table := new MapNode?<K, V>[2 * table.Length](i => null);
      Chains := seq(table.Length, i => []);
      Repr := Repr + {table};
      EmptyHashed();
      PlaceAll(nodes);
      RehashedValid();
    }

    twostate lemma RehashedValid()
      requires old(Valid()) && list.Valid() && Hashed(list.Nodes) && list.Nodes == old(list.Nodes)
      requires forall e | e in list.Nodes :: e.value == old(e.value)
      requires Repr == old(Repr) + {table} && size == old(size) && table.Length == 2 * old(table.Length)
      ensures Valid() && Model() == old(Model())
    {
      hide IsCapacity, DistinctKeys, BucketOk, EntryOk;
      CapacityDoubles(old(table.Length));
      ChainNodes(list.Nodes);
      assert Pairs(list.Nodes) == old(Model());
      forall c, m: MapNode<K, V> | 0 <= c < |Chains| && m in Chains[c] ensures m in Repr && m.entry in Repr {
        var e := m.entry;
        assert e in old(list.Nodes) && e.value == old(e.value);
      }
    }

    // dslink_map_set
    method Set(key: K, val: V)
      requires Valid()
      modifies Repr
      ensures Valid() && fresh(Repr - old(Repr)) && locked == old(locked)
      ensures Model() == Updated(old(Model()), key, val)
    {
      hide Valid, Model, IsCapacity;
      Room();
      if 4 * size >= 3 * table.Length {
        Rehash();
      }
      Put(key, val);
    }

    lemma Room()
      requires Valid()
      ensures table.Length >= 8 && 4 * size <= 3 * table.Length
      ensures 4 * size < 3 * table.Length ==> 4 * (size + 1) <= 3 * table.Length
    {
      CapacityDoubles(table.Length);
    }

    // dslink_map_get_raw_node and the store that follows it, on a table with room.
    method Put(key: K, val: V)
      requires Valid() && 4 * (size + 1) <= 3 * table.Length
      modifies Repr
      ensures Valid() && fresh(Repr - old(Repr)) && locked == old(locked)
      ensures Model() == Updated(old(Model()), key, val)
    {
      hide Valid, Model, NodeOk;
      Shape();
      ghost var i;
      var node, last;
      node, last, i := Find(key);
      if node != null {
        KnownKey(node, key);
        Overwrite(node, key, val, Pos(list.Nodes, node.entry));
      } else {
        AppendNode(key, val, last);
      }
    }
  }
}
