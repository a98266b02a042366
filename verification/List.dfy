/** The intrusive circular list of sdk/include/dslink/col/list.h, with the nodes that
    dslink_list_insert and the map embed their payload in. */
module IntrusiveList {

  ghost predicate NoDup<A>(s: seq<A>) {
    forall i, j | 0 <= i < j < |s| :: s[i] != s[j]
  }

  lemma NoDupAppend<A>(s: seq<A>, x: A)
    requires NoDup(s) && x !in s
    ensures NoDup(s + [x])
  {
  }

  // s without its element at k.
  function DropAt<A>(s: seq<A>, k: nat): (r: seq<A>)
    requires k < |s|
    ensures |r| == |s| - 1
    ensures forall i | 0 <= i < |r| :: r[i] == if i < k then s[i] else s[i + 1]
  {
    s[..k] + s[k + 1..]
  }

  ghost function Pos<A>(s: seq<A>, x: A): (k: nat)
    requires x in s
    ensures k < |s| && s[k] == x
  {
    var k :| 0 <= k < |s| && s[k] == x;
    k
  }

  // The element at a position, h standing on both sides of the others.
  function Around<A>(s: seq<A>, h: A, i: int): A {
    if 0 <= i < |s| then s[i] else h
  }

  lemma AroundIn<A>(s: seq<A>, h: A, i: int)
    ensures Around(s, h, i) in [h] + s
  {
  }

  lemma AroundDrop<A>(s: seq<A>, h: A, k: nat, i: int)
    requires k < |s| && -1 <= i < |s|
    ensures Around(DropAt(s, k), h, i) == Around(s, h, if i < k then i else i + 1)
  {
  }

  lemma AroundAppend<A>(s: seq<A>, h: A, x: A, i: int)
    requires i <= |s|
    ensures Around(s + [x], h, i) == if i == |s| then x else Around(s, h, i)
  {
  }

  lemma AroundDistinct<A>(s: seq<A>, h: A, j: nat, i: int)
    requires NoDup(s) && h !in s && j < |s| && -1 <= i <= |s|
    ensures s[j] == Around(s, h, i) <==> i == j
  {
  }

  // The same for the element on both sides.
  lemma EndsAfterDrop<A>(s: seq<A>, h: A, k: nat)
    requires NoDup(s) && h !in s && k < |s|
    ensures var t := DropAt(s, k);
            && Around(t, h, 0) == (if h == Around(s, h, k - 1) then Around(s, h, k + 1) else Around(s, h, 0))
            && Around(t, h, |t| - 1) == (if h == Around(s, h, k + 1) then Around(s, h, k - 1) else Around(s, h, |s| - 1))
  {
  }

  // The neighbours of the i-th element that is left, told by its old position j.
  lemma NeighboursAfterDrop<A>(s: seq<A>, h: A, k: nat, i: nat)
    requires NoDup(s) && h !in s && k < |s| && i < |s| - 1
    ensures var j := if i < k then i else i + 1; var t := DropAt(s, k);
            && t[i] == s[j] && s[j] != s[k]
            && Around(t, h, i - 1) == Around(s, h, if s[j] == Around(s, h, k + 1) then k - 1 else j - 1)
            && Around(t, h, i + 1) == Around(s, h, if s[j] == Around(s, h, k - 1) then k + 1 else j + 1)
  {
    hide NoDup, DropAt;
    var j := if i < k then i else i + 1;
    AroundDistinct(s, h, j, k - 1);
    AroundDistinct(s, h, j, k);
    AroundDistinct(s, h, j, k + 1);
    AroundDrop(s, h, k, i - 1);
    AroundDrop(s, h, k, i + 1);
  }

  lemma NoDupDrop<A>(s: seq<A>, k: nat)
    requires NoDup(s) && k < |s|
    ensures NoDup(DropAt(s, k)) && s[k] !in DropAt(s, k)
    ensures forall x | x in DropAt(s, k) :: x in s
  {
  }

  lemma DropKeeps<A>(s: seq<A>, x: A, y: A)
    requires x in s && y in s && x != y
    ensures y in DropAt(s, Pos(s, x))
  {
    var k := Pos(s, x);
    var j := Pos(s, y);
    assert DropAt(s, k)[if j < k then j else j - 1] == y;
  }

  lemma NoDupAt<A>(s: seq<A>, k: nat)
    requires NoDup(s) && k < |s|
    ensures forall i | 0 <= i < |s| && i != k :: s[i] != s[k]
  {
  }

  class ListNode<T(0)> {
    var prev: ListNode?<T>
    var next: ListNode?<T>
    var list: List?<T>
    var value: T

    constructor (value: T)
      ensures this.value == value && list == null
    {
      prev, next, list := null, null, null;
      this.value := value;
    }

    // The head of a list, whose payload means nothing.
    constructor Head()
    {
      prev, next, list := null, null, null;
      value := *;
    }
  }

  class List<T(0)> {
    const head: ListNode<T>
    var size: nat

    // The nodes from first to last, without the head.
    ghost var Nodes: seq<ListNode<T>>

    // The node at a position, the head standing on both sides of the others.
    ghost function At(i: int): ListNode<T>
      reads this
    {
      Around(Nodes, head, i)
    }

    ghost predicate Linked(n: ListNode<T>, i: int)
      reads this, n
    {
      n.list == this && n.prev == At(i - 1) && n.next == At(i + 1)
    }

    ghost predicate Valid()
      reads this, head, Nodes
    {
      && size == |Nodes|
      && head !in Nodes
      && NoDup(Nodes)
      && head.list == this && head.next == At(0) && head.prev == At(|Nodes| - 1)
      && (forall i {:trigger Linked(Nodes[i], i)} | 0 <= i < |Nodes| :: Linked(Nodes[i], i))
    }

    // list_init
    constructor ()
      ensures Valid() && Nodes == [] && fresh(head)
    {
      var h := new ListNode<T>.Head();
      head := h;
      size := 0;
      Nodes := [];
      new;
      head.list := this;
      head.next := head;
      head.prev := head;
    }

    // list_insert_node: before the head, which is after the last node.
    method InsertNode(n: ListNode<T>)
      requires Valid() && n !in Nodes && n != head
      modifies this, head, Nodes, n
      ensures Valid() && Nodes == old(Nodes) + [n]
      ensures n.value == old(n.value) && forall m | m in old(Nodes) :: m.value == old(m.value)
    {
      hide NoDup;
      ghost var was := Nodes;
      NoDupAppend(was, n);
      if |was| > 0 {
        NoDupAt(was, |was| - 1);
      }
      n.list := head.list;
      head.prev.next := n;
      n.prev := head.prev;
      head.prev := n;
      n.next := head;
      size := size + 1;
      Nodes := Nodes + [n];
      forall i | 0 <= i < |Nodes| ensures Linked(Nodes[i], i) {
        assert i < |was| ==> Nodes[i] == was[i] && old(Linked(was[i], i));
      }
    }

    // dslink_list_insert
    method Insert(value: T) returns (n: ListNode<T>)
      requires Valid()
      modifies this, head, Nodes
      ensures fresh(n) && n.value == value
      ensures Valid() && Nodes == old(Nodes) + [n]
      ensures forall m | m in old(Nodes) :: m.value == old(m.value)
    {
      n := new ListNode(value);
      InsertNode(n);
    }

    // list_remove_node, on a node of this list.
    method RemoveNode(n: ListNode<T>, ghost k: nat)
      requires Valid() && k < |Nodes| && Nodes[k] == n
      modifies this, head, Nodes
      ensures Valid() && Nodes == DropAt(old(Nodes), k)
      ensures n.list == null && forall m | m in old(Nodes) :: m.value == old(m.value)
    {
      hide NoDup, DropAt, Around;
      ghost var was := Nodes;
      NoDupDrop(was, k);
      EndsAfterDrop(was, head, k);
      AroundIn(was, head, k - 1);
      AroundIn(was, head, k + 1);
      assert Linked(was[k], k);
      size := size - 1;
      n.prev.next := n.next;
      n.next.prev := n.prev;
      n.list := null;
      Nodes := DropAt(was, k);
      forall i | 0 <= i < |Nodes| ensures Linked(Nodes[i], i) {
        NeighboursAfterDrop(was, head, k, i);
        assert old(Linked(was[if i < k then i else i + 1], if i < k then i else i + 1));
      }
    }

    // list_init on a list whose nodes have been freed.
    method Reset()
      requires Valid()
      modifies this, head
      ensures Valid() && Nodes == []
    {
      size := 0;
      head.list := this;
      head.next := head;
      head.prev := head;
      Nodes := [];
    }
  }
}
