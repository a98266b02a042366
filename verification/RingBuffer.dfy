/** The fixed-capacity ring buffer of sdk/src/col/ringbuffer.c.

    `AfterPush` says on sequences what a push means; the class below keeps the
    C layout (a data buffer, the write position `current` and the live `count`) and is
    proved to refine them. */
module Ring {
  import opened Common

  const U32: nat := 0x1_0000_0000

  // Pushing into a full ring drops the oldest element.
  function AfterPush<T>(q: seq<T>, capacity: nat, x: T): (r: seq<T>)
    ensures 0 < capacity && |q| <= capacity ==> |r| <= capacity && |r| > 0 && r[|r| - 1] == x
  {
    if |q| < capacity then q + [x] else if |q| > 0 then q[1..] + [x] else q
  }

  // The elements a push hands to the cleanup function.
  function Evicted<T>(q: seq<T>, capacity: nat): (r: seq<T>)
    requires |q| <= capacity
    ensures |r| <= 1
  {
    if |q| == capacity && |q| > 0 then [q[0]] else []
  }

  // Position in the data buffer of the i-th oldest live element.
  function Index(current: nat, count: nat, size: nat, i: nat): (r: nat)
    requires current < size && i < count <= size
    ensures r < size
  {
    var k := current + size - count + i;
    if k < size then k else k - size
  }

  /** Walking a whole run of pushes and pops: what was pushed is what was cleaned up
      followed by what is still live, so every element is cleaned up exactly once and
      in the order of insertion. */
  datatype Op<T> = PushOp(x: T) | PopOp

  datatype Run<T> = Run(live: seq<T>, cleaned: seq<T>)

  function Apply<T>(s: Run<T>, capacity: nat, op: Op<T>): (r: Run<T>)
    requires 0 < capacity && |s.live| <= capacity
    ensures |r.live| <= capacity
  {
    match op
    case PushOp(x) => Run(AfterPush(s.live, capacity, x), s.cleaned + Evicted(s.live, capacity))
    case PopOp => if s.live == [] then s else Run(s.live[1..], s.cleaned + s.live[..1])
  }

  function ApplyAll<T>(capacity: nat, ops: seq<Op<T>>): (r: Run<T>)
    requires 0 < capacity
    ensures |r.live| <= capacity
  {
    if ops == [] then Run([], [])
    else Apply(ApplyAll(capacity, ops[..|ops| - 1]), capacity, ops[|ops| - 1])
  }

  function Pushed<T>(ops: seq<Op<T>>): seq<T> {
    if ops == [] then []
    else
      var last := ops[|ops| - 1];
      Pushed(ops[..|ops| - 1]) + (if last.PushOp? then [last.x] else [])
  }

  lemma {:induction false} CleanedExactlyOnce<T>(capacity: nat, ops: seq<Op<T>>)
    requires 0 < capacity
    ensures Pushed(ops) == ApplyAll(capacity, ops).cleaned + ApplyAll(capacity, ops).live
  {
    if ops != [] {
      var front := ops[..|ops| - 1];
      CleanedExactlyOnce(capacity, front);
      var s := ApplyAll(capacity, front);
      var s' := ApplyAll(capacity, ops);
      if |s.live| > 0 {
        assert s.live == [s.live[0]] + s.live[1..];
        JoinThree(s.cleaned, [s.live[0]], s.live[1..]);
      }
    }
  }

  class RingBuffer<T(0)> {
    // The live elements, oldest first, and the log of calls to the cleanup function.
    ghost var Contents: seq<T>
    ghost var Cleaned: seq<T>

    const data: array<T>
    const size: nat
    var current: nat
    var count: nat

    ghost predicate Valid()
      reads this, data
    {
      && data.Length == size <= 0x8000_0000
      && count <= size
      && |Contents| == count
      && (size == 0 ==> current == 0)
      && (size > 0 ==> current < size)
      && forall i | 0 <= i < count :: data[Index(current, count, size, i)] == Contents[i]
    }

    // rb_init; a size of 0 leaves a buffer on which every operation fails.
    constructor Init(size: nat)
      requires size <= 0x8000_0000
      ensures Valid() && this.size == size && Contents == [] && Cleaned == []
      ensures fresh(data)
    {
      data := new T[size];
      this.size := size;
      current, count := 0, 0;
      Contents, Cleaned := [], [];
    }

    method Count() returns (r: int)
      requires Valid()
      ensures r == if size == 0 then -1 else |Contents|
    {
      r := if size == 0 then -1 else count;
    }

    method Push(x: T) returns (r: int)
      requires Valid()
      modifies this, data
      ensures Valid()
      ensures r == if size == 0 then -1 else if |old(Contents)| == size then 1 else 0
      ensures Contents == AfterPush(old(Contents), size, x)
      ensures Cleaned == old(Cleaned) + Evicted(old(Contents), size)
    {
      if size == 0 { return -1; }
      r := 0;
      ghost var was := Contents;
      if count == size {
        r := 1;
        Cleaned := Cleaned + [data[current]];
        assert data[Index(current, count, size, 0)] == was[0];
      }
      data[current] := x;
      ghost var written := current;
      ghost var live := count;
      current := current + 1;
      if current == size {
        current := 0;
      }
      if count < size {
        count := count + 1;
      }
      Contents := AfterPush(was, size, x);
      forall i | 0 <= i < count
        ensures data[Index(current, count, size, i)] == Contents[i]
      {
        if i < count - 1 {
          var j := if live == size then i + 1 else i;
          assert Index(written, live, size, j) == Index(current, count, size, i) != written;
        }
      }
    }

    // rb_front
    method Front() returns (r: int)
      requires Valid()
      ensures r == -1 <==> Contents == []
      ensures r != -1 ==> 0 <= r < data.Length && r == Index(current, count, size, 0) && data[r] == Contents[0]
    {
      if size == 0 || count == 0 { return -1; }
      r := if current >= count then current - count else size - (count - current);
      assert r == Index(current, count, size, 0);
    }

    // rb_at: the position of the i-th oldest element, or -1 for the null pointer.
    method At(idx: nat) returns (r: int)
      requires Valid() && idx < U32
      ensures r == -1 <==> |Contents| <= idx
      ensures r != -1 ==> 0 <= r < data.Length && r == Index(current, count, size, idx) && data[r] == Contents[idx]
    {
      if size == 0 || count == 0 || count <= idx { return -1; }
      var index: nat;
      if current >= count {
        index := current - count;
        index := (index + idx) % U32;
      } else {
        index := size - (count - current);
        if (index + idx) % U32 >= size {
          index := (index + idx) % U32 - size;
        } else {
          index := (index + idx) % U32;
        }
      }
      r := index;
      assert r == Index(current, count, size, idx);
    }

    // Writing through the pointer that rb_at returned.
    method Update(idx: nat, position: nat, x: T)
      requires Valid() && idx < |Contents| && position == Index(current, count, size, idx)
      modifies data, `Contents
      ensures Valid() && Contents == old(Contents)[idx := x]
    {
      data[position] := x;
      Contents := Contents[idx := x];
    }

    method Pop() returns (r: int)
      requires Valid()
      modifies this
      ensures Valid()
      ensures r == if old(Contents) == [] then -1 else 0
      ensures Contents == if old(Contents) == [] then [] else old(Contents)[1..]
      ensures Cleaned == old(Cleaned) + (if old(Contents) == [] then [] else old(Contents)[..1])
    {
      if size == 0 { return -1; }
      if count > 0 {
        var index := if current >= count then current - count else size - (count - current);
        assert index == Index(current, count, size, 0);
        Cleaned := Cleaned + [data[index]];
        ghost var live := count;
        ghost var was := Contents;
        count := count - 1;
        Contents := Contents[1..];
        forall i | 0 <= i < count
          ensures data[Index(current, count, size, i)] == Contents[i]
        {
          assert Index(current, count, size, i) == Index(current, live, size, i + 1);
          assert data[Index(current, live, size, i + 1)] == was[i + 1];
        }
        r := 0;
      } else {
        r := -1;
      }
    }

    // rb_free cleans up whatever is still live, oldest first.
    method Free() returns (r: int)
      requires Valid()
      modifies this
      ensures Valid() && Contents == []
      ensures r == if size == 0 then -1 else 0
      ensures Cleaned == old(Cleaned) + old(Contents)
    {
      if size == 0 { return -1; }
      ghost var popped := 0;
      while count > 0
        invariant Valid()
        invariant popped <= |old(Contents)| && Contents == old(Contents)[popped..]
        invariant Cleaned == old(Cleaned) + old(Contents)[..popped]
        decreases count
      {
        var _ := Pop();
        popped := popped + 1;
        assert old(Contents)[..popped] == old(Contents)[..popped - 1] + [old(Contents)[popped - 1]];
      }
      assert old(Contents)[..popped] == old(Contents);
      r := 0;
    }
  }
}
