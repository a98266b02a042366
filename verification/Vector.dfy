/** The growable vector of sdk/src/col/vector.c.

    The searches receive the comparison with the sought value as a function `cmp`, which
    plays the part of cmp_fn(data, element): positive while the element lies before the
    sought value, zero on it, negative after it. */
module Vec {

  // The outcome of the comparison on every element.
  function Signs<T>(v: seq<T>, cmp: T -> int): (r: seq<int>)
    ensures |r| == |v| && forall i | 0 <= i < |v| :: r[i] == cmp(v[i])
  {
    seq(|v|, i requires 0 <= i < |v| => cmp(v[i]))
  }

  // Sorted input: first the elements before the sought value, then its equals, then the rest.
  ghost predicate Ordered(signs: seq<int>) {
    forall i, j | 0 <= i < j < |signs| ::
      (signs[j] > 0 ==> signs[i] > 0) && (signs[j] == 0 ==> signs[i] >= 0)
  }

  function Half(n: nat): (h: nat)
    ensures n > 0 ==> h < n
  {
    n / 2
  }

  // What vector_upper_bound_range computes on any input, sorted or not, by halving.
  function UpperBound(signs: seq<int>, first: nat, count: nat): (r: nat)
    requires first + count <= |signs|
    ensures first <= r <= first + count
    decreases count
  {
    if count == 0 then first
    else
      var step := Half(count);
      if signs[first + step] >= 0 then UpperBound(signs, first + step + 1, count - (step + 1))
      else UpperBound(signs, first, step)
  }

  lemma OrderedAround(signs: seq<int>, it: nat)
    requires Ordered(signs) && it < |signs|
    ensures signs[it] >= 0 ==> forall i | 0 <= i <= it :: signs[i] >= 0
    ensures signs[it] < 0 ==> forall i | it <= i < |signs| :: signs[i] < 0
  {
  }

  // On sorted input the halving finds the one partition point.
  lemma {:induction false} UpperBoundExact(signs: seq<int>, first: nat, count: nat)
    requires first + count <= |signs| && Ordered(signs)
    ensures var r := UpperBound(signs, first, count);
            && (forall i | first <= i < r :: signs[i] >= 0)
            && (forall i | r <= i < first + count :: signs[i] < 0)
    decreases count
  {
    hide Ordered, Half;
    if count > 0 {
      var step := Half(count);
      OrderedAround(signs, first + step);
      if signs[first + step] >= 0 {
        UpperBoundExact(signs, first + step + 1, count - (step + 1));
      } else {
        UpperBoundExact(signs, first, step);
      }
    }
  }

  // The elements that differ from the sought value, in order.
  function Keep<T>(v: seq<T>, cmp: T -> int): (r: seq<T>)
    ensures |r| <= |v|
  {
    if v == [] then []
    else Keep(v[..|v| - 1], cmp) + (if cmp(v[|v| - 1]) != 0 then [v[|v| - 1]] else [])
  }

  lemma {:induction false} KeepStep<T>(v: seq<T>, cmp: T -> int, i: nat)
    requires i < |v|
    ensures Keep(v[..i + 1], cmp) == Keep(v[..i], cmp) + (if cmp(v[i]) != 0 then [v[i]] else [])
  {
    assert v[..i + 1][..i] == v[..i];
  }

  // Filtering drops every equal element, keeps every other, and commutes with concatenation.
  lemma {:induction false} KeepAppend<T>(v: seq<T>, w: seq<T>, cmp: T -> int)
    ensures Keep(v + w, cmp) == Keep(v, cmp) + Keep(w, cmp)
  {
    if w == [] {
      assert v + w == v;
    } else {
      var u := w[..|w| - 1];
      assert (v + w)[..|v + w| - 1] == v + u;
      KeepAppend(v, u, cmp);
    }
  }

  lemma {:induction false} KeepAll<T>(v: seq<T>, cmp: T -> int)
    requires forall i | 0 <= i < |v| :: cmp(v[i]) != 0
    ensures Keep(v, cmp) == v
  {
    if v != [] {
      KeepAll(v[..|v| - 1], cmp);
    }
  }

  lemma {:induction false} KeepMembers<T>(v: seq<T>, cmp: T -> int)
    ensures forall x | x in Keep(v, cmp) :: x in v && cmp(x) != 0
  {
    if v != [] {
      KeepMembers(v[..|v| - 1], cmp);
    }
  }

  class Vector<T(0)> {
    ghost var Contents: seq<T>

    var data: array<T>
    var size: nat

    ghost predicate Valid()
      reads this, data
    {
      size <= data.Length && Contents == data[..size]
    }

    // vector_init
    constructor Init(capacity: nat)
      ensures Valid() && Contents == [] && fresh(data) && data.Length == capacity
    {
      data := new T[capacity];
      size := 0;
      Contents := [];
    }

    method Count() returns (r: nat)
      requires Valid()
      ensures r == |Contents|
    {
      r := size;
    }

    // vector_append with the doubling of vector_resize.
    method Append(x: T) returns (index: nat)
      requires Valid()
      modifies this, data
      ensures Valid() && (data == old(data) || fresh(data))
      ensures Contents == old(Contents) + [x] && index == |old(Contents)|
    {
      if size >= data.Length {
        var cap := data.Length * 2;
        if cap == 0 {
          cap := 64;
        }
        var grown := new T[cap];
        for i := 0 to size
          modifies grown
          invariant grown[..i] == data[..i]
        {
          grown[i] := data[i];
        }
        data := grown;
      }
      data[size] := x;
      size := size + 1;
      Contents := Contents + [x];
      index := size - 1;
    }

    // vector_get; the caller's position is checked like the C code checks it.
    method Get(index: nat) returns (ok: bool, x: T)
      requires Valid()
      ensures ok <==> index < |Contents|
      ensures ok ==> x == Contents[index]
    {
      ok := index < size;
      if ok {
        x := data[index];
      } else {
        x := *;
      }
    }

    // memmove of `count` elements towards the front.
    method MoveDown(to: nat, from: nat, count: nat)
      requires to <= from && from + count <= data.Length
      modifies data
      ensures forall j | 0 <= j < to :: data[j] == old(data[j])
      ensures forall j | to <= j < to + count :: data[j] == old(data[j + (from - to)])
    {
      var shift := from - to;
      for i := to to to + count
        invariant forall j | 0 <= j < to :: data[j] == old(data[j])
        invariant forall j | to <= j < i :: data[j] == old(data[j + shift])
        invariant forall j | i <= j < data.Length :: data[j] == old(data[j])
      {
        data[i] := data[i + shift];
      }
    }

    /** vector_erase_range removes [lower, upper), an upper bound past the end meaning
        "to the end". With the moved count read as size - (upper + 1) elements. On an
        empty vector a positive lower bound is outside what the unsigned test `size - 1`
        catches, so the caller must not pass one. */
    method EraseRange(lower: nat, upper: nat) returns (r: int)
      requires Valid()
      requires size == 0 ==> lower == 0 || lower >= upper
      modifies `size, `Contents, data
      ensures Valid()
      ensures r == -1 <==> lower >= upper || (|old(Contents)| > 0 && lower >= |old(Contents)|)
      ensures r == -1 ==> Contents == old(Contents)
      ensures r != -1 ==> r == 0 && Contents == Without(old(Contents), lower, upper)
    {
      if (size > 0 && lower > size - 1) || lower >= upper { return -1; }
      if size == 0 { return 0; }
      ghost var was := Contents;
      var last: nat := if upper >= size then size - 1 else upper - 1;
      if last < size - 1 {
        MoveDown(lower, last + 1, size - (last + 1));
      }
      size := size - (last - lower + 1);
      Contents := data[..size];
      assert Contents == was[..lower] + was[last + 1..];
      assert was[last + 1..] == if upper < |was| then was[upper..] else [];
      r := 0;
    }

    // vector_find
    method Find(cmp: T -> int) returns (r: int)
      requires Valid()
      ensures -1 <= r < |Contents|
      ensures r >= 0 ==> cmp(Contents[r]) == 0 && forall i | 0 <= i < r :: cmp(Contents[i]) != 0
      ensures r == -1 ==> forall i | 0 <= i < |Contents| :: cmp(Contents[i]) != 0
    {
      for n := 0 to size
        invariant forall i | 0 <= i < n :: cmp(Contents[i]) != 0
      {
        if cmp(data[n]) == 0 { return n; }
      }
      r := -1;
    }

    // vector_remove_if gathers the kept elements at the front and leaves the size alone.
    method RemoveIf(cmp: T -> int) returns (first: nat)
      requires Valid()
      modifies data, `Contents
      ensures Valid() && |Contents| == |old(Contents)|
      ensures first == |Keep(old(Contents), cmp)|
      ensures Contents[..first] == Keep(old(Contents), cmp)
    {
      hide Keep;
      ghost var was := Contents;
      var found := Find(cmp);
      if found < 0 {
        KeepAll(was, cmp);
        assert was[..size] == was;
        return size;
      }
      first := found;
      KeepAll(was[..first], cmp);
      KeepStep(was, cmp, first);
      assert data[..first] == was[..first];
      var i := first + 1;
      while i != size
        modifies data
        invariant first < i <= size
        invariant forall j | i <= j < size :: data[j] == was[j]
        invariant data[..first] == Keep(was[..i], cmp)
        decreases size - i
      {
        KeepStep(was, cmp, i);
        ghost var kept := data[..first];
        if cmp(data[i]) != 0 {
          data[first] := data[i];
          first := first + 1;
          assert data[..first] == kept + [was[i]];
        }
        i := i + 1;
      }
      assert was[..i] == was;
      Contents := data[..size];
      assert Contents[..first] == data[..first];
    }

    // vector_binary_search_range: -1 for absent, otherwise a position holding the value.
    method BinarySearchRange(cmp: T -> int, lower: nat, upper: nat) returns (r: int)
      requires Valid() && size <= 0x8000_0000
      requires Ordered(Signs(Contents, cmp))
      requires lower < upper && size > 0 ==> lower < size
      ensures r == -1 <==> forall i | lower <= i < upper && i < |Contents| :: cmp(Contents[i]) != 0
      ensures r != -1 ==> lower <= r < upper && r < |Contents| && cmp(Contents[r]) == 0
    {
      hide Signs;
      if size == 0 || upper == 0 || lower >= upper { return -1; }
      ghost var signs := Signs(Contents, cmp);
      var res := cmp(data[lower]);
      assert res == signs[lower];
      if res <= 0 {
        if res == 0 { return lower; }
        assert forall i | lower < i < size :: signs[i] < 0;
        return -1;
      }
      var high := if upper >= size then size - 1 else upper - 1;
      res := cmp(data[high]);
      assert res == signs[high];
      if res >= 0 {
        if res == 0 { return high; }
        assert forall i | lower <= i < high :: signs[i] > 0;
        return -1;
      }
      r := Halving(cmp, lower, high);
    }

    // The loop of the search, between a smaller and a greater element.
    method Halving(cmp: T -> int, lower: nat, high: nat) returns (r: int)
      requires Valid() && size <= 0x8000_0000 && lower <= high < size
      requires Ordered(Signs(Contents, cmp))
      requires Signs(Contents, cmp)[lower] > 0 > Signs(Contents, cmp)[high]
      ensures r == -1 <==> forall i | lower <= i <= high :: cmp(Contents[i]) != 0
      ensures r != -1 ==> lower <= r <= high && cmp(Contents[r]) == 0
    {
      hide Signs;
      ghost var signs := Signs(Contents, cmp);
      var l, h: nat := lower, high;
      while l <= h
        invariant lower <= l <= h + 1 <= high + 1
        invariant forall i | lower <= i < l :: signs[i] > 0
        invariant forall i | h < i <= high :: signs[i] < 0
        decreases h + 1 - l
      {
        var m := (l + h) % 0x1_0000_0000 / 2;
        var c := cmp(data[m]);
        assert c == signs[m];
        if c == 0 {
          return m;
        } else if c > 0 {
          l := m + 1;
        } else {
          // m is not the first position, whose sign is positive: the subtraction cannot wrap
          h := m - 1;
        }
      }
      r := -1;
      forall i | lower <= i <= high ensures cmp(Contents[i]) != 0 {
        assert cmp(Contents[i]) == signs[i];
      }
    }

    // vector_upper_bound_range
    method UpperBoundRange(cmp: T -> int, first: nat, last: nat) returns (r: nat)
      requires Valid()
      ensures size == 0 || last == 0 ==> r == first
      ensures size > 0 && 0 < last ==>
                var end := if last > size then size else last;
                r == if end <= first then end else UpperBound(Signs(Contents, cmp), first, end - first)
    {
      hide Signs, Half;
      if size == 0 || last == 0 { return first; }
      var end := if last > size then size else last;
      if end <= first { return end; }
      ghost var signs := Signs(Contents, cmp);
      var lo: nat := first;
      var count: nat := end - first;
      while count > 0
        invariant lo + count <= end
        invariant UpperBound(signs, lo, count) == UpperBound(signs, first, end - first)
        decreases count
      {
        var it := lo;
        var step := Half(count);
        it := it + step;
        assert signs[it] == cmp(data[it]);
        if cmp(data[it]) >= 0 {
          lo := it + 1;
          count := count - (step + 1);
        } else {
          count := step;
        }
      }
      return lo;
    }

    // vector_free keeps the object but drops its buffer.
    method Free()
      requires Valid()
      modifies this
      ensures Valid() && Contents == [] && fresh(data) && data.Length == 0
    {
      data := new T[0];
      size := 0;
      Contents := [];
    }
  }

  // The elements outside [lower, upper).
  function Without<T>(v: seq<T>, lower: nat, upper: nat): (r: seq<T>)
    requires lower <= |v|
  {
    v[..lower] + (if lower < upper < |v| then v[upper..] else if lower < upper then [] else v[lower..])
  }

  // Removing and then erasing the tail is the order-preserving filter.
  method RemoveAll<T(0)>(v: Vector<T>, cmp: T -> int)
    requires v.Valid()
    modifies v, v.data
    ensures v.Valid() && v.data == old(v.data)
    ensures v.Contents == Keep(old(v.Contents), cmp)
  {
    var eraseIdx := v.RemoveIf(cmp);
    var total := v.Count();
    var _ := v.EraseRange(eraseIdx, total);
  }
}
