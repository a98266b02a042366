/** Decoding undoes encoding, exactly when no byte behind the text disturbs the last group. */
module Base64RoundTrip {
  import opened Common
  import opened Base64

  predicate InAlphabet(c: Byte) {
    DecValue(c) < 64
  }

  // ---------- the first pass on an encoded text ----------

  lemma {:induction false} EncodedAlphabet(src: seq<Byte>)
    ensures forall c | c in Encoded(src) :: InAlphabet(c)
  {
    if |src| >= 3 {
      EncodedAlphabet(src[3..]);
    }
  }

  lemma {:induction false} ScanAlphabet(text: seq<Byte>, i: nat, chars: nat)
    requires i <= |text| && forall c | c in text :: InAlphabet(c)
    ensures Scan(text, i, chars, 0) == Count(chars + |text| - i, 0)
    decreases |text| - i
  {
    if i < |text| {
      assert InAlphabet(text[i]);
      ScanAlphabet(text, i + 1, chars + 1);
    }
  }

  // ---------- a group in the second pass ----------

  // Whatever the accumulator held has left the low 24 bits after four characters.
  lemma ShiftFour(x: nat, v0: nat, v1: nat, v2: nat, v3: nat) returns (t: nat)
    requires v0 < 64 && v1 < 64 && v2 < 64 && v3 < 64
    ensures ((((x * 64 + v0) % WORD * 64 + v1) % WORD * 64 + v2) % WORD * 64 + v3) % WORD
         == t * 0x100_0000 + v0 * 0x4_0000 + v1 * 4096 + v2 * 64 + v3
  {
    var x1 := (x * 64 + v0) % WORD;
    var x2 := (x1 * 64 + v1) % WORD;
    var x3 := (x2 * 64 + v2) % WORD;
    var x4 := (x3 * 64 + v3) % WORD;
    var q1 := Keep(x, v0);
    var q2 := Keep(x1, v1);
    var q3 := Keep(x2, v2);
    var q4 := Keep(x3, v3);
    var u := x * 0x100_0000 - q1 * WORD * 0x4_0000 - q2 * WORD * 4096 - q3 * WORD * 64 - q4 * WORD;
    var s := x - q1 * 256 * 0x4_0000 - q2 * 256 * 4096 - q3 * 256 * 64 - q4 * 256;
    assert u == s * 0x100_0000;
    assert x4 == u + v0 * 0x4_0000 + v1 * 4096 + v2 * 64 + v3;
    t := s;
  }

  lemma Keep(x: nat, v: nat) returns (q: nat)
    ensures (x * 64 + v) % WORD == x * 64 + v - q * WORD
  {
    q := (x * 64 + v) / WORD;
  }

  lemma HighByte(t: nat, a: Byte, b: Byte, c: Byte)
    ensures var x := t * 0x100_0000 + a * 65536 + b * 256 + c;
            x / 65536 % 256 == a && x / 256 % 256 == b && x % 256 == c
  {
    var x := t * 0x100_0000 + a * 65536 + b * 256 + c;
    assert x / 65536 == t * 256 + a;
    assert x / 256 == (t * 256 + a) * 256 + b;
  }

  lemma EatFour(a: Acc, c0: Byte, c1: Byte, c2: Byte, c3: Byte)
    ensures EatAll(a, [c0, c1, c2, c3]) == Eat(Eat(Eat(Eat(a, c0), c1), c2), c3)
  {
    hide Eat;
    EatOne(a, [], c0);
    EatOne(a, [c0], c1);
    EatOne(a, [c0, c1], c2);
    EatOne(a, [c0, c1, c2], c3);
    assert [] + [c0] == [c0] && [c0] + [c1] == [c0, c1];
    assert [c0, c1] + [c2] == [c0, c1, c2] && [c0, c1, c2] + [c3] == [c0, c1, c2, c3];
  }

  lemma EatOne(a: Acc, s: seq<Byte>, c: Byte)
    ensures EatAll(a, s + [c]) == Eat(EatAll(a, s), c)
  {
    assert (s + [c])[..|s|] == s;
  }

  lemma {:induction false} EatAppend(a: Acc, s: seq<Byte>, t: seq<Byte>)
    ensures EatAll(a, s + t) == EatAll(EatAll(a, s), t)
  {
    if t == [] {
      assert s + t == s;
    } else {
      assert (s + t)[..|s + t| - 1] == s + t[..|t| - 1];
      EatAppend(a, s, t[..|t| - 1]);
    }
  }

  predicate Plain(c: Byte) {
    !IsBreak(c) && c != 32
  }

  // A byte that is no character of the group leaves it as it is; '=' is one.
  function Value(c: Byte): (v: nat)
    ensures v < 64
  {
    DecValue(c) % 64
  }

  function Marks(cs: seq<Byte>): (n: nat)
    ensures n <= |cs|
  {
    if cs == [] then 0 else Marks(cs[..|cs| - 1]) + (if cs[|cs| - 1] == 61 then 1 else 0)
  }

  function Group(c0: Byte, c1: Byte, c2: Byte, c3: Byte): (r: seq<Byte>)
    ensures |r| == 3
  {
    var v0, v1, v2, v3 := Value(c0), Value(c1), Value(c2), Value(c3);
    [v0 * 4 + v1 / 16, v1 % 16 * 16 + v2 / 4, v2 % 4 * 64 + v3]
  }

  // Four plain characters, the first two of the alphabet, write the group's bytes, one less
  // for every '='.
  lemma EatGroup(a: Acc, c0: Byte, c1: Byte, c2: Byte, c3: Byte)
    requires a.left == 3 && a.n == 0 && InAlphabet(c0) && InAlphabet(c1) && Plain(c2) && Plain(c3)
    ensures var r, marks := EatAll(a, [c0, c1, c2, c3]), Marks([c2, c3]);
            && r.left == 3 - marks && r.n == 0 && r.out == a.out + Group(c0, c1, c2, c3)[..3 - marks]
  {
    EatFour(a, c0, c1, c2, c3);
    MarksOfTwo(c2, c3);
    var x := NextX(NextX(NextX(NextX(a.x, c0), c1), c2), c3);
    GroupInX(a.x, c0, c1, c2, c3);
    EatLefts(a, c0, c1, c2, c3);
    hide NextX, Group, Eat, EatAll, Value;
  }

  lemma GroupInX(x: nat, c0: Byte, c1: Byte, c2: Byte, c3: Byte)
    ensures var g, y := Group(c0, c1, c2, c3), NextX(NextX(NextX(NextX(x, c0), c1), c2), c3);
            y / 65536 % 256 == g[0] && y / 256 % 256 == g[1] && y % 256 == g[2]
  {
    var t := ShiftFour(x, Value(c0), Value(c1), Value(c2), Value(c3));
    var g := Group(c0, c1, c2, c3);
    HighByte(t, g[0], g[1], g[2]);
  }

  lemma MarksOfTwo(c2: Byte, c3: Byte)
    ensures Marks([c2, c3]) == (if c2 == 61 then 1 else 0) + (if c3 == 61 then 1 else 0)
  {
    assert [c2, c3][..1] == [c2] && [c2][..0] == [];
  }

  lemma EatLefts(a: Acc, c0: Byte, c1: Byte, c2: Byte, c3: Byte)
    requires a.left == 3 && a.n == 0 && InAlphabet(c0) && InAlphabet(c1) && Plain(c2) && Plain(c3)
    ensures var r, x := Eat(Eat(Eat(Eat(a, c0), c1), c2), c3), NextX(NextX(NextX(NextX(a.x, c0), c1), c2), c3);
            && r.left == 3 - Marks([c2, c3]) && r.n == 0 && r.x == x && r.out == a.out + GroupBytes(r.left, x)
  {
    hide NextX;
    MarksOfTwo(c2, c3);
  }

  // A byte that is skipped leaves the group unfinished, and nothing is written.
  lemma EatBroken(a: Acc, c0: Byte, c1: Byte, c2: Byte, c3: Byte)
    requires a.n == 0 && InAlphabet(c0) && InAlphabet(c1) && (!Plain(c2) || !Plain(c3))
    ensures EatAll(a, [c0, c1, c2, c3]).out == a.out
  {
    hide NextX, NextLeft;
    EatFour(a, c0, c1, c2, c3);
  }

  // ---------- whole texts ----------

  lemma Sextet(v: nat)
    requires v < 64
    ensures InAlphabet(EncChar(v)) && Value(EncChar(v)) == v
  {
    hide EncChar, DecValue;
  }

  lemma Sextets(a: Byte, b: Byte, c: Byte)
    ensures var v0, v1, v2, v3 := a / 4, a % 4 * 16 + b / 16, b % 16 * 4 + c / 64, c % 64;
            v0 * 4 + v1 / 16 == a && v1 % 16 * 16 + v2 / 4 == b && v2 % 4 * 64 + v3 == c
  {
    assert (a % 4 * 16 + b / 16) / 16 == a % 4 && (a % 4 * 16 + b / 16) % 16 == b / 16;
    assert (b % 16 * 4 + c / 64) / 4 == b % 16 && (b % 16 * 4 + c / 64) % 4 == c / 64;
  }

  lemma QuadGroup(a: Byte, b: Byte, c: Byte)
    ensures var q := Quad(a, b, c);
            && (forall k | 0 <= k < 4 :: InAlphabet(q[k])) && Group(q[0], q[1], q[2], q[3]) == [a, b, c]
  {
    Sextet(a / 4);
    Sextet(a % 4 * 16 + b / 16);
    Sextet(b % 16 * 4 + c / 64);
    Sextet(c % 64);
    Sextets(a, b, c);
    hide EncChar, DecValue, Value, InAlphabet;
  }

  lemma PlainAlphabet(c: Byte)
    requires InAlphabet(c)
    ensures Plain(c) && c != 61
  {
  }

  lemma EatQuad(x: Acc, a: Byte, b: Byte, c: Byte)
    requires x.left == 3 && x.n == 0
    ensures var r := EatAll(x, Quad(a, b, c)); r.left == 3 && r.n == 0 && r.out == x.out + [a, b, c]
  {
    var q := Quad(a, b, c);
    QuadGroup(a, b, c);
    hide Quad, Group, EatAll;
    assert q == [q[0], q[1], q[2], q[3]];
    PlainAlphabet(q[2]);
    PlainAlphabet(q[3]);
    MarksOfTwo(q[2], q[3]);
    EatGroup(x, q[0], q[1], q[2], q[3]);
  }

  lemma EatNone(x: Acc)
    ensures EatAll(x, []) == x && Encoded([]) == []
  {
  }

  lemma Peel(src: seq<Byte>)
    requires |src| >= 3
    ensures Encoded(src) == Quad(src[0], src[1], src[2]) + Encoded(src[3..])
  {
  }

  lemma FirstThree(src: seq<Byte>)
    requires |src| >= 3
    ensures src == [src[0], src[1], src[2]] + src[3..]
  {
  }

  lemma {:induction false} EatWhole(x: Acc, src: seq<Byte>, groups: nat)
    requires x.left == 3 && x.n == 0 && |src| == 3 * groups
    ensures var r := EatAll(x, Encoded(src)); r.left == 3 && r.n == 0 && r.out == x.out + src
    decreases groups
  {
    hide Encoded, EatAll, Quad;
    if groups == 0 {
      EatNone(x);
      assert src == [];
    } else {
      var q, rest := Quad(src[0], src[1], src[2]), src[3..];
      Peel(src);
      FirstThree(src);
      JoinThree(x.out, [src[0], src[1], src[2]], rest);
      EatQuad(x, src[0], src[1], src[2]);
      EatWhole(EatAll(x, q), rest, groups - 1);
      EatAppend(x, q, Encoded(rest));
    }
  }

  /** The last group, of one or two bytes, with what stands behind the text. */
  lemma EatTail(x: Acc, tail: seq<Byte>, look: seq<Byte>)
    requires x.left == 3 && x.n == 0 && 1 <= |tail| <= 2 && |look| == 3 - |tail|
    ensures var r := EatAll(x, Encoded(tail) + look);
            if forall c | c in look :: Plain(c)
            then |r.out| == |x.out| + 3 - Marks(look) && (Marks(look) == 0 ==> x.out + tail <= r.out)
            else r.out == x.out
  {
    var q := if |tail| == 1 then Quad(tail[0], 0, 0)[..2] + look else Quad(tail[0], tail[1], 0)[..3] + look;
    TailGroup(tail, look, q);
    hide Encoded, Quad, EatAll;
    assert q == [q[0], q[1], q[2], q[3]];
    MarksOfTwo(q[2], q[3]);
    if Plain(q[2]) && Plain(q[3]) {
      EatGroup(x, q[0], q[1], q[2], q[3]);
    } else {
      EatBroken(x, q[0], q[1], q[2], q[3]);
    }
  }

  lemma TailGroup(tail: seq<Byte>, look: seq<Byte>, q: seq<Byte>)
    requires 1 <= |tail| <= 2 && |look| == 3 - |tail|
    requires q == if |tail| == 1 then Quad(tail[0], 0, 0)[..2] + look else Quad(tail[0], tail[1], 0)[..3] + look
    ensures q == Encoded(tail) + look && |q| == 4 && InAlphabet(q[0]) && InAlphabet(q[1])
    ensures Plain(q[2]) && Plain(q[3]) <==> forall c | c in look :: Plain(c)
    ensures Marks([q[2], q[3]]) == Marks(look)
    ensures tail <= Group(q[0], q[1], q[2], q[3])
  {
    EncodedTail(tail);
    if |tail| == 1 {
      TailOfOne(tail[0], look);
    } else {
      TailOfTwo(tail[0], tail[1], look[0]);
      assert look == [look[0]];
    }
  }

  lemma TailOfOne(a: Byte, look: seq<Byte>)
    requires |look| == 2
    ensures var q := Quad(a, 0, 0)[..2] + look;
            && InAlphabet(q[0]) && InAlphabet(q[1]) && [q[2], q[3]] == look && Group(q[0], q[1], q[2], q[3])[0] == a
  {
    var full := Quad(a, 0, 0);
    QuadGroup(a, 0, 0);
    GroupPrefix(full, full[..2] + look);
    hide Quad, Group, InAlphabet;
  }

  lemma TailOfTwo(a: Byte, b: Byte, l: Byte)
    ensures var q := Quad(a, b, 0)[..3] + [l];
            && InAlphabet(q[0]) && InAlphabet(q[1]) && Plain(q[2]) && q[3] == l && Marks([q[2], l]) == Marks([l])
            && Group(q[0], q[1], q[2], q[3])[..2] == [a, b]
  {
    var full := Quad(a, b, 0);
    QuadGroup(a, b, 0);
    GroupPrefix(full, full[..3] + [l]);
    PlainAlphabet(full[2]);
    MarksOfTwo(full[2], l);
    assert [l][..0] == [];
    hide Quad, Group, InAlphabet;
  }

  lemma EncodedTail(tail: seq<Byte>)
    requires 1 <= |tail| <= 2
    ensures Encoded(tail) == if |tail| == 1 then Quad(tail[0], 0, 0)[..2] else Quad(tail[0], tail[1], 0)[..3]
  {
  }

  // The first bytes of a group are told by the characters in front.
  lemma GroupPrefix(p: seq<Byte>, q: seq<Byte>)
    requires |p| == |q| == 4
    ensures p[..2] == q[..2] ==> Group(p[0], p[1], p[2], p[3])[..1] == Group(q[0], q[1], q[2], q[3])[..1]
    ensures p[..3] == q[..3] ==> Group(p[0], p[1], p[2], p[3])[..2] == Group(q[0], q[1], q[2], q[3])[..2]
  {
    hide Value;
    assert p[..2] == q[..2] ==> p[0] == p[..2][0] == q[0] && p[1] == p[..2][1] == q[1];
    assert p[..3] == q[..3] ==> p[0] == p[..3][0] == q[0] && p[1] == p[..3][1] == q[1] && p[2] == p[..3][2] == q[2];
  }

  lemma NoMarks(cs: seq<Byte>)
    ensures Marks(cs) == 0 <==> 61 !in cs
  {
    if cs != [] {
      NoMarks(cs[..|cs| - 1]);
      assert cs == cs[..|cs| - 1] + [cs[|cs| - 1]];
    }
  }

  lemma AlignedGroups(groups: nat, left: nat)
    requires left < 3
    ensures Aligned(4 * groups + (if left == 0 then 0 else left + 1)) == 4 * groups + (if left == 0 then 0 else 4)
  {
  }

  // What the second pass writes.
  lemma SecondPass(data: seq<Byte>, look: seq<Byte>)
    requires data != [] && |look| == Aligned(|Encoded(data)|) - |Encoded(data)|
    ensures var out := EatAll(START, Encoded(data) + look).out;
            if forall c | c in look :: Plain(c)
            then |out| == |data| + |look| - Marks(look) && (Marks(look) == 0 ==> data <= out)
            else |out| == |data| + |look| - 3 && |look| > 0
  {
    hide Encoded, EatAll, Aligned, Quad;
    var groups := |data| / 3;
    EncodedLength(data, groups);
    AlignedGroups(groups, |data| - 3 * groups);
    var whole, tail := data[..3 * groups], data[3 * groups..];
    var rest := Encoded(tail) + look;
    GroupLast(data, groups);
    JoinThree(Encoded(whole), Encoded(tail), look);
    EatAppend(START, Encoded(whole), rest);
    EatWhole(START, whole, groups);
    var w := EatAll(START, Encoded(whole));
    assert data == whole + tail && w.out == whole;
    assert EatAll(START, Encoded(data) + look) == EatAll(w, rest);
    if tail != [] {
      EatTail(w, tail, look);
    } else {
      EatNone(w);
      assert look == [] && rest == [];
    }
  }

  // The size that the decoder asks for, of an encoded text.
  function Needed(data: seq<Byte>): nat {
    (|Encoded(data)| * 6 + 7) / 8
  }

  lemma NeededIs(data: seq<Byte>)
    ensures Needed(data) == |data| / 3 * 3 + (if |data| % 3 == 0 then 0 else if |data| % 3 == 1 then 2 else 3)
    ensures Aligned(|Encoded(data)|) - |Encoded(data)| == if |data| % 3 == 0 then 0 else 3 - |data| % 3
  {
    hide Encoded;
    EncodedLength(data, |data| / 3);
  }

  lemma FirstPass(data: seq<Byte>, look: seq<Byte>, room: nat)
    requires |look| == Aligned(|Encoded(data)|) - |Encoded(data)| && data != []
    ensures var (r, out) := Decoded(Encoded(data) + look, |Encoded(data)|, room);
            if room < Needed(data) then r == BufferTooSmall(Needed(data)) && out == []
            else out == EatAll(START, Encoded(data) + look).out && r == Success(Minus(|out|, |look|))
  {
    var text := Encoded(data);
    EncodedAlphabet(data);
    ScanAlphabet(text, 0, 0);
    assert (text + look)[..|text|] == text && (text + look)[..Aligned(|text|)] == text + look;
    EncodedLength(data, |data| / 3);
    hide Encoded, EatAll, Scan, Aligned;
  }

  // No byte behind the text ends or marks the last group.
  predicate Harmless(look: seq<Byte>) {
    forall c | c in look :: Plain(c) && c != 61
  }

  /** The round trip. `look` are the bytes that the decoder reads behind the text, which must
      be in its table. Of the size that it asks for, the decoder writes one byte more exactly
      when one byte is left for the last group and no byte of `look` disturbs it. The data
      comes back, inside the room, if and only if no byte of `look` is CR, LF, a space or
      '=', and the room is what it asks for, with one byte more in that case. */
  lemma RoundTrip(data: seq<Byte>, look: seq<Byte>, room: nat)
    requires |look| == Aligned(|Encoded(data)|) - |Encoded(data)| && forall c | c in look :: c < 128
    ensures var (r, out) := Decoded(Encoded(data) + look, |Encoded(data)|, room);
            && (|out| <= room <==> !(|data| % 3 == 1 && room == Needed(data) && Harmless(look)))
            && (|out| <= room && r == Success(|data|) && data <= out <==>
                Harmless(look) && room >= Needed(data) && (|data| % 3 == 1 ==> room > Needed(data)))
  {
    hide Encoded, EatAll, Scan, Aligned, Needed, Plain;
    NeededIs(data);
    if data != [] {
      FirstPass(data, look, room);
      SecondPass(data, look);
      NoMarks(look);
    } else {
      NothingToDecode(look, room);
    }
  }

  lemma NothingToDecode(look: seq<Byte>, room: nat)
    ensures Encoded([]) == [] && Aligned(0) == 0
    ensures look == [] ==> Decoded([] + look, 0, room) == (Success(0), [])
  {
    assert [] + look == look;
  }
}
