/** The unpadded base64url coder of sdk/src/base64_url.c, the alphabet of section 5 of
    RFC 4648. The decoder reads whole groups of four, so up to two bytes behind the text, and
    never resets its 32-bit accumulator. */
module Base64 {

  type Byte = n: nat | n < 256

  const WORD: nat := 0x1_0000_0000
  const SIZE: nat := 0x1_0000_0000_0000_0000

  // base64_enc_map_
  function EncChar(v: nat): (c: Byte)
    requires v < 64
    ensures DecValue(c) == v
  {
    if v < 26 then v + 65 else if v < 52 then v + 71 else if v < 62 then v - 4 else if v == 62 then 45 else 95
  }

  // base64_dec_map_: 64 marks '=', and 127 what is not in the alphabet.
  function DecValue(c: Byte): (v: nat)
    ensures v < 64 || v == 64 || v == 127
  {
    if 65 <= c <= 90 then c - 65
    else if 97 <= c <= 122 then c - 71
    else if 48 <= c <= 57 then c + 4
    else if c == 45 then 62
    else if c == 95 then 63
    else if c == 61 then 64
    else 127
  }

  predicate IsBreak(c: Byte) {
    c == 13 || c == 10
  }

  // ---------- encoding ----------

  function Quad(a: Byte, b: Byte, c: Byte): (q: seq<Byte>)
    ensures |q| == 4
  {
    [EncChar(a / 4), EncChar(a % 4 * 16 + b / 16), EncChar(b % 16 * 4 + c / 64), EncChar(c % 64)]
  }

  // The last one or two bytes leave two or three characters, as if a zero followed.
  function Encoded(src: seq<Byte>): seq<Byte> {
    if |src| == 0 then []
    else if |src| == 1 then Quad(src[0], 0, 0)[..2]
    else if |src| == 2 then Quad(src[0], src[1], 0)[..3]
    else Quad(src[0], src[1], src[2]) + Encoded(src[3..])
  }

  lemma {:induction false} EncodedAppend(a: seq<Byte>, b: seq<Byte>, groups: nat)
    requires |a| == 3 * groups
    ensures Encoded(a + b) == Encoded(a) + Encoded(b)
  {
    if groups == 0 {
      assert a + b == b;
    } else {
      assert (a + b)[3..] == a[3..] + b;
      EncodedAppend(a[3..], b, groups - 1);
    }
  }

  lemma GroupAppend(src: seq<Byte>, groups: nat)
    requires 3 * groups + 3 <= |src|
    ensures var i := 3 * groups; Encoded(src[..i + 3]) == Encoded(src[..i]) + Quad(src[i], src[i + 1], src[i + 2])
  {
    var i := 3 * groups;
    assert src[..i + 3] == src[..i] + src[i..i + 3];
    EncodedAppend(src[..i], src[i..i + 3], groups);
    assert src[i..i + 3][3..] == [];
  }

  lemma {:induction false} EncodedLength(src: seq<Byte>, groups: nat)
    requires 3 * groups <= |src| < 3 * groups + 3
    ensures |Encoded(src)| == 4 * groups + (if |src| == 3 * groups then 0 else |src| - 3 * groups + 1)
  {
    if groups > 0 {
      EncodedLength(src[3..], groups - 1);
    }
  }

  lemma GroupLast(src: seq<Byte>, groups: nat)
    requires 3 * groups <= |src| < 3 * groups + 3
    ensures Encoded(src) == Encoded(src[..3 * groups]) + Encoded(src[3 * groups..])
    ensures |Encoded(src[..3 * groups])| == 4 * groups
  {
    assert src == src[..3 * groups] + src[3 * groups..];
    EncodedAppend(src[..3 * groups], src[3 * groups..], groups);
    EncodedLength(src[..3 * groups], groups);
  }

  datatype Outcome = Success(len: nat) | BufferTooSmall(needed: nat) | InvalidCharacter

  // The body of the loop over whole groups.
  method EncodeGroup(dst: array<Byte>, p: nat, c1: Byte, c2: Byte, c3: Byte)
    requires p + 4 <= dst.Length
    modifies dst
    ensures dst[..p + 4] == old(dst[..p]) + Quad(c1, c2, c3)
    ensures dst[p + 4..] == old(dst[p + 4..])
  {
    dst[p] := EncChar(c1 / 4);
    dst[p + 1] := EncChar(c1 % 4 * 16 + c2 / 16);
    dst[p + 2] := EncChar(c2 % 16 * 4 + c3 / 64);
    dst[p + 3] := EncChar(c3 % 64);
  }

  // The last one or two bytes, if any.
  method EncodeTail(dst: array<Byte>, p: nat, src: seq<Byte>, i: nat) returns (p': nat)
    requires i <= |src| < i + 3 && p <= dst.Length && (i < |src| ==> p + 4 <= dst.Length)
    modifies dst
    ensures p <= p' <= p + 3 && p' <= dst.Length && (i == |src| ==> p' == p)
    ensures dst[..p'] == old(dst[..p]) + Encoded(src[i..])
    ensures dst[p'..] == old(dst[p'..])
  {
    p' := p;
    if i < |src| {
      var c1 := src[i];
      var c2 := if i + 1 < |src| then src[i + 1] else 0;
      dst[p'] := EncChar(c1 / 4);
      dst[p' + 1] := EncChar(c1 % 4 * 16 + c2 / 16);
      p' := p' + 2;
      if i + 1 < |src| {
        dst[p'] := EncChar(c2 % 16 * 4);
        p' := p' + 1;
      }
    }
  }

  // The loop over whole groups; returns the number of bytes and of characters done.
  method EncodeGroups(dst: array<Byte>, src: seq<Byte>) returns (i: nat, p: nat)
    requires |src| / 3 * 4 < dst.Length
    modifies dst
    ensures i == 3 * (|src| / 3) && p == 4 * (|src| / 3)
    ensures dst[..p] == Encoded(src[..i]) && dst[p..] == old(dst[p..])
  {
    assert src[..0] == [] && Encoded([]) == [];
    hide Encoded, Quad, EncChar, DecValue;
    var n := |src| / 3;
    i, p := 0, 0;
    ghost var groups := 0;
    while i < 3 * n
      invariant i == 3 * groups && p == 4 * groups && groups <= n
      invariant dst[..p] == Encoded(src[..i]) && dst[p..] == old(dst[p..])
    {
      GroupAppend(src, groups);
      EncodedLength(src[..i], groups);
      ghost var before := dst[p..];
      EncodeGroup(dst, p, src[i], src[i + 1], src[i + 2]);
      assert dst[p + 4..] == before[4..];
      p := p + 4;
      i := i + 3;
      groups := groups + 1;
    }
  }

  // All groups and the tail.
  method EncodeText(dst: array<Byte>, src: seq<Byte>) returns (p: nat)
    requires dst.Length >= (|src| + 2) / 3 * 4 + 1
    modifies dst
    ensures p == |Encoded(src)| < dst.Length
    ensures dst[..p] == Encoded(src) && dst[p..] == old(dst[p..])
  {
    hide Encoded, Quad;
    GroupLast(src, |src| / 3);
    EncodedLength(src, |src| / 3);
    var i, q := EncodeGroups(dst, src);
    ghost var behind := dst[q..];
    assert i < |src| ==> q + 4 < dst.Length;
    p := EncodeTail(dst, q, src, i);
    assert dst[p..] == behind[p - q..];
  }

  lemma GroupCount(n: nat)
    ensures n / 3 + (if n % 3 != 0 then 1 else 0) == (n + 2) / 3
  {
  }

  /** dslink_base64_url_encode. */
  method Encode(dst: array<Byte>, src: seq<Byte>) returns (r: Outcome)
    modifies dst
    ensures r == if src == [] then Success(0)
                 else if dst.Length < (|src| + 2) / 3 * 4 + 1 then BufferTooSmall((|src| + 2) / 3 * 4 + 1)
                 else Success(|Encoded(src)|)
    ensures r.Success? && src != [] ==>
              r.len < dst.Length && dst[..r.len] == Encoded(src) && dst[r.len] == 0 && dst[r.len + 1..] == old(dst[r.len + 1..])
    ensures !r.Success? || src == [] ==> dst[..] == old(dst[..])
  {
    hide Encoded;
    if |src| == 0 { return Success(0); }
    var n := |src| / 3 + (if |src| % 3 != 0 then 1 else 0);
    GroupCount(|src|);
    n := n * 4;
    if dst.Length < n + 1 { return BufferTooSmall(n + 1); }
    var p := EncodeText(dst, src);
    ghost var behind := dst[p..];
    dst[p] := 0;
    assert dst[p + 1..] == behind[1..];
    r := Success(p);
  }

  // ---------- decoding ----------

  // The first index from i on that holds no space.
  function SkipSpaces(src: seq<Byte>, i: nat): (s: nat)
    requires i <= |src|
    ensures i <= s <= |src|
    ensures s < |src| ==> src[s] != 32
    decreases |src| - i
  {
    if i < |src| && src[i] == 32 then SkipSpaces(src, i + 1) else i
  }

  datatype Count = Count(chars: nat, dots: nat) | Invalid

  // The first pass over the text counts its characters and its dots.
  function Scan(text: seq<Byte>, i: nat, chars: nat, dots: nat): (r: Count)
    requires i <= |text| && dots <= 2 && dots <= chars
    ensures r.Count? ==> r.dots <= 2 && r.dots <= r.chars
    decreases |text| - i
  {
    var s := SkipSpaces(text, i);
    if s == |text| then Count(chars, dots)
    else
      var c := text[s];
      var dots' := if c == 46 then dots + 1 else dots;
      if (|text| - s >= 2 && c == 13 && text[s + 1] == 10) || c == 10 then Scan(text, s + 1, chars, dots)
      else if s != i || (c == 46 && dots' > 2) || c > 127 || (DecValue(c) < 64 && dots' != 0) then Invalid
      else Scan(text, s + 1, chars + 1, dots')
  }

  /** The second pass: `left` is the number of bytes the next group may write, an unsigned
      counter that every '=' decrements; `n` of the group's characters have been read. */
  datatype Acc = Acc(left: nat, n: nat, x: nat, out: seq<Byte>)

  function GroupBytes(left: nat, x: nat): (r: seq<Byte>)
    ensures |r| <= 3
  {
    (if left > 0 then [x / 65536 % 256] else [])
    + (if left > 1 then [x / 256 % 256] else [])
    + (if left > 2 then [x % 256] else [])
  }

  function NextLeft(left: nat, c: Byte): nat {
    if DecValue(c) != 64 then left else if left == 0 then WORD - 1 else left - 1
  }

  function NextX(x: nat, c: Byte): nat {
    (x * 64 + DecValue(c) % 64) % WORD
  }

  function Eat(a: Acc, c: Byte): Acc {
    if IsBreak(c) || c == 32 then a
    else
      var left, x := NextLeft(a.left, c), NextX(a.x, c);
      if a.n + 1 == 4 then Acc(left, 0, x, a.out + GroupBytes(left, x)) else Acc(left, a.n + 1, x, a.out)
  }

  function EatAll(a: Acc, s: seq<Byte>): Acc {
    if s == [] then a else Eat(EatAll(a, s[..|s| - 1]), s[|s| - 1])
  }

  const START := Acc(3, 0, 0, [])

  lemma {:induction false} OutBound(s: seq<Byte>)
    ensures var a := EatAll(START, s); a.n < 4 && 4 * |a.out| + 3 * a.n <= 3 * |s|
  {
    if s != [] {
      OutBound(s[..|s| - 1]);
    }
  }

  function Aligned(n: nat): (r: nat)
    ensures n <= r <= n + 3
  {
    (n + 3) / 4 * 4
  }

  // The difference of two sizes.
  function Minus(x: nat, y: nat): nat {
    if y <= x then x - y else if y <= SIZE then SIZE - y + x else 0
  }

  /** What dslink_base64_url_decode does with a text of n bytes and the bytes behind it: how
      it ends, and what it has written. */
  function Decoded(memory: seq<Byte>, n: nat, room: nat): (Outcome, seq<Byte>)
    requires Aligned(n) <= |memory|
  {
    match Scan(memory[..n], 0, 0, 0)
    case Invalid => (InvalidCharacter, [])
    case Count(chars, dots) =>
      if chars == 0 then (Success(0), [])
      else
        var needed := (chars * 6 + 7) / 8 - dots;
        if room < needed then (BufferTooSmall(needed), [])
        else
          var out := EatAll(START, memory[..Aligned(n)]).out;
          (Success(Minus(|out|, Aligned(n) - n)), out)
  }

  // The first pass.
  method CountText(text: seq<Byte>) returns (r: Count)
    ensures r == Scan(text, 0, 0, 0)
  {
    var i, n, j := 0, 0, 0;
    while i < |text|
      invariant i <= |text| && j <= 2 && j <= n && Scan(text, i, n, j) == Scan(text, 0, 0, 0)
      decreases |text| - i
    {
      ghost var from := i;
      var x := 0;
      while i < |text| && text[i] == 32
        invariant from <= i <= |text| && x == i - from && SkipSpaces(text, from) == SkipSpaces(text, i)
      {
        i := i + 1;
        x := x + 1;
      }
      if i == |text| { break; }
      if (|text| - i >= 2 && text[i] == 13 && text[i + 1] == 10) || text[i] == 10 {
        i := i + 1;
        continue;
      }
      if x != 0 { return Invalid; }
      if text[i] == 46 {
        j := j + 1;
        if j > 2 { return Invalid; }
      }
      if text[i] > 127 || (DecValue(text[i]) < 64 && j != 0) { return Invalid; }
      n := n + 1;
      i := i + 1;
    }
    r := Count(n, j);
  }

  // Room for whole groups is always enough; the size that the code asks for may not be.
  lemma WholeGroups(memory: seq<Byte>, n: nat, room: nat)
    requires Aligned(n) <= |memory| && room >= Aligned(n) / 4 * 3
    ensures |Decoded(memory, n, room).1| <= room
  {
    hide Scan, EatAll;
    OutBound(memory[..Aligned(n)]);
  }

  lemma {:induction false} EatGrows(s: seq<Byte>, t: seq<Byte>)
    ensures EatAll(START, s).out <= EatAll(START, s + t).out
  {
    hide GroupBytes, NextLeft, NextX;
    if t == [] {
      assert s + t == s;
    } else {
      EatGrows(s, t[..|t| - 1]);
      assert (s + t)[..|s + t| - 1] == s + t[..|t| - 1];
    }
  }

  /** dslink_base64_url_decode. It is defined when the room holds what an accepted text
      writes, and when the bytes behind the text are in the table. */
  method Decode(dst: array<Byte>, memory: seq<Byte>, n: nat) returns (r: Outcome)
    requires Aligned(n) <= |memory| && forall i | 0 <= i < |memory| :: memory[i] >= 128 ==> i < n
    requires |Decoded(memory, n, dst.Length).1| <= dst.Length
    modifies dst
    ensures var (o, out) := Decoded(memory, n, dst.Length);
            r == o && dst[..|out|] == out && dst[|out|..] == old(dst[|out|..])
  {
    hide Scan;
    var count := CountText(memory[..n]);
    if count == Invalid { return InvalidCharacter; }
    if count.chars == 0 { return Success(0); }
    var needed := (count.chars * 6 + 7) / 8 - count.dots;
    if dst.Length < needed { return BufferTooSmall(needed); }
    var p := EatText(dst, memory[..Aligned(n)]);
    r := Success(Minus(p, Aligned(n) - n));
  }

  // The second pass.
  method EatText(dst: array<Byte>, text: seq<Byte>) returns (p: nat)
    requires |EatAll(START, text).out| <= dst.Length
    modifies dst
    ensures p == |EatAll(START, text).out|
    ensures dst[..p] == EatAll(START, text).out && dst[p..] == old(dst[p..])
  {
    assert EatAll(START, text[..0]) == START;
    hide EatAll, NextLeft, NextX, GroupBytes;
    var j: nat, n: nat, x: nat, i := 3, 0, 0, 0;
    p := 0;
    while i < |text|
      invariant i <= |text| && p <= dst.Length
      invariant EatAll(START, text[..i]) == Acc(j, n, x, dst[..p])
      invariant dst[p..] == old(dst[p..])
    {
      ghost var a := EatAll(START, text[..i]);
      EatNext(text, i);
      EatGrows(text[..i + 1], text[i + 1..]);
      assert text[..i + 1] + text[i + 1..] == text;
      var c := text[i];
      i := i + 1;
      if IsBreak(c) || c == 32 { continue; }
      j := NextLeft(j, c);
      x := NextX(x, c);
      n := n + 1;
      if n == 4 {
        n := 0;
        assert Eat(a, c) == Acc(j, 0, x, a.out + GroupBytes(j, x));
        p := WriteGroup(dst, p, j, x);
      }
    }
    assert text[..i] == text;
  }

  lemma EatNext(text: seq<Byte>, i: nat)
    requires i < |text|
    ensures EatAll(START, text[..i + 1]) == Eat(EatAll(START, text[..i]), text[i])
  {
    assert text[..i + 1][..i] == text[..i];
  }

  method WriteGroup(dst: array<Byte>, p: nat, j: nat, x: nat) returns (p': nat)
    requires p + |GroupBytes(j, x)| <= dst.Length
    modifies dst
    ensures p' == p + |GroupBytes(j, x)| && dst[..p'] == old(dst[..p]) + GroupBytes(j, x)
    ensures dst[p'..] == old(dst[p'..])
  {
    p' := p;
    if j > 0 { dst[p'] := x / 65536 % 256; p' := p' + 1; }
    if j > 1 { dst[p'] := x / 256 % 256; p' := p' + 1; }
    if j > 2 { dst[p'] := x % 256; p' := p' + 1; }
  }

  // ---------- the alphabet and the order of the bits ----------

  /** The URL and filename safe alphabet of section 5 of RFC 4648. */
  lemma AlphabetExact(v: nat)
    requires v < 64
    ensures EncChar(v) ==
            if v < 26 then 'A' as nat + v else if v < 52 then 'a' as nat + v - 26 else if v < 62 then '0' as nat + v - 52
            else if v == 62 then '-' as nat else '_' as nat
  {
  }

  // No other character but '=' has a place in the table of the decoder.
  lemma DecValueExact(c: Byte)
    ensures DecValue(c) < 64 ==> EncChar(DecValue(c)) == c
    ensures DecValue(c) == 64 <==> c == '=' as nat
    ensures DecValue(c) >= 64 ==> DecValue(c) == if c == '=' as nat then 64 else 127
  {
  }

  function ValueOf(text: seq<Byte>): nat {
    if text == [] then 0 else ValueOf(text[..|text| - 1]) * 64 + DecValue(text[|text| - 1])
  }

  function NumberOf(src: seq<Byte>): nat {
    if src == [] then 0 else NumberOf(src[..|src| - 1]) * 256 + src[|src| - 1]
  }

  /** The text of a group is its bytes as a number, the first byte the highest, in base 64; two
      or four zero bits fill up the last character of a short one. */
  lemma GroupIsNumber(src: seq<Byte>)
    requires 0 < |src| <= 3
    ensures ValueOf(Encoded(src)) == NumberOf(src) * (if |src| == 1 then 16 else if |src| == 2 then 4 else 1)
  {
    hide EncChar, DecValue;
    var e := Encoded(src);
    if |src| == 1 {
      ValueOfTwo(e);
      assert NumberOf(src[..0]) == 0;
    } else if |src| == 2 {
      ValueOfThree(e);
      NumberOfTwo(src);
    } else {
      assert Encoded(src[3..]) == [];
      ValueOfFour(e);
      NumberOfTwo(src[..2]);
    }
  }

  lemma ValueOfTwo(e: seq<Byte>)
    requires |e| == 2
    ensures ValueOf(e) == DecValue(e[0]) * 64 + DecValue(e[1])
  {
    hide DecValue;
    assert e[..1][..0] == [] && ValueOf(e[..1]) == DecValue(e[0]);
  }

  lemma ValueOfThree(e: seq<Byte>)
    requires |e| == 3
    ensures ValueOf(e) == (DecValue(e[0]) * 64 + DecValue(e[1])) * 64 + DecValue(e[2])
  {
    hide DecValue;
    ValueOfTwo(e[..2]);
  }

  lemma ValueOfFour(e: seq<Byte>)
    requires |e| == 4
    ensures ValueOf(e) == ((DecValue(e[0]) * 64 + DecValue(e[1])) * 64 + DecValue(e[2])) * 64 + DecValue(e[3])
  {
    hide DecValue;
    ValueOfThree(e[..3]);
  }

  lemma NumberOfTwo(src: seq<Byte>)
    requires |src| == 2
    ensures NumberOf(src) == src[0] as nat * 256 + src[1] as nat
  {
    assert src[..1][..0] == [] && NumberOf(src[..1]) == src[0];
  }
}
