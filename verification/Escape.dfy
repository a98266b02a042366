/** Percent-escaping of sdk/src/utils.c, on strings of signed chars without the zero at their
    end. The broker names files after escaped paths. */
module Escape {

  type Char = c: int | -128 <= c < 128 && c != 0 witness 1

  const PERCENT: Char := 37
  const COMMA: Char := 44
  const SLASH: Char := 47
  const COLON: Char := 58
  const EQUALS: Char := 61

  // The test of both loops of dslink_str_escape; '%' is below ','.
  predicate Special(c: Char) {
    c <= COMMA || c == SLASH || c == COLON || c == EQUALS
  }

  function EncodeBase16(code: int): (c: Char)
    ensures 0 <= code < 16 ==> DecodeBase16(c) == code
    ensures !(0 <= code < 16) ==> c == -1
  {
    if 0 <= code < 10 then code + 48 else if 0 <= code < 16 then code + 55 else -1
  }

  function DecodeBase16(c: int): (v: int)
    ensures -1 <= v < 16
  {
    if 48 <= c <= 57 then c - 48
    else if 97 <= c <= 102 then c - 87
    else if 65 <= c <= 70 then c - 55
    else -1
  }

  // Shifting a signed char right rounds down, and masking it gives what that leaves.
  function HighNibble(c: Char): int {
    c / 16
  }

  function LowNibble(c: Char): nat {
    c % 16
  }

  function EscapeChar(c: Char): (r: seq<Char>)
    ensures |r| == if Special(c) then 3 else 1
  {
    if Special(c) then [PERCENT, EncodeBase16(HighNibble(c)), EncodeBase16(LowNibble(c))] else [c]
  }

  function Escaped(s: seq<Char>): seq<Char> {
    if s == [] then [] else Escaped(s[..|s| - 1]) + EscapeChar(s[|s| - 1])
  }

  function At(s: seq<Char>, i: nat): int {
    if i < |s| then s[i] else 0
  }

  // The conversion back to char.
  function ToChar(v: nat): int
    requires v < 256
  {
    if v < 128 then v else v - 256
  }

  // A sequence is unescaped to one char, when two digits follow the '%'; "%00" ends the
  // string early and is not among the results of escaping.
  predicate IsEscape(s: seq<Char>, i: nat)
    requires i < |s|
  {
    s[i] == PERCENT && DecodeBase16(At(s, i + 1)) > -1 && DecodeBase16(At(s, i + 2)) > -1
  }

  function UnescapedFrom(s: seq<Char>, i: nat): (r: seq<int>)
    requires i <= |s|
    ensures |r| <= |s| - i
    decreases |s| - i
  {
    if i == |s| then []
    else if IsEscape(s, i) then
      [ToChar(DecodeBase16(s[i + 1]) * 16 + DecodeBase16(s[i + 2]))] + UnescapedFrom(s, i + 3)
    else [s[i]] + UnescapedFrom(s, i + 1)
  }

  // ---------- the code ----------

  function EscapedLength(s: seq<Char>): nat {
    if s == [] then 0 else EscapedLength(s[..|s| - 1]) + (if Special(s[|s| - 1]) then 3 else 1)
  }

  lemma {:induction false} LengthExact(s: seq<Char>)
    ensures |Escaped(s)| == EscapedLength(s)
  {
    if s != [] {
      LengthExact(s[..|s| - 1]);
    }
  }

  lemma {:induction false} LengthGrows(s: seq<Char>, i: nat)
    requires i < |s|
    ensures EscapedLength(s[..i]) + (if Special(s[i]) then 3 else 1) <= EscapedLength(s)
    decreases |s|
  {
    if i == |s| - 1 {
    } else {
      assert s[..|s| - 1][..i] == s[..i];
      LengthGrows(s[..|s| - 1], i);
    }
  }

  /** dslink_str_escape: the first loop counts, the second writes; the buffer holds the result
      and its final zero, and nothing is left over. */
  method StrEscape(data: seq<Char>) returns (rslt: array<int>)
    ensures fresh(rslt) && rslt.Length == |Escaped(data)| + 1
    ensures rslt[..|Escaped(data)|] == Escaped(data) && rslt[|Escaped(data)|] == 0
  {
    hide Special, Escaped;
    var lenoff, search := 1, 0;
    while search < |data|
      invariant search <= |data| && search + lenoff == EscapedLength(data[..search]) + 1
    {
      assert data[..search + 1][..search] == data[..search];
      PercentIsSpecial(data[search]);
      if Special(data[search]) || data[search] == PERCENT {
        lenoff := lenoff + 2;
      }
      search := search + 1;
    }
    assert data[..search] == data;
    LengthExact(data);
    rslt := new int[search + lenoff];
    var pt := WriteEscaped(data, rslt);
    rslt[pt] := 0;
  }

  lemma PercentIsSpecial(c: Char)
    ensures c == PERCENT ==> Special(c)
  {
  }

  // The second loop. Where the code asks for '%' again it looks at the end of the string, so
  // that test never holds.
  method WriteEscaped(data: seq<Char>, rslt: array<int>) returns (pt: nat)
    requires rslt.Length >= |Escaped(data)|
    modifies rslt
    ensures pt == |Escaped(data)| && rslt[..pt] == Escaped(data)
  {
    hide Special, EscapedLength, Escaped;
    LengthExact(data);
    pt := 0;
    var i := 0;
    EscapedNone(data);
    while i < |data|
      invariant i <= |data| && pt <= rslt.Length && rslt[..pt] == Escaped(data[..i])
    {
      EscapedNext(data, i);
      LengthExact(data[..i]);
      LengthGrows(data, i);
      if Special(data[i]) {
        rslt[pt] := PERCENT;
        rslt[pt + 1] := EncodeBase16(HighNibble(data[i]));
        rslt[pt + 2] := EncodeBase16(LowNibble(data[i]));
        pt := pt + 3;
      } else {
        rslt[pt] := data[i];
        pt := pt + 1;
      }
      i := i + 1;
    }
    assert data[..i] == data;
  }

  lemma EscapedNone(s: seq<Char>)
    ensures Escaped(s[..0]) == []
  {
  }

  lemma EscapedNext(s: seq<Char>, i: nat)
    requires i < |s|
    ensures Escaped(s[..i + 1]) == Escaped(s[..i]) + EscapeChar(s[i])
  {
    assert s[..i + 1][..i] == s[..i];
  }

  /** dslink_str_unescape: the result fits the buffer of the input's size. */
  method StrUnescape(data: seq<Char>) returns (rslt: array<int>)
    ensures fresh(rslt) && rslt.Length == |data| + 1
    ensures var r := UnescapedFrom(data, 0); |r| < rslt.Length && rslt[..|r|] == r && rslt[|r|] == 0
  {
    hide DecodeBase16, ToChar, UnescapedFrom;
    rslt := new int[|data| + 1];
    var pt, i := 0, 0;
    ghost var done: seq<int> := [];
    while i < |data|
      invariant pt <= i <= |data| && rslt[..pt] == done
      invariant UnescapedFrom(data, 0) == done + UnescapedFrom(data, i)
      decreases |data| - i
    {
      UnescapeNext(data, i, done);
      if data[i] == PERCENT {
        var c1 := DecodeBase16(At(data, i + 1));
        if c1 > -1 {
          var c2 := DecodeBase16(At(data, i + 2));
          if c2 > -1 {
            rslt[pt] := ToChar(c1 * 16 + c2);
            done := done + [rslt[pt]];
            pt := pt + 1;
            i := i + 3;
            continue;
          }
        }
      }
      rslt[pt] := data[i];
      done := done + [rslt[pt]];
      pt := pt + 1;
      i := i + 1;
    }
    UnescapeEnd(data);
    rslt[pt] := 0;
  }

  lemma UnescapeNext(s: seq<Char>, i: nat, done: seq<int>)
    requires i < |s|
    ensures done + UnescapedFrom(s, i)
         == if IsEscape(s, i) then done + [ToChar(DecodeBase16(s[i + 1]) * 16 + DecodeBase16(s[i + 2]))] + UnescapedFrom(s, i + 3)
            else done + [s[i] as int] + UnescapedFrom(s, i + 1)
  {
  }

  lemma UnescapeStep(s: seq<Char>, i: nat)
    requires i < |s|
    ensures UnescapedFrom(s, i) == if IsEscape(s, i) then [ToChar(DecodeBase16(s[i + 1]) * 16 + DecodeBase16(s[i + 2]))] + UnescapedFrom(s, i + 3)
                                   else [s[i] as int] + UnescapedFrom(s, i + 1)
  {
  }

  lemma UnescapeEnd(s: seq<Char>)
    ensures UnescapedFrom(s, |s|) == []
  {
  }

  // ---------- what escaping promises ----------

  predicate SevenBit(s: seq<Char>) {
    forall i | 0 <= i < |s| :: s[i] > 0
  }

  // An escaped string has none of the special characters but '%': it can name a file.
  lemma {:induction false} EscapedIsPlain(s: seq<Char>)
    requires SevenBit(s)
    ensures forall i | 0 <= i < |Escaped(s)| :: FileChar(Escaped(s)[i])
  {
    if s != [] {
      var e := EscapeChar(s[|s| - 1]);
      EscapedIsPlain(s[..|s| - 1]);
      assert forall i | 0 <= i < |e| :: FileChar(e[i]);
    }
  }

  // '%', or a character that a file name may hold: none of the control characters, none up to
  // ',', and neither '/' nor ':' nor '='.
  predicate FileChar(c: Char) {
    c == '%' as int || (c > ',' as int && c != '/' as int && c != ':' as int && c != '=' as int)
  }

  const DIGITS := "0123456789ABCDEF"

  /** A character that a file name may hold stays as it is, and any other seven-bit one becomes
      '%' and its two digits. */
  lemma EscapeCharExact(c: Char)
    requires c > 0
    ensures EscapeChar(c) ==
            if FileChar(c) && c != '%' as int then [c] else ['%' as Char, DIGITS[c / 16] as Char, DIGITS[c % 16] as Char]
  {
    DigitIs(c / 16);
    DigitIs(c % 16);
  }

  lemma DigitIs(code: nat)
    requires code < 16
    ensures EncodeBase16(code) == DIGITS[code] as int
  {
    assert forall i | 0 <= i < 10 :: DIGITS[i] == ('0' as nat + i) as char;
    assert forall i | 10 <= i < 16 :: DIGITS[i] == ('A' as nat + i - 10) as char;
  }

  // Unescaping a string that starts with an escaped char.
  lemma UnescapeHead(c: Char, t: seq<Char>)
    ensures var r := UnescapedFrom(EscapeChar(c) + t, 0);
            if c > 0 then r == [c as int] + UnescapedFrom(EscapeChar(c) + t, |EscapeChar(c)|)
            else |r| == 3 + |UnescapedFrom(EscapeChar(c) + t, 3)|
  {
    var e := EscapeChar(c);
    var u := e + t;
    if c > 0 {
      assert Special(c) ==> IsEscape(u, 0) && HighNibble(c) * 16 + LowNibble(c) == c;
    } else {
      assert u[0] == PERCENT && u[1] == -1 && u[2] != PERCENT;
      assert UnescapedFrom(u, 2) == [u[2] as int] + UnescapedFrom(u, 3);
      assert UnescapedFrom(u, 1) == [u[1] as int] + UnescapedFrom(u, 2);
    }
  }

  lemma SameEscape(p: seq<Char>, t: seq<Char>, i: nat)
    requires i < |t|
    ensures (p + t)[|p| + i] == t[i] && (IsEscape(p + t, |p| + i) <==> IsEscape(t, i))
    ensures IsEscape(t, i) ==> i + 2 < |t| && (p + t)[|p| + (i + 1)] == t[i + 1] && (p + t)[|p| + (i + 2)] == t[i + 2]
  {
    assert At(p + t, |p| + i) == At(t, i) && At(p + t, |p| + (i + 1)) == At(t, i + 1) && At(p + t, |p| + (i + 2)) == At(t, i + 2);
  }

  // A suffix is unescaped the same wherever it stands.
  lemma {:induction false} UnescapeSuffix(p: seq<Char>, t: seq<Char>, i: nat)
    requires i <= |t|
    ensures UnescapedFrom(p + t, |p| + i) == UnescapedFrom(t, i)
    decreases |t| - i
  {
    hide DecodeBase16, IsEscape, ToChar, UnescapedFrom;
    if i < |t| {
      SameEscape(p, t, i);
      UnescapeStep(p + t, |p| + i);
      UnescapeStep(t, i);
      if IsEscape(t, i) {
        UnescapeSuffix(p, t, i + 3);
      } else {
        UnescapeSuffix(p, t, i + 1);
      }
    } else {
      UnescapeEnd(t);
      UnescapeEnd(p + t);
    }
  }

  lemma {:induction false} EscapedCons(c: Char, s: seq<Char>)
    ensures Escaped([c] + s) == EscapeChar(c) + Escaped(s)
  {
    hide EscapeChar;
    if s == [] {
      assert [c] + s == [c] && [c][..0] == [];
    } else {
      assert ([c] + s)[..|s|] == [c] + s[..|s| - 1];
      EscapedCons(c, s[..|s| - 1]);
    }
  }

  // Every char beyond seven bits comes back as three.
  function Wide(s: seq<Char>): nat {
    if s == [] then 0 else (if s[0] < 0 then 1 else 0) + Wide(s[1..])
  }

  lemma {:induction false} UnescapeEscaped(s: seq<Char>)
    ensures |UnescapedFrom(Escaped(s), 0)| == |s| + 2 * Wide(s)
    ensures SevenBit(s) ==> UnescapedFrom(Escaped(s), 0) == s
  {
    if s != [] {
      var c, t := s[0], s[1..];
      EscapedSplit(s);
      UnescapeEscaped(t);
      UnescapeHead(c, Escaped(t));
      UnescapeSuffix(EscapeChar(c), Escaped(t), 0);
      hide UnescapedFrom, Escaped, EscapeChar;
      if SevenBit(s) {
        assert c > 0 && SevenBit(t);
        ConsEqual(s, UnescapedFrom(Escaped(t), 0));
      }
    }
  }

  lemma EscapedSplit(s: seq<Char>)
    requires s != []
    ensures Escaped(s) == EscapeChar(s[0]) + Escaped(s[1..])
  {
    EscapedCons(s[0], s[1..]);
    assert s == [s[0]] + s[1..];
  }

  lemma ConsEqual(s: seq<Char>, r: seq<int>)
    requires s != [] && r == s[1..]
    ensures [s[0] as int] + r == s
  {
  }

  lemma {:induction false} NoneWide(s: seq<Char>)
    ensures Wide(s) == 0 <==> SevenBit(s)
  {
    if s != [] {
      NoneWide(s[1..]);
      assert SevenBit(s) <==> s[0] > 0 && SevenBit(s[1..]) by {
        assert forall i | 0 < i < |s| :: s[i] == s[1..][i - 1];
      }
    }
  }

  /** Escaping is undone exactly for strings of seven-bit characters. */
  lemma RoundTrip(s: seq<Char>)
    ensures UnescapedFrom(Escaped(s), 0) == s <==> SevenBit(s)
  {
    UnescapeEscaped(s);
    NoneWide(s);
  }

  // ---------- what unescaping reads ----------

  // Digits of both cases, and nothing else.
  lemma DecodeExact(c: Char)
    ensures DecodeBase16(c) ==
            if '0' as int <= c <= '9' as int then c - '0' as int
            else if 'a' as int <= c <= 'f' as int then 10 + (c - 'a' as int)
            else if 'A' as int <= c <= 'F' as int then 10 + (c - 'A' as int)
            else -1
  {
  }

  /** What is not '%' and two digits stays as it is: so does a whole string without '%'. */
  lemma {:induction false} PlainStays(s: seq<Char>, i: nat)
    requires i <= |s| && forall j | i <= j < |s| :: s[j] == '%' as int ==> !IsEscape(s, j)
    ensures UnescapedFrom(s, i) == s[i..]
    decreases |s| - i
  {
    hide DecodeBase16, IsEscape, ToChar, UnescapedFrom;
    if i == |s| {
      UnescapeEnd(s);
    } else {
      NotPercent(s, i);
      UnescapeStep(s, i);
      PlainStays(s, i + 1);
      assert s[i..] == [s[i]] + s[i + 1..];
    }
  }

  lemma NotPercent(s: seq<Char>, i: nat)
    requires i < |s|
    ensures s[i] != '%' as int ==> !IsEscape(s, i)
  {
  }
}
