/** Parsing addresses (sdk/src/url.c). The parser is one loop with a state, an 8-bit length and
    a moving start. `Parsed` tells by splitting the address what it computes, and for which
    addresses it never ends; `Turn` is one turn of the loop. Strings hold no zero. */
module Url {
  import opened Common

  type Port = p: nat | p < 0x1_0000

  // A host is missing when an IPv6 bracket is never closed.
  datatype Address = Address(scheme: string, host: Option<string>, port: Port, uri: string, secure: bool)

  const NUL := '\0'

  predicate IsText(s: string) {
    NUL !in s
  }

  function At(s: string, i: nat): char {
    if i < |s| then s[i] else NUL
  }

  // ---------- what is parsed ----------

  // The first place from i on that holds one of the characters, or the end.
  function Find(s: string, i: nat, chars: string): (r: nat)
    requires i <= |s|
    ensures i <= r <= |s|
    ensures r < |s| ==> s[r] in chars
    ensures forall j | i <= j < r :: s[j] !in chars
    decreases |s| - i
  {
    if i == |s| || s[i] in chars then i else Find(s, i + 1, chars)
  }

  function SkipSlashes(s: string, i: nat): (r: nat)
    requires i <= |s|
    ensures i <= r <= |s|
    ensures r < |s| ==> s[r] != '/'
    ensures forall j | i <= j < r :: s[j] == '/'
    decreases |s| - i
  {
    if i < |s| && s[i] == '/' then SkipSlashes(s, i + 1) else i
  }

  // dslink_url_handle_scheme; other schemes leave the zero of the allocation.
  function DefaultPort(scheme: string): Port {
    if scheme == "http" then 80 else if scheme == "https" then 443 else 0
  }

  predicate IsSecure(scheme: string) {
    scheme == "https"
  }

  predicate IsDigit(c: char) {
    '0' <= c <= '9'
  }

  function Digits(s: string): (n: nat)
    ensures n <= |s| && forall i | 0 <= i < n :: IsDigit(s[i])
    ensures n < |s| ==> !IsDigit(s[n])
  {
    if s == "" || !IsDigit(s[0]) then 0 else 1 + Digits(s[1..])
  }

  function Number(s: string): nat {
    if s == "" then 0
    else Number(s[..|s| - 1]) * 10 + (if IsDigit(s[|s| - 1]) then s[|s| - 1] as nat - '0' as nat else 0)
  }

  predicate IsSpace(c: char) {
    c == ' ' || '\t' <= c <= '\r'
  }

  function TrimLeft(s: string): string {
    if s != "" && IsSpace(s[0]) then TrimLeft(s[1..]) else s
  }

  const LONG_MAX: nat := 0x7FFF_FFFF_FFFF_FFFF

  // strtol in base 10, and the conversion to unsigned short.
  function ParsePort(s: string): Port {
    var t := TrimLeft(s);
    var negative := t != "" && t[0] == '-';
    var u := if t != "" && (t[0] == '-' || t[0] == '+') then t[1..] else t;
    var n := Number(u[..Digits(u)]);
    if negative then (0 - Min(n, LONG_MAX + 1)) % 0x1_0000 else Min(n, LONG_MAX) % 0x1_0000
  }

  // ---------- what is parsed, as far as an 8-bit length sees ----------

  // The parser ends with an address or without one; or it reads behind the address; or its
  // length wraps and it never ends.
  datatype Outcome = Result(url: Option<Address>) | Overread | Diverges

  // A length of 256 wraps to 0, which reads like nothing at all.
  function UriOf(t: string): (uri: string)
    ensures uri != "" && (t == "" || t[0] == '/' ==> uri[0] == '/')
  {
    if t == "" || |t| == 255 then "/" else t
  }

  function FromUri(scheme: string, host: Option<string>, port: Port, t: string): Outcome {
    if |t| > 255 then Diverges else Result(Some(Address(scheme, host, port, UriOf(t), IsSecure(scheme))))
  }

  // Behind the colon of a port. A port that no slash follows is not read.
  function FromPort(scheme: string, host: string, t: string): Outcome {
    var k := Find(t, 0, "/");
    if k > 255 then Diverges
    else if k == |t| then Result(Some(Address(scheme, Some(host), DefaultPort(scheme), "/", IsSecure(scheme))))
    else FromUri(scheme, Some(host), ParsePort(t[..k]), t[k..])
  }

  function FromHost(scheme: string, t: string): Outcome {
    var k := Find(t, 0, ":/");
    if k > 255 then Diverges
    else if k == |t| then
      Result(if k == 0 || k == 255 then None else Some(Address(scheme, Some(t), DefaultPort(scheme), "/", IsSecure(scheme))))
    else if t[k] == ':' then FromPort(scheme, t[..k], t[k + 1..])
    else FromUri(scheme, Some(t[..k]), DefaultPort(scheme), t[k..])
  }

  function FromBracket(scheme: string, t: string): Outcome
    requires t != "" && t[0] == '['
  {
    var k := Find(t, 0, "]");
    if k > 255 then Diverges
    else if k == |t| then FromUri(scheme, None, 0, t)
    else if At(t, k + 1) == ':' then FromPort(scheme, t[1..k], t[k + 2..])
    else FromUri(scheme, Some(t[1..k]), DefaultPort(scheme), t[k + 1..])
  }

  function FromStart(scheme: string, t: string): Outcome {
    if At(t, 0) == '[' then FromBracket(scheme, t) else FromHost(scheme, t)
  }

  // Where the host starts, n being the place of the scheme's colon: behind the slashes. When
  // these reach the end of what the length can count, the search goes on at the front.
  function HostStart(s: string, n: nat): (a: nat)
    ensures a <= |s|
  {
    if n + 1 <= |s| && SkipSlashes(s, n + 1) <= 255 then SkipSlashes(s, n + 1) else SkipSlashes(s, 0)
  }

  function FromScheme(s: string): Outcome {
    var i := Find(s, 0, ":");
    if i > 255 then Diverges
    else if i == |s| then Result(None)
    else FromStart(s[..i], s[HostStart(s, i)..])
  }

  /** What dslink_url_parse makes of an address. A colon in front sets the length back below
      zero, so that 255 characters are taken for the scheme. */
  function Parsed(s: string): Outcome {
    if s == "" then Result(None)
    else if s[0] == ':' then (if |s| < 254 then Overread else FromHost(Copy(s, 0, 255), s))
    else FromScheme(s)
  }

  // ---------- the loop ----------

  // The length wraps at eight bits.
  function Inc(len: nat): (r: nat)
    ensures r <= 255
  {
    if len >= 255 then 0 else len + 1
  }

  function Dec(len: nat): (r: nat) {
    if len == 0 then 255 else len - 1
  }

  // The string that a copy of n bytes holds.
  function Copy(s: string, from: nat, n: nat): string {
    s[Min(from, |s|)..Min(from + n, |s|)]
  }

  datatype Machine = Machine(state: nat, addr: nat, len: nat, c: char, scheme: string, host: Option<string>, port: Port, secure: bool)

  function Start(s: string): Machine {
    Machine(0, 0, 0, At(s, 0), "", None, 0, false)
  }

  // The end of a turn.
  function Next(s: string, m: Machine, len: nat): Machine {
    m.(c := At(s, m.addr + len), len := Inc(len))
  }

  // One turn of the loop.
  function Turn(s: string, m: Machine): Machine {
    var n := Dec(m.len);
    if m.c == ':' && m.state == 0 then
      var scheme := Copy(s, m.addr, n);
      var a := HostStart(s, n);
      Next(s, m.(state := if At(s, a) == '[' then 3 else 1, addr := a, scheme := scheme, secure := IsSecure(scheme)), 0)
    else if m.c == ':' && m.state == 1 then
      Next(s, m.(host := Some(Copy(s, m.addr, n)), state := 2, addr := m.addr + 1 + n), 0)
    else if m.c == '/' && m.state == 1 then
      Next(s, m.(host := Some(Copy(s, m.addr, n)), port := DefaultPort(m.scheme), state := 4, addr := m.addr + n), 0)
    else if m.c == '/' && m.state == 2 then
      Next(s, m.(port := ParsePort(Copy(s, m.addr, n)), state := 4, addr := m.addr + n), 0)
    else if m.c == ']' && m.state == 3 then
      var h := m.(host := Some(Copy(s, m.addr + 1, Dec(n))));
      if At(s, m.addr + 2 + Dec(n)) == ':' then Next(s, h.(state := 2, addr := m.addr + 3 + Dec(n)), 0)
      else Next(s, h.(port := DefaultPort(m.scheme), state := 4, addr := m.addr + 2 + Dec(n)), 0)
    else Next(s, m, m.len)
  }

  // Behind the loop.
  function Answer(s: string, m: Machine): Option<Address> {
    if m.state == 0 || (m.state == 1 && m.len <= 1) then None
    else if m.state == 1 then Some(Address(m.scheme, Some(Copy(s, m.addr, m.len)), DefaultPort(m.scheme), "/", m.secure))
    else if m.state == 2 then Some(Address(m.scheme, m.host, DefaultPort(m.scheme), "/", m.secure))
    else Some(Address(m.scheme, m.host, m.port, if m.len <= 1 then "/" else Copy(s, m.addr, m.len), m.secure))
  }

  // The machine after n turns; it stops at the zero behind the address.
  function Turns(s: string, n: nat): Machine {
    if n == 0 then Start(s)
    else
      var m := Turns(s, n - 1);
      if m.c == NUL then m else Turn(s, m)
  }

  // ---------- what a turn keeps ----------

  lemma {:induction false} FindIs(s: string, i: nat, chars: string, k: nat)
    requires i <= k <= |s| && (forall j | i <= j < k :: s[j] !in chars) && (k < |s| ==> s[k] in chars)
    ensures Find(s, i, chars) == k
    decreases k - i
  {
    if i < k {
      FindIs(s, i + 1, chars, k);
    }
  }

  lemma OneOf(c: char)
    ensures c in ":/" <==> c == ':' || c == '/'
    ensures c in ":" <==> c == ':'
    ensures c in "/" <==> c == '/'
    ensures c in "]" <==> c == ']'
  {
    assert ":/"[0] == ':' && ":/"[1] == '/' && ":"[0] == ':' && "/"[0] == '/' && "]"[0] == ']';
  }

  // The first n characters of a part have been passed.
  predicate Passed(t: string, n: nat, chars: string) {
    n <= |t| && forall j | 0 <= j < n :: t[j] !in chars
  }

  // The characters that end the part of a state.
  function Ends(state: nat): string {
    if state == 0 then ":" else if state == 1 then ":/" else if state == 2 then "/" else if state == 3 then "]" else ""
  }

  // What the part at the start of the state's text makes of the address.
  function Expected(s: string, m: Machine): Outcome
    requires m.addr <= |s|
  {
    var t := s[m.addr..];
    if m.state == 0 then FromScheme(s)
    else if m.state == 1 then FromHost(m.scheme, t)
    else if m.state == 2 then (if m.host.Some? then FromPort(m.scheme, m.host.value, t) else Diverges)
    else if m.state == 3 then (if At(t, 0) == '[' then FromBracket(m.scheme, t) else Diverges)
    else FromUri(m.scheme, m.host, m.port, t)
  }

  ghost predicate Fields(m: Machine) {
    && m.state <= 4 && m.len <= 255
    && (m.state == 0 ==> m.addr == 0)
    && (m.state != 0 ==> m.secure == IsSecure(m.scheme))
    && (m.state == 2 ==> m.host.Some?)
    && (m.state == 0 || m.state == 3 ==> m.host == None && m.port == 0)
  }

  /** What the loop keeps from its second turn on: the part from the start on has been read up
      to the cursor without meeting its end, as far as the length has counted since it last
      wrapped, and what is left will make the address. */
  ghost predicate Reading(s: string, m: Machine) {
    var n := Dec(m.len);
    && Fields(m) && m.addr <= |s| && m.addr + n <= |s| && m.c == At(s, m.addr + n)
    && Passed(s[m.addr..], n, Ends(m.state))
    && (m.state == 0 ==> s != "" && s[0] != ':')
    && (m.state == 3 ==> At(s, m.addr) == '[')
    && Parsed(s) == Expected(s, m)
  }

  // Where a part ends.
  lemma EndsAt(t: string, n: nat, chars: string)
    requires Passed(t, n, chars) && (n < |t| ==> t[n] in chars)
    ensures Find(t, 0, chars) == n
  {
    FindIs(t, 0, chars, n);
  }

  // A character that ends nothing is passed, and the length may wrap.
  lemma Advance(s: string, m: Machine)
    requires IsText(s) && Reading(s, m) && m.c != NUL && m.c !in Ends(m.state)
    ensures Reading(s, Next(s, m, m.len))
    ensures Parsed(s).Result? ==> Dec(m.len) < 255
  {
    hide FromScheme, FromHost, FromUri, FromPort, FromBracket, IsSecure, Parsed, Ends;
    PassOne(s[m.addr..], Dec(m.len), Ends(m.state), m.c);
    if Dec(m.len) == 255 {
      Wraps(s, m);
    }
  }

  lemma PassOne(t: string, n: nat, chars: string, c: char)
    requires Passed(t, n, chars) && c == At(t, n) && c != NUL && c !in chars
    ensures n < |t| && Passed(t, n + 1, chars) && Passed(t, 0, chars)
  {
  }

  // Nothing in 256 characters ends the part.
  lemma Wraps(s: string, m: Machine)
    requires Reading(s, m) && Dec(m.len) == 255 && m.c != NUL && m.c !in Ends(m.state)
    ensures Parsed(s) == Diverges
  {
    var t := s[m.addr..];
    assert t[255] == m.c;
    hide Parsed, FromStart;
    FindBeyond(t, 255, Ends(m.state));
    assert m.state == 0 ==> t == s;
  }

  lemma FindBeyond(t: string, n: nat, chars: string)
    requires Passed(t, n, chars) && n < |t| && t[n] !in chars
    ensures Find(t, 0, chars) > n
  {
  }

  lemma Slices(s: string, a: nat, n: nat)
    requires a + n <= |s|
    ensures Copy(s, a, n) == s[a..][..n] && s[a..][n..] == s[a + n..]
    ensures At(s[a..], n) == At(s, a + n) && (a + n < |s| ==> s[a..][n] == s[a + n] && s[a..][n + 1..] == s[a + n + 1..])
  {
  }

  // The next part starts with nothing passed.
  lemma NextPart(s: string, m: Machine)
    requires Fields(m) && m.state != 0 && m.addr <= |s| && (m.state == 3 ==> At(s, m.addr) == '[')
    requires Parsed(s) == Expected(s, m)
    ensures Reading(s, Next(s, m, 0))
  {
    hide FromHost, FromUri, FromPort, FromBracket, IsSecure, Parsed, Ends;
  }

  lemma SchemeEnds(s: string, m: Machine)
    requires Reading(s, m) && m.c == ':' && m.state == 0
    ensures Reading(s, Turn(s, m))
  {
    hide Find, FromHost, FromBracket, FromUri, FromPort, Copy, HostStart, SkipSlashes, IsSecure, Reading;
    var n := Dec(m.len);
    SchemeSplit(s, m);
    var a := HostStart(s, n);
    Slices(s, a, 0);
    NextPart(s, m.(state := if At(s, a) == '[' then 3 else 1, addr := a, scheme := Copy(s, 0, n), secure := IsSecure(Copy(s, 0, n))));
  }

  lemma SchemeSplit(s: string, m: Machine)
    requires Reading(s, m) && m.c == ':' && m.state == 0
    ensures Fields(m) && m.host == None && m.port == 0
    ensures Parsed(s) == FromStart(Copy(s, 0, Dec(m.len)), s[HostStart(s, Dec(m.len))..])
  {
    var n := Dec(m.len);
    OneOf(':');
    assert s[0..] == s;
    EndsAt(s, n, ":");
    Slices(s, 0, n);
    hide Find, FromStart, HostStart, IsSecure, Copy;
  }

  lemma HostEnds(s: string, m: Machine)
    requires Reading(s, m) && (m.c == ':' || m.c == '/') && m.state == 1
    ensures Reading(s, Turn(s, m))
  {
    hide Find, FromHost, FromPort, FromUri, FromBracket, Parsed, Copy, DefaultPort, IsSecure, Ends, Passed;
    var t, n := s[m.addr..], Dec(m.len);
    Slices(s, m.addr, n);
    HostSplit(m.scheme, t, n);
    var h := m.(host := Some(Copy(s, m.addr, n)));
    if m.c == ':' {
      NextPart(s, h.(state := 2, addr := m.addr + 1 + n));
    } else {
      NextPart(s, h.(port := DefaultPort(m.scheme), state := 4, addr := m.addr + n));
    }
  }

  // The host is followed by a port or by the path.
  lemma HostSplit(scheme: string, t: string, n: nat)
    requires n <= 255 && n < |t| && Passed(t, n, Ends(1)) && (t[n] == ':' || t[n] == '/')
    ensures FromHost(scheme, t) == if t[n] == ':' then FromPort(scheme, t[..n], t[n + 1..])
                                   else FromUri(scheme, Some(t[..n]), DefaultPort(scheme), t[n..])
  {
    OneOf(t[n]);
    EndsAt(t, n, ":/");
    hide Find, FromPort, FromUri;
  }

  lemma PortEnds(s: string, m: Machine)
    requires Reading(s, m) && m.c == '/' && m.state == 2
    ensures Reading(s, Turn(s, m))
  {
    hide Find, FromHost, FromPort, FromUri, FromBracket, Parsed, Copy, DefaultPort, IsSecure, ParsePort, Ends, Passed;
    var t, n := s[m.addr..], Dec(m.len);
    Slices(s, m.addr, n);
    PortSplit(m.scheme, m.host.value, t, n);
    NextPart(s, m.(port := ParsePort(Copy(s, m.addr, n)), state := 4, addr := m.addr + n));
  }

  lemma PortSplit(scheme: string, host: string, t: string, n: nat)
    requires n <= 255 && n < |t| && Passed(t, n, Ends(2)) && t[n] == '/'
    ensures FromPort(scheme, host, t) == FromUri(scheme, Some(host), ParsePort(t[..n]), t[n..])
  {
    OneOf(t[n]);
    EndsAt(t, n, "/");
    hide Find, ParsePort, FromUri;
  }

  lemma BracketBehind(s: string, m: Machine)
    requires Reading(s, m) && m.c == ']' && m.state == 3
    ensures var t, n := s[m.addr..], Dec(m.len);
            0 < n < |t| && t[0] == '[' && t[n] == ']' && Passed(t, n, Ends(3)) && Expected(s, m) == FromBracket(m.scheme, t)
  {
    hide FromBracket, Parsed, Passed, Ends, IsSecure;
  }

  lemma BracketEnds(s: string, m: Machine)
    requires Reading(s, m) && m.c == ']' && m.state == 3
    ensures Reading(s, Turn(s, m))
    ensures Dec(m.len) > 0
  {
    hide Find, FromHost, FromPort, FromUri, FromBracket, Parsed, Copy, DefaultPort, IsSecure, Ends, Passed;
    var t, n := s[m.addr..], Dec(m.len);
    BracketBehind(s, m);
    BracketSlices(s, m.addr, n);
    BracketSplit(m.scheme, t, n);
    var h := m.(host := Some(Copy(s, m.addr + 1, n - 1)));
    if At(s, m.addr + n + 1) == ':' {
      NextPart(s, h.(state := 2, addr := m.addr + n + 2));
    } else {
      NextPart(s, h.(port := DefaultPort(m.scheme), state := 4, addr := m.addr + n + 1));
    }
  }

  lemma BracketSplit(scheme: string, t: string, n: nat)
    requires 0 < n <= 255 && n < |t| && Passed(t, n, Ends(3)) && t[0] == '[' && t[n] == ']'
    ensures FromBracket(scheme, t) == if At(t, n + 1) == ':' then FromPort(scheme, t[1..n], t[n + 2..])
                                      else FromUri(scheme, Some(t[1..n]), DefaultPort(scheme), t[n + 1..])
  {
    OneOf(t[n]);
    EndsAt(t, n, "]");
    hide Find, FromPort, FromUri;
  }

  lemma BracketSlices(s: string, a: nat, n: nat)
    requires 0 < n && a + n < |s|
    ensures Copy(s, a + 1, n - 1) == s[a..][1..n] && At(s[a..], n + 1) == At(s, a + n + 1)
    ensures s[a..][n + 1..] == s[a + n + 1..]
    ensures At(s, a + n + 1) == ':' ==> a + n + 2 <= |s| && s[a..][n + 2..] == s[a + n + 2..]
  {
  }

  // How far a machine that ends has to go.
  function Left(m: Machine): (n: nat) {
    (if m.state == 0 then 4 else if m.state == 1 || m.state == 3 then 3 else if m.state == 2 then 2 else if m.state == 4 then 1 else 0) * 256
    + (if Dec(m.len) <= 255 then 255 - Dec(m.len) else 0)
  }

  lemma EndsOf(m: Machine)
    requires m.state <= 4
    ensures m.c in Ends(m.state) <==>
            (m.c == ':' && m.state == 0) || ((m.c == ':' || m.c == '/') && m.state == 1) || (m.c == '/' && m.state == 2) || (m.c == ']' && m.state == 3)
  {
    OneOf(m.c);
  }

  /** A turn keeps what the address will make; and when it will make anything, a turn comes
      nearer to it. */
  lemma TurnKeeps(s: string, m: Machine)
    requires IsText(s) && Reading(s, m) && m.c != NUL
    ensures Reading(s, Turn(s, m))
    ensures Parsed(s).Result? ==> Left(Turn(s, m)) < Left(m)
  {
    hide Parsed, Expected, Passed, Ends, Copy, HostStart, DefaultPort, IsSecure, ParsePort;
    EndsOf(m);
    if m.c == ':' && m.state == 0 {
      SchemeEnds(s, m);
    } else if (m.c == ':' || m.c == '/') && m.state == 1 {
      HostEnds(s, m);
    } else if m.c == '/' && m.state == 2 {
      PortEnds(s, m);
    } else if m.c == ']' && m.state == 3 {
      BracketEnds(s, m);
    } else {
      Advance(s, m);
    }
  }

  // A text that was read to its end has nothing that ends its part.
  lemma ReadToEnd(s: string, m: Machine)
    requires IsText(s) && Reading(s, m) && m.c == NUL
    ensures m.addr + Dec(m.len) == |s|
    ensures m.state < 4 ==> Find(s[m.addr..], 0, Ends(m.state)) == |s| - m.addr
  {
    var t, n := s[m.addr..], Dec(m.len);
    assert forall i | 0 <= i < |s| :: s[i] in s;
    EndsAt(t, |t|, Ends(m.state));
  }

  lemma AnswerIsParsed(s: string, m: Machine)
    requires IsText(s) && Reading(s, m) && m.c == NUL
    ensures Parsed(s) == Result(Answer(s, m))
  {
    ReadToEnd(s, m);
    assert Copy(s, m.addr, m.len) == if m.len == 0 then "" else s[m.addr..];
    assert m.state == 0 ==> s[m.addr..] == s;
    hide Parsed, Find, Copy, IsSecure, DefaultPort;
  }

  // The first turn: a colon in front is the end of a scheme of 255 characters, every other
  // character is read again.
  lemma FirstTurn(s: string)
    requires s != "" && !Parsed(s).Overread?
    ensures Reading(s, Turn(s, Start(s)))
  {
    hide FromHost, FromScheme, IsSecure, Copy;
    assert s[0..] == s;
    if s[0] == ':' {
      assert SkipSlashes(s, 0) == 0;
    }
  }

  // ---------- the machine ----------

  lemma {:induction false} TurnsRead(s: string, n: nat)
    requires IsText(s) && s != "" && !Parsed(s).Overread? && n > 0
    ensures Reading(s, Turns(s, n))
  {
    hide Turn, Reading, Parsed, Start;
    if n == 1 {
      FirstTurn(s);
      StartReads(s);
    } else {
      TurnsRead(s, n - 1);
      if Turns(s, n - 1).c != NUL {
        TurnKeeps(s, Turns(s, n - 1));
      }
    }
  }

  lemma StartReads(s: string)
    requires IsText(s) && s != ""
    ensures Start(s).c != NUL && Turns(s, 0) == Start(s)
  {
    assert s[0] in s;
  }

  lemma {:induction false} Approach(s: string, n: nat) returns (k: nat)
    requires IsText(s) && s != "" && Parsed(s).Result? && n > 0
    ensures k >= n && Turns(s, k).c == NUL
    decreases Left(Turns(s, n))
  {
    hide Turn, Reading, Parsed, Left;
    TurnsRead(s, n);
    k := n;
    if Turns(s, n).c != NUL {
      TurnKeeps(s, Turns(s, n));
      assert Turns(s, n + 1) == Turn(s, Turns(s, n));
      k := Approach(s, n + 1);
    }
  }

  /** The loop ends with what `Parsed` tells, and it never ends where `Parsed` says so. */
  lemma MachineExact(s: string)
    requires IsText(s) && !Parsed(s).Overread?
    ensures Parsed(s).Result? <==> exists n :: Turns(s, n).c == NUL
    ensures forall n | Turns(s, n).c == NUL :: Parsed(s) == Result(Answer(s, Turns(s, n)))
  {
    hide Turn, Turns, Parsed, Reading, Answer;
    if s == "" {
      NothingToParse(s);
      assert Turns(s, 0).c == NUL;
      assert exists n :: Turns(s, n).c == NUL;
    } else {
      if Parsed(s).Result? {
        var k := Approach(s, 1);
      }
      forall n | Turns(s, n).c == NUL ensures Parsed(s) == Result(Answer(s, Turns(s, n))) {
        StartReads(s);
        if n > 0 {
          TurnsRead(s, n);
          AnswerIsParsed(s, Turns(s, n));
        }
      }
    }
  }

  lemma NothingToParse(s: string)
    requires s == ""
    ensures Parsed(s) == Result(None)
    ensures forall n :: Turns(s, n).c == NUL && Answer(s, Turns(s, n)) == None
  {
    forall n ensures Turns(s, n) == Start(s) {
      NoTurns(s, n);
    }
  }

  lemma {:induction false} NoTurns(s: string, n: nat)
    requires s == ""
    ensures Turns(s, n) == Start(s)
  {
    hide Turn;
    if n > 0 {
      NoTurns(s, n - 1);
    }
  }

  // ---------- the parser ----------

  // URL_ADDRESS_SUBSTRING_COPY; the zero behind the address may be read, nothing behind it.
  method Substring(s: string, addr: nat, len: nat) returns (r: string)
    requires IsText(s) && addr <= |s| && addr + len <= |s| + 1
    ensures r == Copy(s, addr, len)
  {
    r := "";
    var i := 0;
    while i < len && At(s, addr + i) != NUL
      invariant i <= len && addr + i <= |s| && r == s[addr..addr + i]
    {
      r := r + [At(s, addr + i)];
      i := i + 1;
    }
  }

  // The colon of the scheme: where the length says, or in front of the address.
  ghost predicate AtColon(s: string, m: Machine) {
    && m.state == 0 && m.c == ':' && m.addr == 0 && m.len <= 255
    && (At(s, Dec(m.len)) == ':' || (m.len == 0 && At(s, 0) == ':' && |s| >= 254))
  }

  // The scheme, and the slashes behind it.
  method TakeScheme(s: string, ghost m: Machine, l: nat) returns (scheme: string, addr: nat, state: nat)
    requires IsText(s) && AtColon(s, m) && m.len == l
    ensures Next(s, m.(state := state, addr := addr, scheme := scheme, secure := IsSecure(scheme)), 0) == Turn(s, m)
  {
    hide IsSecure, Copy;
    var len: nat := Dec(l);
    scheme := Substring(s, 0, len);
    ghost var n := len;
    len := Inc(len);
    var c := At(s, len);
    while c == '/'
      invariant len <= 255 && c == At(s, len) && len <= |s|
      invariant if len > n then SkipSlashes(s, len) == SkipSlashes(s, n + 1)
                else SkipSlashes(s, len) == SkipSlashes(s, 0) && (n + 1 <= |s| ==> SkipSlashes(s, n + 1) > 255)
      decreases if len > n then 512 - len else n - len
    {
      len := Inc(len);
      c := At(s, len);
    }
    state := if c == '[' then 3 else 1;
    addr := len;
  }

  // The end of the host.
  method TakeHost(s: string, ghost m: Machine, colon: bool, start: nat, l: nat, scheme: string, oldPort: Port)
      returns (host: Option<string>, port: Port, addr: nat, state: nat)
    requires IsText(s) && m.state == 1 && m.c == (if colon then ':' else '/') && m.addr == start && m.len == l && m.scheme == scheme && m.port == oldPort
    requires start + Dec(l) <= |s|
    ensures Next(s, m.(state := state, addr := addr, host := host, port := port), 0) == Turn(s, m)
  {
    hide Copy, DefaultPort;
    addr, port := start, oldPort;
    var len := Dec(l);
    var h := Substring(s, addr, len);
    host := Some(h);
    if colon {
      state := 2;
      addr := addr + 1;
    } else {
      port := DefaultPort(scheme);
      state := 4;
    }
    addr := addr + len;
  }

  // The end of the port.
  method TakePort(s: string, ghost m: Machine, start: nat, l: nat) returns (port: Port, addr: nat)
    requires IsText(s) && m.state == 2 && m.c == '/' && m.addr == start && m.len == l && start + Dec(l) <= |s|
    ensures Next(s, m.(state := 4, addr := addr, port := port), 0) == Turn(s, m)
  {
    hide Copy, ParsePort;
    var len := Dec(l);
    var num := Substring(s, start, len);
    port := ParsePort(num);
    addr := start + len;
  }

  // The end of a host in brackets.
  method TakeBracket(s: string, ghost m: Machine, start: nat, l: nat, scheme: string, oldPort: Port)
      returns (host: Option<string>, port: Port, addr: nat, state: nat)
    requires IsText(s) && m.state == 3 && m.c == ']' && m.addr == start && m.len == l && m.scheme == scheme && m.port == oldPort
    requires start + Dec(l) <= |s| && Dec(l) > 0
    ensures Next(s, m.(state := state, addr := addr, host := host, port := port), 0) == Turn(s, m)
  {
    hide Copy, DefaultPort;
    addr, port := start, oldPort;
    var len := Dec(Dec(l));
    addr := addr + 1;
    var h := Substring(s, addr, len);
    host := Some(h);
    addr := addr + 1;
    if At(s, addr + len) == ':' {
      state := 2;
      addr := addr + 1;
    } else {
      port := DefaultPort(scheme);
      state := 4;
    }
    addr := addr + len;
  }

  // What a turn finds, and that it comes nearer to the end.
  lemma TurnDefined(s: string, m: Machine)
    requires IsText(s) && Parsed(s).Result? && (m == Start(s) || Reading(s, m)) && m.c != NUL
    ensures m.c == ':' && m.state == 0 ==> AtColon(s, m)
    ensures m.state != 0 ==> m.addr + Dec(m.len) <= |s|
    ensures m.c == ']' && m.state == 3 ==> Dec(m.len) > 0
    ensures Reading(s, Turn(s, m)) && (Reading(s, m) ==> Left(Turn(s, m)) < Left(m))
  {
    hide FromScheme, FromHost, FromBracket, FromUri, FromPort, Passed, HostStart, Copy, ParsePort, IsSecure, DefaultPort;
    if !Reading(s, m) {
      FirstTurn(s);
    } else {
      TurnKeeps(s, m);
      if m.c == ']' && m.state == 3 {
        BracketBehind(s, m);
      }
    }
  }

  // Behind the loop.
  method Finish(s: string, ghost m: Machine, state: nat, addr: nat, len: nat, scheme: string, host: Option<string>, port: Port, secure: bool)
      returns (url: Option<Address>)
    requires IsText(s) && m == Machine(state, addr, len, m.c, scheme, host, port, secure) && addr <= |s| && addr + len <= |s| + 1
    ensures url == Answer(s, m)
  {
    hide Copy, DefaultPort;
    if state == 0 {
      return None;
    } else if state == 1 {
      if len <= 1 { return None; }
      var h := Substring(s, addr, len);
      url := Some(Address(scheme, Some(h), DefaultPort(scheme), "/", secure));
    } else if state == 2 {
      url := Some(Address(scheme, host, DefaultPort(scheme), "/", secure));
    } else {
      var uri := "/";
      if len > 1 {
        uri := Substring(s, addr, len);
      }
      url := Some(Address(scheme, host, port, uri, secure));
    }
  }

  lemma FirstIsNul(s: string)
    requires IsText(s) && At(s, 0) == NUL
    ensures s == ""
  {
    assert forall i | 0 <= i < |s| :: s[i] in s;
  }

  // What stands behind the address.
  lemma Stopped(s: string, m: Machine)
    requires IsText(s) && (m == Start(s) || Reading(s, m)) && m.c == NUL
    ensures m.addr <= |s| && m.addr + m.len <= |s| + 1 && Parsed(s) == Result(Answer(s, m))
  {
    hide Expected, Copy, Passed, DefaultPort, Answer;
    if m == Start(s) {
      FirstIsNul(s);
      NothingToParse(s);
      assert Answer(s, Turns(s, 0)) == None && Turns(s, 0) == m;
    } else {
      AnswerIsParsed(s, m);
    }
  }

  /** dslink_url_parse, wherever it ends without reading behind the address. */
  method Parse(s: string) returns (url: Option<Address>)
    requires IsText(s) && Parsed(s).Result?
    ensures Parsed(s) == Result(url)
  {
    hide Parsed, Reading, DefaultPort, IsSecure, ParsePort, Copy, Left, Dec, AtColon;
    var state: nat, addr: nat, len: nat, c := 0, 0, 0, At(s, 0);
    var scheme, host, port: Port, secure := "", None, 0, false;
    ghost var m, first := Start(s), true;
    while c != NUL
      invariant m == Machine(state, addr, len, c, scheme, host, port, secure)
      invariant if first then m == Start(s) else Reading(s, m)
      decreases first, Left(m)
    {
      TurnDefined(s, m);
      ghost var next := Turn(s, m);
      if c == ':' && state == 0 {
        scheme, addr, state := TakeScheme(s, m, len);
        secure := IsSecure(scheme);
        len := 0;
      } else if (c == ':' || c == '/') && state == 1 {
        host, port, addr, state := TakeHost(s, m, c == ':', addr, len, scheme, port);
        len := 0;
      } else if c == '/' && state == 2 {
        port, addr := TakePort(s, m, addr, len);
        state := 4;
        len := 0;
      } else if c == ']' && state == 3 {
        host, port, addr, state := TakeBracket(s, m, addr, len, scheme, port);
        len := 0;
      }
      c := At(s, addr + len);
      len := Inc(len);
      assert next == Machine(state, addr, len, c, scheme, host, port, secure);
      m, first := next, false;
    }
    Stopped(s, m);
    url := Finish(s, m, state, addr, len, scheme, host, port, secure);
  }
}
