/** Printing addresses (sdk/src/url.c), and exactly which addresses come back when they are
    printed and parsed. */
module UrlRoundTrip {
  import opened Common
  import opened Url

  // ---------- printing ----------

  function Decimal(n: nat): (s: string)
    ensures s != ""
  {
    if n < 10 then [('0' as nat + n) as char] else Decimal(n / 10) + [('0' as nat + n % 10) as char]
  }

  // dslink_url_convert_string
  function Printed(u: Address): string {
    if u.host == None then "" else u.scheme + ("://" + (u.host.value + (":" + (Decimal(u.port) + u.uri))))
  }

  lemma {:induction false} DecimalNumber(n: nat)
    ensures Number(Decimal(n)) == n && forall i | 0 <= i < |Decimal(n)| :: IsDigit(Decimal(n)[i])
  {
    if n < 10 {
      assert Decimal(n)[..0] == [];
    } else {
      DecimalNumber(n / 10);
      var front, last := Decimal(n / 10), ('0' as nat + n % 10) as char;
      assert Decimal(n)[..|Decimal(n)| - 1] == front && Decimal(n)[|Decimal(n)| - 1] == last;
    }
  }

  lemma {:induction false} AllDigits(s: string)
    requires forall i | 0 <= i < |s| :: IsDigit(s[i])
    ensures Digits(s) == |s|
  {
    if s != "" {
      AllDigits(s[1..]);
    }
  }

  lemma PortReadBack(p: Port)
    ensures ParsePort(Decimal(p)) == p
  {
    var s := Decimal(p);
    DecimalNumber(p);
    hide Decimal;
    DigitsRead(s);
  }

  // Digits in front of nothing else are read as their number.
  lemma DigitsRead(s: string)
    requires s != "" && forall i | 0 <= i < |s| :: IsDigit(s[i])
    ensures ParsePort(s) == Number(s) % 0x1_0000 || Number(s) > LONG_MAX
  {
    hide Number, Digits;
    AllDigits(s);
    assert IsDigit(s[0]);
    assert TrimLeft(s) == s && s[..|s|] == s;
  }

  lemma DecimalLength(p: Port)
    ensures |Decimal(p)| <= 5
  {
    if p >= 10 {
      assert |Decimal(p / 10)| <= 4 by {
        DecimalShort(p / 10);
      }
    }
  }

  lemma DecimalShort(n: nat)
    requires n < 10000
    ensures |Decimal(n)| <= 4
  {
    assert n / 10 < 1000 && n / 10 / 10 < 100 && n / 10 / 10 / 10 < 10;
    assert n >= 1000 ==> |Decimal(n / 10 / 10 / 10)| == 1;
    assert |Decimal(n / 10 / 10)| <= 2;
    assert |Decimal(n / 10)| <= 3;
  }

  // ---------- the text of an address ----------

  // Behind the scheme and the two slashes.
  function Tail(host: string, rest: string): string {
    host + (":" + rest)
  }

  function LeadingSlashes(s: string): (m: nat)
    ensures m <= |s| && (forall i | 0 <= i < m :: s[i] == '/') && (m < |s| ==> s[m] != '/')
  {
    SkipSlashes(s, 0)
  }

  lemma FindAfter(a: string, b: string, chars: string)
    requires (forall i | 0 <= i < |a| :: a[i] !in chars) && b != "" && b[0] in chars
    ensures Find(a + b, 0, chars) == |a|
  {
    FindIs(a + b, 0, chars, |a|);
  }

  lemma FindWithin(a: string, b: string, chars: string)
    requires Find(a, 0, chars) < |a|
    ensures Find(a + b, 0, chars) == Find(a, 0, chars)
  {
    FindIs(a + b, 0, chars, Find(a, 0, chars));
  }

  lemma {:induction false} SkipIs(s: string, i: nat, j: nat)
    requires i <= j <= |s| && (forall k | i <= k < j :: s[k] == '/') && (j < |s| ==> s[j] != '/')
    ensures SkipSlashes(s, i) == j
    decreases j - i
  {
    if i < j {
      SkipIs(s, i + 1, j);
    }
  }

  function Text(scheme: string, host: string, rest: string): (s: string)
    ensures |s| == |scheme| + 3 + |host| + 1 + |rest|
  {
    scheme + ("://" + Tail(host, rest))
  }

  // Where the scheme ends and the slashes behind it.
  lemma TextSplits(scheme: string, host: string, rest: string)
    requires ':' !in scheme
    ensures var s, m := Text(scheme, host, rest), LeadingSlashes(host);
            && Find(s, 0, ":") == |scheme| && s[..|scheme|] == scheme
            && SkipSlashes(s, |scheme| + 1) == |scheme| + 3 + m
            && s[|scheme| + 3 + m..] == Tail(host[m..], rest)
            && SkipSlashes(s, 0) == LeadingSlashes(scheme)
  {
    hide Find, SkipSlashes, Tail, Text;
    SchemeEnd(scheme, host, rest);
    TextSlashes(scheme, host, rest);
    TextSlices(scheme, host, rest, LeadingSlashes(host));
  }

  lemma SchemeEnd(scheme: string, host: string, rest: string)
    requires ':' !in scheme
    ensures Find(Text(scheme, host, rest), 0, ":") == |scheme|
  {
    forall i | 0 <= i < |scheme| ensures scheme[i] !in ":" {
      OneOf(scheme[i]);
    }
    OneOf(':');
    FindAfter(scheme, "://" + Tail(host, rest), ":");
  }

  lemma TextSlices(scheme: string, host: string, rest: string, m: nat)
    requires m <= |host|
    ensures var s := Text(scheme, host, rest); s[..|scheme|] == scheme && s[|scheme| + 3 + m..] == Tail(host[m..], rest)
  {
  }

  // The characters of the text.
  lemma TextAt(scheme: string, host: string, rest: string, i: nat)
    ensures var s, n := Text(scheme, host, rest), |scheme| + 3;
            && s[n - 3] == ':' && s[n - 2] == '/' && s[n - 1] == '/' && s[n + |host|] == ':'
            && (i < |scheme| ==> s[i] == scheme[i]) && (i < |host| ==> s[n + i] == host[i])
  {
  }

  lemma TextSlashes(scheme: string, host: string, rest: string)
    ensures var s, m := Text(scheme, host, rest), LeadingSlashes(host);
            SkipSlashes(s, |scheme| + 1) == |scheme| + 3 + m && SkipSlashes(s, 0) == LeadingSlashes(scheme)
  {
    hide SkipSlashes, Text, LeadingSlashes;
    SlashesBehind(scheme, host, rest, LeadingSlashes(host));
    SlashesInFront(scheme, host, rest, LeadingSlashes(scheme));
  }

  lemma SlashesBehind(scheme: string, host: string, rest: string, m: nat)
    requires m <= |host| && (forall i | 0 <= i < m :: host[i] == '/') && (m < |host| ==> host[m] != '/')
    ensures SkipSlashes(Text(scheme, host, rest), |scheme| + 1) == |scheme| + 3 + m
  {
    hide SkipSlashes, Text;
    var s, n := Text(scheme, host, rest), |scheme| + 3;
    forall k | n - 2 <= k < n + m ensures s[k] == '/' {
      TextAt(scheme, host, rest, if k < n then 0 else k - n);
    }
    TextAt(scheme, host, rest, m);
    SkipIs(s, n - 2, n + m);
  }

  lemma SlashesInFront(scheme: string, host: string, rest: string, l: nat)
    requires l <= |scheme| && (forall i | 0 <= i < l :: scheme[i] == '/') && (l < |scheme| ==> scheme[l] != '/')
    ensures SkipSlashes(Text(scheme, host, rest), 0) == l
  {
    hide SkipSlashes, Text;
    var s := Text(scheme, host, rest);
    forall k | 0 <= k < l ensures s[k] == '/' {
      TextAt(scheme, host, rest, k);
    }
    TextAt(scheme, host, rest, l);
    SkipIs(s, 0, l);
  }

  // ---------- which addresses come back ----------

  predicate Printable(u: Address) {
    && u.host.Some?
    && u.scheme != "" && ':' !in u.scheme
    && ':' !in u.host.value && '/' !in u.host.value && (u.host.value != "" ==> u.host.value[0] != '[')
    && u.uri != "" && u.uri[0] == '/'
    && u.secure == IsSecure(u.scheme)
  }

  // The addresses that the 8-bit length reads as they stand.
  predicate Regular(u: Address) {
    Printable(u) && |u.scheme| <= 252 && |u.host.value| <= 255 && |u.uri| <= 254
  }

  /** A scheme of 255 characters with a colon in front. The first turn takes it for the scheme
      and starts again at its front, so it has to hold the port as well. */
  predicate Colon(u: Address) {
    && u.host == Some("") && u.uri == "/" && u.secure == IsSecure(u.scheme)
    && |u.scheme| == 255 && u.scheme[0] == ':'
    && var k := 4 + |Decimal(u.port)|;
       k < 254 && Find(u.scheme[1..], 0, "/") == k && ParsePort(u.scheme[1..][..k]) == u.port
  }

  datatype Again = Again(host: string, port: Port, at: nat)

  // What a host that is searched from the front of the address finds in the scheme, and where
  // the rest behind it starts.
  function Reread(scheme: string): (r: Option<Again>)
    ensures r.Some? ==> r.value.at <= |scheme| + 1
  {
    var m := LeadingSlashes(scheme);
    var x := scheme[m..];
    if x != "" && x[0] == '[' then
      var k := Find(x, 0, "]");
      if k == |x| then None
      else if k + 1 == |x| then Some(Again(x[1..k], 0, m + k + 2))
      else Some(Again(x[1..k], DefaultPort(scheme), m + k + 1))
    else
      var k := Find(x, 0, "/");
      if k == |x| then Some(Again(x, 0, m + k + 1)) else Some(Again(x[..k], DefaultPort(scheme), m + k))
  }

  /** A scheme so long that the length wraps in the slashes behind it. The scheme is read again
      as the host, so it has to hold that, and exactly 255 characters may follow. */
  predicate Wrapped(u: Address) {
    && u.host.Some? && u.uri == "/" && u.secure == IsSecure(u.scheme)
    && u.scheme != "" && ':' !in u.scheme && |u.scheme| <= 255 && |u.scheme| + 3 + LeadingSlashes(u.host.value) > 255
    && var r := Reread(u.scheme);
       r.Some? && r.value.host == u.host.value && r.value.port == u.port && |Printed(u)| == r.value.at + 255
  }

  // ---------- what is read behind the scheme ----------

  lemma PortComesBack(scheme: string, host: string, port: Port, uri: string)
    requires uri != "" && uri[0] == '/'
    ensures FromPort(scheme, host, Decimal(port) + uri) == FromUri(scheme, Some(host), port, uri)
  {
    var d := Decimal(port);
    DecimalNumber(port);
    PortReadBack(port);
    DecimalLength(port);
    forall i | 0 <= i < |d| ensures d[i] !in "/" {
      OneOf(d[i]);
      assert IsDigit(d[i]);
    }
    OneOf(uri[0]);
    FindAfter(d, uri, "/");
    hide Decimal, ParsePort, DefaultPort, Find, FromUri;
    assert (d + uri)[..|d|] == d && (d + uri)[|d|..] == uri;
  }

  lemma HostComesBack(scheme: string, host: string, rest: string)
    requires ':' !in host && '/' !in host
    ensures FromHost(scheme, Tail(host, rest)) == if |host| > 255 then Diverges else FromPort(scheme, host, rest)
  {
    var t := Tail(host, rest);
    forall i | 0 <= i < |host| ensures host[i] !in ":/" {
      OneOf(host[i]);
    }
    OneOf(':');
    FindAfter(host, ":" + rest, ":/");
    hide Find, FromPort;
    assert t[..|host|] == host && t[|host|] == ':' && t[|host| + 1..] == rest;
  }

  // What every answer has in common.
  ghost predicate AnswerOf(o: Outcome, scheme: string, host: Option<string>) {
    o.Result? && o.url.Some? ==>
      var u := o.url.value;
      u.scheme == scheme && u.host == host && u.secure == IsSecure(scheme) && u.uri != ""
  }

  lemma PortAnswers(scheme: string, host: string, t: string)
    ensures AnswerOf(FromPort(scheme, host, t), scheme, Some(host))
    ensures var o := FromPort(scheme, host, t); o.Result? && o.url.Some? ==> o.url.value.uri[0] == '/'
  {
    var k := Find(t, 0, "/");
    if k < |t| {
      OneOf(t[k]);
    }
    hide ParsePort, DefaultPort, Find, IsSecure;
  }

  lemma HostAnswers(scheme: string, host: string, rest: string)
    requires var t := Tail(host[LeadingSlashes(host)..], rest);
             var o := FromHost(scheme, t); o.Result? && o.url.Some? && o.url.value.host == Some(host)
    ensures ':' !in host && '/' !in host
    ensures var o := FromHost(scheme, Tail(host[LeadingSlashes(host)..], rest)); o.url.value.uri != "" && o.url.value.uri[0] == '/'
  {
    hide FromPort, DefaultPort, IsSecure, SkipSlashes;
    var m := LeadingSlashes(host);
    var t := Tail(host[m..], rest);
    var k := Find(t, 0, ":/");
    assert t[|host| - m] == ':';
    OneOf(':');
    assert k <= |host| - m;
    OneOf(t[k]);
    if t[k] == ':' {
      PortAnswers(scheme, t[..k], t[k + 1..]);
    }
    assert t[..k] == host && m == 0 && k == |host|;
    forall i | 0 <= i < |host| ensures host[i] != ':' && host[i] != '/' {
      assert host[i] == t[i];
      OneOf(t[i]);
    }
  }

  // A text that repeats its host one place further, and starts with it less its slashes, has
  // no colon where that ends.
  lemma {:induction false} NoColon(host: string, t: string, m: nat, p: nat)
    requires m < |host| <= |t| - 1 && host[m] == '[' && p <= |host| - m
    requires forall i | 0 <= i < m :: host[i] == '/'
    requires forall i | 0 <= i < |host| :: t[i + 1] == host[i]
    requires forall i | 0 <= i < |host| - m :: t[i] == host[m + i]
    ensures t[p] != ':'
    decreases p
  {
    if p > 0 {
      assert t[p] == host[p - 1];
      if p - 1 >= m {
        assert host[p - 1] == t[p - 1 - m];
        NoColon(host, t, m, p - 1 - m);
      }
    }
  }

  lemma BracketHost(scheme: string, t: string)
    requires t != "" && t[0] == '['
    ensures var k := Find(t, 0, "]"); AnswerOf(FromBracket(scheme, t), scheme, if k == |t| then None else Some(t[1..k]))
  {
    hide Find, FromPort, DefaultPort, IsSecure;
    var k := Find(t, 0, "]");
    if k < |t| && At(t, k + 1) == ':' {
      PortAnswers(scheme, t[1..k], t[k + 2..]);
    }
  }

  // A host that is read from brackets is not the one that was printed there.
  lemma BracketsDiffer(u: Address, host: string, rest: string)
    requires u.host == Some(host)
    requires At(Tail(host[LeadingSlashes(host)..], rest), 0) == '['
    ensures FromBracket(u.scheme, Tail(host[LeadingSlashes(host)..], rest)) != Result(Some(u))
  {
    hide FromBracket, SkipSlashes;
    var m := LeadingSlashes(host);
    var t := Tail(host[m..], rest);
    var k := Find(t, 0, "]");
    BracketHost(u.scheme, t);
    if k < |t| && t[1..k] == host {
      OneOf(t[k]);
      assert t[|host| - m] == ':';
      assert forall i | 0 <= i < |host| :: t[i + 1] == t[1..k][i];
      NoColon(host, t, m, |host| - m);
    }
  }

  lemma FirstOfTail(host: string, rest: string)
    requires '/' !in host
    ensures LeadingSlashes(host) == 0 && host[0..] == host
    ensures At(Tail(host, rest), 0) == if host == "" then ':' else host[0]
  {
    assert host != "" ==> host[0] in host;
  }

  /** Without a wrap in the slashes. */
  lemma OrdinaryStart(u: Address, host: string, rest: string)
    requires u.host == Some(host) && rest == Decimal(u.port) + u.uri
    requires u.scheme != "" && ':' !in u.scheme
    ensures FromStart(u.scheme, Tail(host[LeadingSlashes(host)..], rest)) == Result(Some(u)) <==>
            Printable(u) && |host| <= 255 && |u.uri| <= 254
  {
    hide FromHost, FromBracket, Tail, Decimal, IsSecure, SkipSlashes;
    var m := LeadingSlashes(host);
    var t := Tail(host[m..], rest);
    if At(t, 0) == '[' {
      BracketsDiffer(u, host, rest);
      if Printable(u) {
        FirstOfTail(host, rest);
      }
    } else if FromHost(u.scheme, t) == Result(Some(u)) {
      HostAnswers(u.scheme, host, rest);
      FirstOfTail(host, rest);
      HostReads(u, host, rest);
    } else if Printable(u) {
      FirstOfTail(host, rest);
      HostReads(u, host, rest);
    }
  }

  lemma HostReads(u: Address, host: string, rest: string)
    requires u.host == Some(host) && rest == Decimal(u.port) + u.uri && ':' !in host && '/' !in host
    requires u.uri != "" && u.uri[0] == '/'
    ensures FromHost(u.scheme, Tail(host, rest)) == Result(Some(u)) <==> u.secure == IsSecure(u.scheme) && |host| <= 255 && |u.uri| <= 254
  {
    hide Decimal, IsSecure, FromPort;
    HostComesBack(u.scheme, host, rest);
    PortComesBack(u.scheme, host, u.port, u.uri);
  }

  // ---------- a wrap in the slashes ----------

  // The scheme and what follows it, without the slashes in front.
  lemma RereadSlices(scheme: string, host: string, rest: string)
    ensures var s, m := Text(scheme, host, rest), LeadingSlashes(scheme); var x := scheme[m..];
            && s[m..] == x + ("://" + Tail(host, rest))
            && (forall n | 0 <= n <= |x| + 1 :: s[m..][n..] == s[m + n..])
            && s[m..][|x| + 1..] == "//" + Tail(host, rest)
            && At(s[m..], 0) == (if x == "" then ':' else x[0])
  {
    hide SkipSlashes;
  }

  // A port with nothing in front of the slash is zero.
  lemma NoPort(scheme: string, host: string, t: string)
    requires t != "" && t[0] == '/'
    ensures FromPort(scheme, host, t) == FromUri(scheme, Some(host), 0, t)
  {
    OneOf(t[0]);
    FindIs(t, 0, "/", 0);
    assert t[..0] == "" && t[0..] == t;
    assert ParsePort("") == 0;
  }

  lemma HostSearched(scheme: string, x: string, more: string)
    requires |x| <= 255 && ':' !in x && (x != "" ==> x[0] != '/')
    ensures var k, t := Find(x, 0, "/"), x + ("://" + more);
            FromHost(scheme, t) == if k == |x| then FromPort(scheme, x, "//" + more)
                                   else FromUri(scheme, Some(x[..k]), DefaultPort(scheme), t[k..])
  {
    var k, t := Find(x, 0, "/"), x + ("://" + more);
    hide Find, FromHost, FromPort, FromUri;
    EndOfHost(x, more);
    Behind(x, more);
    FrontOf(x, "://" + more, k);
    HostFound(scheme, t, k);
  }

  lemma FrontOf(x: string, y: string, k: nat)
    requires k <= |x|
    ensures (x + y)[..k] == x[..k] && (k == |x| ==> x[..k] == x)
    ensures k > 0 ==> (x + y)[1..k] == x[1..k]
  {
  }

  lemma HostFound(scheme: string, t: string, k: nat)
    requires Find(t, 0, ":/") == k && k < |t| && k <= 255
    ensures FromHost(scheme, t) == if t[k] == ':' then FromPort(scheme, t[..k], t[k + 1..])
                                   else FromUri(scheme, Some(t[..k]), DefaultPort(scheme), t[k..])
  {
    hide Find, FromPort, FromUri;
  }

  lemma BracketFound(scheme: string, t: string, k: nat)
    requires t != "" && t[0] == '[' && Find(t, 0, "]") == k && 0 < k < |t| && k <= 255
    ensures FromBracket(scheme, t) == if At(t, k + 1) == ':' then FromPort(scheme, t[1..k], t[k + 2..])
                                      else FromUri(scheme, Some(t[1..k]), DefaultPort(scheme), t[k + 1..])
  {
    hide Find, FromPort, FromUri;
  }

  lemma Behind(x: string, more: string)
    ensures var t := x + ("://" + more); t[|x|] == ':' && t[|x| + 1..] == "//" + more
  {
  }

  lemma EndOfHost(x: string, more: string)
    requires ':' !in x
    ensures var k, t := Find(x, 0, "/"), x + ("://" + more);
            Find(t, 0, ":/") == k && (t[k] == ':' <==> k == |x|)
  {
    var k, t := Find(x, 0, "/"), x + ("://" + more);
    forall i | 0 <= i < k ensures t[i] !in ":/" {
      OneOf(x[i]);
      assert x[i] in x;
    }
    OneOf(':');
    if k < |x| {
      OneOf(x[k]);
    }
    FindIs(t, 0, ":/", k);
  }

  lemma BracketSearched(scheme: string, x: string, more: string)
    requires |x| <= 255 && ':' !in x && x != "" && x[0] == '[' && Find(x, 0, "]") < |x|
    ensures var k, t := Find(x, 0, "]"), x + ("://" + more);
            && k > 0
            && FromBracket(scheme, t) == if k + 1 == |x| then FromPort(scheme, x[1..k], "//" + more)
                                         else FromUri(scheme, Some(x[1..k]), DefaultPort(scheme), t[k + 1..])
  {
    hide FromBracket, FromPort, FromUri;
    var k, t := Find(x, 0, "]"), x + ("://" + more);
    OneOf('[');
    OneOf(x[k]);
    FindWithin(x, "://" + more, "]");
    hide Find;
    Behind(x, more);
    FrontOf(x, "://" + more, k);
    assert k + 1 < |x| ==> t[k + 1] == x[k + 1] && x[k + 1] in x;
    BracketFound(scheme, t, k);
  }

  /** A host that is searched from the front is the one in the scheme. */
  lemma RereadIs(scheme: string, host: string, rest: string)
    requires ':' !in scheme && |scheme| <= 255 && Reread(scheme).Some?
    ensures var s, r := Text(scheme, host, rest), Reread(scheme).value;
            FromStart(scheme, s[LeadingSlashes(scheme)..]) == FromUri(scheme, Some(r.host), r.port, s[r.at..])
  {
    hide Find, SkipSlashes, FromHost, FromBracket, FromPort, FromUri, DefaultPort;
    var s, m, more := Text(scheme, host, rest), LeadingSlashes(scheme), Tail(host, rest);
    var x := scheme[m..];
    RereadSlices(scheme, host, rest);
    if x != "" && x[0] == '[' {
      BracketSearched(scheme, x, more);
      NoPort(scheme, x[1..Find(x, 0, "]")], "//" + more);
    } else {
      HostSearched(scheme, x, more);
      NoPort(scheme, x, "//" + more);
    }
  }

  // A bracket that the scheme does not close is not closed by the host that is read from it.
  lemma OpenBracket(u: Address, host: string, rest: string)
    requires u.host == Some(host) && ':' !in u.scheme && Reread(u.scheme).None?
    ensures FromStart(u.scheme, Text(u.scheme, host, rest)[LeadingSlashes(u.scheme)..]) != Result(Some(u))
  {
    hide FromHost, FromBracket, SkipSlashes;
    var m := LeadingSlashes(u.scheme);
    var x, t := u.scheme[m..], Text(u.scheme, host, rest)[m..];
    RereadSlices(u.scheme, host, rest);
    BracketHost(u.scheme, t);
    var k := Find(t, 0, "]");
    if k < |t| && |host| == k - 1 {
      Unclosed(x, host, rest, t, k);
    }
  }

  lemma Unclosed(x: string, host: string, rest: string, t: string, k: nat)
    requires t == Text(x, host, rest) && Find(x, 0, "]") == |x| && 0 < |x|
    requires Find(t, 0, "]") == k < |t| && |host| == k - 1
    ensures t[1..k] != host
  {
    hide Text;
    NoBracketIn(x);
    OneOf(t[k]);
    hide Find;
    forall i | 0 <= i < |x| ensures t[i] != ']' {
      TextAt(x, host, rest, i);
    }
    var j := k - (|x| + 3);
    TextAt(x, host, rest, 0);
    TextAt(x, host, rest, j);
    NotBefore(t, k, j + 1);
    assert t[1..k][j] == t[j + 1];
  }

  lemma NoBracketIn(x: string)
    requires Find(x, 0, "]") == |x|
    ensures forall i | 0 <= i < |x| :: x[i] != ']'
  {
    forall i | 0 <= i < |x| ensures x[i] != ']' {
      OneOf(x[i]);
    }
  }

  lemma NotBefore(t: string, k: nat, i: nat)
    requires Find(t, 0, "]") == k && i < k
    ensures t[i] != ']'
  {
    OneOf(t[i]);
  }

  // Of a rest that is longer than the uri only the 255 characters that read as "/" will do.
  lemma LongRest(u: Address, host: string, port: Port, t: string)
    requires |t| > |u.uri|
    ensures FromUri(u.scheme, Some(host), port, t) == Result(Some(u)) <==>
            u.host == Some(host) && u.port == port && u.secure == IsSecure(u.scheme) && u.uri == "/" && |t| == 255
  {
    hide IsSecure;
  }

  lemma WrappedStart(u: Address, host: string, rest: string)
    requires u.host == Some(host) && rest == Decimal(u.port) + u.uri
    requires u.scheme != "" && ':' !in u.scheme && |u.scheme| <= 255 && |u.scheme| + 3 + LeadingSlashes(host) > 255
    ensures FromStart(u.scheme, Text(u.scheme, host, rest)[LeadingSlashes(u.scheme)..]) == Result(Some(u)) <==> Wrapped(u)
  {
    hide Decimal, IsSecure, FromStart, SkipSlashes, FromUri, Reread, Tail;
    var s := Text(u.scheme, host, rest);
    assert s == Printed(u) by { PrintedIs(u, host, rest); }
    if Reread(u.scheme).Some? {
      var r := Reread(u.scheme).value;
      RereadIs(u.scheme, host, rest);
      LongRest(u, r.host, r.port, s[r.at..]);
    } else {
      OpenBracket(u, host, rest);
    }
  }

  lemma PrintedIs(u: Address, host: string, rest: string)
    requires u.host == Some(host) && rest == Decimal(u.port) + u.uri
    ensures Printed(u) == Text(u.scheme, host, rest)
  {
    hide Decimal;
  }

  // ---------- a colon in front ----------

  lemma ColonStart(u: Address, host: string, rest: string)
    requires u.host == Some(host) && rest == Decimal(u.port) + u.uri
    requires |u.scheme| == 255 && u.scheme[0] == ':'
    ensures FromHost(u.scheme, Text(u.scheme, host, rest)) == Result(Some(u)) <==> Colon(u)
  {
    hide Decimal, IsSecure, FromPort, ParsePort, FromUri, Tail;
    var s := Text(u.scheme, host, rest);
    OneOf(':');
    FindIs(s, 0, ":/", 0);
    assert s[..0] == "";
    ColonSlash(u.scheme, host, rest);
    var t := s[1..];
    var k := Find(t, 0, "/");
    assert FromHost(u.scheme, s) == FromPort(u.scheme, "", t);
    assert FromPort(u.scheme, "", t) == FromUri(u.scheme, Some(""), ParsePort(t[..k]), t[k..]) by { PortFound(u.scheme, "", t); }
    LongRest(u, "", ParsePort(t[..k]), t[k..]);
    DecimalLength(u.port);
    assert |t| == 258 + |host| + |Decimal(u.port)| + |u.uri|;
    assert k < 254 ==> t[..k] == u.scheme[1..][..k];
  }

  lemma PortFound(scheme: string, host: string, t: string)
    requires Find(t, 0, "/") < |t| && Find(t, 0, "/") <= 255
    ensures FromPort(scheme, host, t) == FromUri(scheme, Some(host), ParsePort(t[..Find(t, 0, "/")]), t[Find(t, 0, "/")..])
  {
    hide Find, FromUri, ParsePort;
  }

  lemma ColonSlash(scheme: string, host: string, rest: string)
    requires |scheme| == 255
    ensures var t := Text(scheme, host, rest)[1..];
            Find(t, 0, "/") == if Find(scheme[1..], 0, "/") == 254 then 255 else Find(scheme[1..], 0, "/")
  {
    hide Tail;
    var x, t := scheme[1..], Text(scheme, host, rest)[1..];
    assert t == x + ("://" + Tail(host, rest));
    OneOf(':');
    OneOf('/');
    if Find(x, 0, "/") < 254 {
      FindWithin(x, "://" + Tail(host, rest), "/");
    } else {
      assert forall i | 0 <= i < 254 :: t[i] == x[i];
      FindIs(t, 0, "/", 255);
    }
  }

  // ---------- the round trip ----------

  lemma ColonInFront(u: Address, host: string, rest: string)
    requires u.host == Some(host) && rest == Decimal(u.port) + u.uri
    requires u.scheme == "" || u.scheme[0] == ':'
    ensures Parsed(Text(u.scheme, host, rest)) == Result(Some(u)) <==> Colon(u)
  {
    hide FromHost, FromScheme, Decimal, Tail, Find, ParsePort;
    var s := Text(u.scheme, host, rest);
    assert s[0] == ':';
    assert |Copy(s, 0, 255)| == Min(255, |s|);
    SchemeOfAnswer(Copy(s, 0, 255), s);
    if |u.scheme| == 255 {
      assert Copy(s, 0, 255) == u.scheme;
      ColonStart(u, host, rest);
    }
  }

  // What an answer says of the scheme.
  lemma SchemeOfAnswer(scheme: string, t: string)
    ensures var o := FromHost(scheme, t); o.Result? && o.url.Some? ==> o.url.value.scheme == scheme
    ensures var o := FromStart(scheme, t); o.Result? && o.url.Some? ==> o.url.value.scheme == scheme
  {
    hide Find, ParsePort, DefaultPort, IsSecure;
  }

  lemma ColonInside(u: Address, host: string, rest: string)
    requires u.host == Some(host) && u.scheme != "" && u.scheme[0] != ':' && ':' in u.scheme
    ensures Parsed(Text(u.scheme, host, rest)) != Result(Some(u))
  {
    hide FromStart, HostStart, Tail;
    var s := Text(u.scheme, host, rest);
    var i := Find(s, 0, ":");
    var j :| 0 <= j < |u.scheme| && u.scheme[j] == ':';
    OneOf(':');
    assert s[j] == ':';
    assert i <= j;
    SchemeOfAnswer(s[..i], s[HostStart(s, i)..]);
  }

  lemma NoColonInScheme(u: Address, host: string, rest: string)
    requires u.host == Some(host) && rest == Decimal(u.port) + u.uri && u.scheme != "" && ':' !in u.scheme
    ensures Parsed(Text(u.scheme, host, rest)) == Result(Some(u)) <==> Regular(u) || Wrapped(u)
  {
    hide FromStart, Decimal, Tail, Find, SkipSlashes, IsSecure, Reread;
    var s, m := Text(u.scheme, host, rest), LeadingSlashes(host);
    assert s[0] == u.scheme[0] && u.scheme[0] in u.scheme;
    TextSplits(u.scheme, host, rest);
    if |u.scheme| <= 255 {
      if |u.scheme| + 3 + m <= 255 {
        OrdinaryStart(u, host, rest);
        if Printable(u) {
          FirstOfTail(host, rest);
        }
      } else {
        WrappedStart(u, host, rest);
        if Printable(u) {
          FirstOfTail(host, rest);
        }
      }
    }
  }

  /** Exactly which addresses come back. In general these are the ones with a scheme without
      colons of 1 to 252 characters, a host of up to 255 without colon or slash and with no
      bracket in front, a path of up to 254 behind a slash, and the security of the scheme;
      and besides these, only the two kinds where the wrapped length hits by chance. */
  lemma RoundTrip(u: Address)
    ensures Parsed(Printed(u)) == Result(Some(u)) <==> Regular(u) || Colon(u) || Wrapped(u)
  {
    hide Parsed, Decimal, Find, ParsePort, IsSecure, Reread, SkipSlashes, Tail;
    if u.host.Some? {
      var host, rest := u.host.value, Decimal(u.port) + u.uri;
      PrintedIs(u, host, rest);
      if u.scheme == "" || u.scheme[0] == ':' {
        ColonInFront(u, host, rest);
        assert u.scheme != "" ==> u.scheme[0] in u.scheme;
      } else if ':' in u.scheme {
        ColonInside(u, host, rest);
      } else {
        NoColonInScheme(u, host, rest);
      }
    } else {
      assert Parsed("") == Result(None) by { ParsedOfNothing(); }
    }
  }

  lemma ParsedOfNothing()
    ensures Parsed("") == Result(None)
  {
  }

  // ---------- how far the exceptions go ----------

  // A host found in the scheme is as long as the scheme allows, and the port it gives is zero
  // unless the scheme is short.
  lemma RereadBounds(scheme: string)
    requires Reread(scheme).Some?
    ensures var r := Reread(scheme).value;
            && (r.port == 0 || |scheme| <= 5)
            && (LeadingSlashes(r.host) > 0 ==> r.at >= |r.host| + 2) && r.at >= |r.host|
            && |r.host| <= |scheme|
  {
    hide SkipSlashes;
    var x := scheme[LeadingSlashes(scheme)..];
    if x != "" && x[0] == '[' {
      OneOf('[');
    } else {
      var k := Find(x, 0, "/");
      assert k > 0 ==> x[..k][0] == x[0];
      OneOf(if x == "" then ' ' else x[0]);
    }
  }

  lemma WrappedIsLong(u: Address)
    requires Wrapped(u)
    ensures |u.scheme| >= 251
  {
    hide Reread, Decimal, LeadingSlashes, IsSecure, Tail;
    RereadBounds(u.scheme);
    PrintedIs(u, u.host.value, Decimal(u.port) + u.uri);
    DecimalLength(u.port);
    assert |Decimal(0)| == 1 by { DecimalOfZero(); }
  }

  lemma DecimalOfZero()
    ensures Decimal(0) == "0"
  {
  }

  /** With a scheme of up to 250 characters, or a path that is not just a slash, there is no
      exception. */
  lemma RoundTripUsual(u: Address)
    requires |u.scheme| <= 250 || u.uri != "/"
    ensures Parsed(Printed(u)) == Result(Some(u)) <==> Regular(u)
  {
    hide Parsed, Printed, Regular, Reread, Decimal;
    RoundTrip(u);
    if Wrapped(u) {
      WrappedIsLong(u);
    }
  }

  // Both exceptions happen.
  lemma ExceptionsHappen()
    ensures var host := seq(250, _ => 'h'); Wrapped(Address("///" + host, Some(host), 0, "/", false))
    ensures Colon(Address(":00000/" + seq(248, _ => 's'), Some(""), 0, "/", false))
  {
    WrappedHappens(seq(250, _ => 'h'));
    ColonHappens(seq(248, _ => 's'));
  }

  lemma WrappedHappens(host: string)
    requires |host| == 250 && forall i | 0 <= i < 250 :: host[i] == 'h'
    ensures Wrapped(Address("///" + host, Some(host), 0, "/", false))
  {
    var scheme := "///" + host;
    var u := Address(scheme, Some(host), 0, "/", false);
    SkipIs(scheme, 0, 3);
    assert scheme[3..] == host;
    OneOf('h');
    FindIs(host, 0, "/", 250);
    assert forall c | c in scheme :: c == '/' || c == 'h';
    assert scheme != "https" by { assert |scheme| == 253; }
    PrintedIs(u, host, Decimal(0) + "/");
    DecimalOfZero();
    hide Find, SkipSlashes, Text, Printed, Decimal;
    assert |Decimal(0) + "/"| == 2;
  }

  lemma ColonHappens(rest: string)
    requires |rest| == 248 && forall i | 0 <= i < 248 :: rest[i] == 's'
    ensures Colon(Address(":00000/" + rest, Some(""), 0, "/", false))
  {
    var scheme := ":00000/" + rest;
    var t := scheme[1..];
    assert t == "00000/" + rest && t[..5] == "00000";
    OneOf('0');
    OneOf('/');
    FindIs(t, 0, "/", 5);
    DecimalOfZero();
    assert scheme != "https" by { assert |scheme| == 255; }
    assert ParsePort("00000") == 0 by { FiveZeros(); }
    hide Find, ParsePort, Decimal;
  }

  lemma FiveZeros()
    ensures ParsePort("00000") == 0
  {
    var s := "00000";
    AllDigits(s);
    assert IsDigit(s[0]) && TrimLeft(s) == s && s[..5] == s;
    assert s[..4] == "0000" && s[..4][..3] == "000" && s[..4][..3][..2] == "00" && s[..4][..3][..2][..1] == "0" && s[..4][..3][..2][..1][..0] == "";
    assert Number("0") == 0;
    assert Number("00") == 0;
    assert Number("000") == 0;
    assert Number("0000") == 0;
  }

  // ---------- addresses without a port ----------

  /** An address without a port is read with the port of its scheme, 80 for http and 443 for
      https, and only https is secure; one that ends with the host has the path "/". */
  lemma PortlessAddress(scheme: string, host: string, uri: string)
    requires scheme != "" && ':' !in scheme && |scheme| <= 252
    requires host != "" && ':' !in host && '/' !in host && host[0] != '[' && |host| <= 254
    requires (uri == "" || uri[0] == '/') && |uri| <= 254
    ensures Parsed(scheme + ("://" + (host + uri))) ==
            Result(Some(Address(scheme, Some(host),
                                if scheme == "http" then 80 else if scheme == "https" then 443 else 0,
                                if uri == "" then "/" else uri,
                                scheme == "https")))
  {
    hide Find, SkipSlashes, FromHost;
    var n, t := |scheme|, host + uri;
    var s := scheme + ("://" + t);
    FindAfter(scheme, "://" + t, ":");
    assert s[..n] == scheme && s[0] == scheme[0] && s[n..] == "://" + t;
    assert s[n] == ':' && s[n + 1] == '/' && s[n + 2] == '/' && s[n + 3] == t[0] == host[0];
    SkipIs(s, n + 1, n + 3);
    assert s[n + 3..] == t;
    HostOnly(scheme, host, uri);
  }

  lemma HostOnly(scheme: string, host: string, uri: string)
    requires host != "" && ':' !in host && '/' !in host && |host| <= 254
    requires (uri == "" || uri[0] == '/') && |uri| <= 254
    ensures FromHost(scheme, host + uri) ==
            Result(Some(Address(scheme, Some(host), DefaultPort(scheme), if uri == "" then "/" else uri, IsSecure(scheme))))
  {
    hide Find;
    var t := host + uri;
    if uri != "" {
      FindAfter(host, uri, ":/");
      assert t[..|host|] == host && t[|host|..] == uri && t[|host|] == '/';
    } else {
      assert t == host;
      FindIs(host, 0, ":/", |host|);
    }
  }

  // ---------- the text of a port ----------

  /** A port is read as strtol does: behind spaces, with a sign, as far as there are digits; a
      minus counts down from 65536. */
  lemma PortText(spaces: string, sign: string, digits: string, rest: string)
    requires forall i | 0 <= i < |spaces| :: IsSpace(spaces[i])
    requires sign in ["", "+", "-"]
    requires digits != "" && (forall i | 0 <= i < |digits| :: IsDigit(digits[i])) && Number(digits) < 0x1_0000
    requires rest == "" || !IsDigit(rest[0])
    ensures ParsePort(spaces + (sign + (digits + rest))) ==
            if sign == "-" && Number(digits) > 0 then 0x1_0000 - Number(digits) else Number(digits)
  {
    hide Number, Digits, TrimLeft, ParsePort, IsSpace;
    var u := digits + rest;
    assert u[0] == digits[0] && IsDigit(u[0]);
    NoSpace(sign, u);
    Trimmed(spaces, sign + u);
    DigitsEnd(digits, rest);
    assert u[..|digits|] == digits;
    SignRead(spaces + (sign + u), sign, u);
  }

  lemma NoSpace(sign: string, u: string)
    requires sign in ["", "+", "-"] && u != "" && IsDigit(u[0])
    ensures sign + u != "" && !IsSpace((sign + u)[0])
  {
  }

  lemma SignRead(text: string, sign: string, u: string)
    requires TrimLeft(text) == sign + u && sign in ["", "+", "-"] && u != "" && IsDigit(u[0])
    requires Number(u[..Digits(u)]) < 0x1_0000
    ensures var n := Number(u[..Digits(u)]); ParsePort(text) == if sign == "-" && n > 0 then 0x1_0000 - n else n
  {
    hide Number, Digits, TrimLeft, IsSpace;
    var t := sign + u;
    if sign == "" {
      assert t == u;
    } else {
      assert t[1..] == u && t[0] == sign[0];
    }
  }

  lemma {:induction false} Trimmed(spaces: string, t: string)
    requires forall i | 0 <= i < |spaces| :: IsSpace(spaces[i])
    requires t != "" && !IsSpace(t[0])
    ensures TrimLeft(spaces + t) == t
  {
    if spaces == "" {
      assert spaces + t == t;
    } else {
      assert (spaces + t)[1..] == spaces[1..] + t;
      Trimmed(spaces[1..], t);
    }
  }

  lemma {:induction false} DigitsEnd(digits: string, rest: string)
    requires (forall i | 0 <= i < |digits| :: IsDigit(digits[i])) && (rest == "" || !IsDigit(rest[0]))
    ensures Digits(digits + rest) == |digits|
  {
    if digits == "" {
      assert digits + rest == rest;
    } else {
      assert (digits + rest)[1..] == digits[1..] + rest;
      DigitsEnd(digits[1..], rest);
    }
  }
}
