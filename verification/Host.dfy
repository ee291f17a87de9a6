/** The host that goes into the request prolog: cleanHost with Go's net.SplitHostPort and
    net.JoinHostPort written out, and removeZone. A char stands for one byte of a Go string. */
module Host {
  import opened Frames

  // ---------- searching a string ----------

  function Index(s: string, c: char): (i: int)
    ensures -1 <= i < |s|
    ensures i >= 0 ==> s[i] == c
    ensures forall k :: 0 <= k < (if i < 0 then |s| else i) ==> s[k] != c
  {
    if s == "" then -1
    else if s[0] == c then 0
    else
      var i := Index(s[1..], c);
      assert forall k :: 0 < k < |s| ==> s[k] == s[1..][k - 1];
      if i < 0 then -1 else i + 1
  }

  function LastIndex(s: string, c: char): (i: int)
    ensures -1 <= i < |s|
    ensures i >= 0 ==> s[i] == c
    ensures forall k :: i < k < |s| ==> s[k] != c
  {
    if s == "" then -1
    else if s[|s| - 1] == c then |s| - 1
    else LastIndex(s[..|s| - 1], c)
  }

  lemma {:induction false} IndexIs(s: string, c: char, j: nat)
    requires j < |s| && s[j] == c && c !in s[..j]
    ensures Index(s, c) == j
  {
    if j > 0 {
      assert s[0] in s[..j];
      assert s[1..][..j - 1] == s[..j][1..];
      IndexIs(s[1..], c, j - 1);
    }
  }

  lemma {:induction false} LastIndexIs(s: string, c: char, j: nat)
    requires j < |s| && s[j] == c && c !in s[j + 1..]
    ensures LastIndex(s, c) == j
  {
    if j < |s| - 1 {
      var rest := s[j + 1..];
      assert s[|s| - 1] == rest[|rest| - 1];
      assert s[..|s| - 1][j + 1..] == rest[..|rest| - 1];
      LastIndexIs(s[..|s| - 1], c, j);
    }
  }

  // ---------- net.SplitHostPort and net.JoinHostPort ----------

  datatype Address = Address(host: string, port: string)

  function SplitHostPort(s: string): Option<Address> {
    var i := LastIndex(s, ':');
    if i < 0 then None
    else if s[0] == '[' then
      var end := Index(s, ']');
      if end < 0 || end + 1 != i then None
      else if '[' in s[1..] || ']' in s[end + 1..] then None
      else Some(Address(s[1..end], s[i + 1..]))
    else if ':' in s[..i] || '[' in s || ']' in s then None
    else Some(Address(s[..i], s[i + 1..]))
  }

  function JoinHostPort(a: Address): string {
    if ':' in a.host then "[" + a.host + "]:" + a.port else a.host + ":" + a.port
  }

  predicate Unbracketed(s: string) {
    '[' !in s && ']' !in s
  }

  /** `s` denotes the address `a`, with or without brackets around the host. */
  predicate Denotes(s: string, a: Address) {
    && Unbracketed(a.host) && Unbracketed(a.port) && ':' !in a.port
    && (s == "[" + a.host + "]:" + a.port || (':' !in a.host && s == a.host + ":" + a.port))
  }

  lemma LastColon(before: string, port: string)
    requires ':' !in port
    ensures LastIndex(before + ":" + port, ':') == |before|
  {
    var s := before + ":" + port;
    assert s[|before| + 1..] == port;
    LastIndexIs(s, ':', |before|);
  }

  lemma SplitBracketed(a: Address)
    requires Unbracketed(a.host) && Unbracketed(a.port) && ':' !in a.port
    ensures SplitHostPort("[" + a.host + "]:" + a.port) == Some(a)
  {
    hide Index, LastIndex;
    var s := "[" + a.host + "]:" + a.port;
    var n := |a.host|;
    assert LastIndex(s, ':') == n + 2 by {
      assert s == "[" + a.host + "]" + ":" + a.port;
      LastColon("[" + a.host + "]", a.port);
    }
    assert Index(s, ']') == n + 1 by {
      assert s[..n + 1] == "[" + a.host;
      IndexIs(s, ']', n + 1);
    }
    Bracketed(a.host, a.port);
  }

  lemma Bracketed(host: string, port: string)
    requires Unbracketed(host) && Unbracketed(port)
    ensures var s, n := "[" + host + "]:" + port, |host|;
            '[' !in s[1..] && ']' !in s[n + 2..] && s[1..n + 1] == host && s[n + 3..] == port
  {
    var s := "[" + host + "]:" + port;
    assert s[1..] == host + "]:" + port;
    assert s[|host| + 2..] == ":" + port;
  }

  lemma SplitPlain(a: Address)
    requires Unbracketed(a.host) && Unbracketed(a.port) && ':' !in a.port && ':' !in a.host
    ensures SplitHostPort(a.host + ":" + a.port) == Some(a)
  {
    var s := a.host + ":" + a.port;
    LastColon(a.host, a.port);
    assert s[..|a.host|] == a.host && s[|a.host| + 1..] == a.port;
    assert forall c :: c in s <==> c in a.host || c == ':' || c in a.port;
    assert s[0] in s;
  }

  lemma SplitOffBracketed(s: string, a: Address)
    requires SplitHostPort(s) == Some(a) && s[0] == '['
    ensures Denotes(s, a)
  {
    hide Index, LastIndex;
    var i := LastIndex(s, ':');
    var end := Index(s, ']');
    assert s == "[" + a.host + "]:" + a.port;
    assert ']' !in a.host by { assert forall c :: c in s[1..end] ==> c in s[..end]; }
    assert Unbracketed(a.port) && '[' !in a.host by { assert s[1..] == a.host + "]:" + a.port && s[end + 1..] == ":" + a.port; }
  }

  lemma SplitOffPlain(s: string, a: Address)
    requires SplitHostPort(s) == Some(a) && s[0] != '['
    ensures Denotes(s, a)
  {
    hide Index, LastIndex;
    assert s == a.host + ":" + a.port;
  }

  /** SplitHostPort yields exactly the address that the string denotes, and fails exactly if there is none. */
  lemma SplitIff(s: string, a: Address)
    ensures SplitHostPort(s) == Some(a) <==> Denotes(s, a)
  {
    hide SplitHostPort;
    if Denotes(s, a) {
      if s == "[" + a.host + "]:" + a.port { SplitBracketed(a); } else { SplitPlain(a); }
    } else if SplitHostPort(s) == Some(a) {
      SplitNonempty(s);
      if s[0] == '[' { SplitOffBracketed(s, a); } else { SplitOffPlain(s, a); }
    }
  }

  lemma SplitNonempty(s: string)
    ensures SplitHostPort(s).Some? ==> s != ""
  {
  }

  /** Joining and splitting are inverse on every address that can be split off at all. */
  lemma JoinSplit(a: Address)
    requires Unbracketed(a.host) && Unbracketed(a.port) && ':' !in a.port
    ensures SplitHostPort(JoinHostPort(a)) == Some(a)
  {
    SplitIff(JoinHostPort(a), a);
  }

  // ---------- cleanHost ----------

  predicate ASCII(s: string) {
    forall i :: 0 <= i < |s| ==> s[i] as int < 0x80
  }

  method IsASCII(s: string) returns (r: bool)
    ensures r <==> ASCII(s)
  {
    for i := 0 to |s|
      invariant ASCII(s[..i])
    {
      if s[i] as int >= 0x80 {
        return false;
      }
      assert s[..i + 1] == s[..i] + [s[i]];
    }
    assert s[..|s|] == s;
    return true;
  }

  /** idnaASCII; `toASCII` stands for the conversion of names that are not ASCII. */
  function IdnaASCII(v: string, toASCII: string -> Option<string>): Option<string> {
    if ASCII(v) then Some(v) else toASCII(v)
  }

  /** The part before the first space or slash. */
  function Truncate(s: string): (r: string)
    ensures r <= s && ' ' !in r && '/' !in r
    ensures r != s ==> s[|r|] == ' ' || s[|r|] == '/'
  {
    if s == "" || s[0] == ' ' || s[0] == '/' then "" else [s[0]] + Truncate(s[1..])
  }

  function CleanHost(s: string, toASCII: string -> Option<string>): string {
    var t := Truncate(s);
    var split := SplitHostPort(t);
    match IdnaASCII(if split.Some? then split.value.host else t, toASCII)
    case None => t
    case Some(a) => if split.Some? then JoinHostPort(Address(a, split.value.port)) else a
  }

  lemma AsciiParts(s: string, a: Address)
    requires ASCII(s) && SplitHostPort(s) == Some(a)
    ensures ASCII(a.host) && ASCII(a.port)
    ensures ' ' in a.host || ' ' in a.port ==> ' ' in s
    ensures '/' in a.host || '/' in a.port ==> '/' in s
  {
    var i := LastIndex(s, ':');
    assert a.port == s[i + 1..];
    assert a.host == if s[0] == '[' then s[1..i - 1] else s[..i];
  }

  /** `t` is an address whose host needs no brackets, but has them. */
  predicate NeedlessBrackets(t: string, a: Address) {
    && Unbracketed(a.host) && Unbracketed(a.port) && ':' !in a.host && ':' !in a.port
    && t == "[" + a.host + "]:" + a.port
  }

  /** On ASCII input cleanHost cuts at the first space or slash and drops needless brackets; it does nothing else. In
      particular it leaves a host without brackets as it is, and what it returns for an address begins with a bracket
      exactly if the host has a colon. */
  lemma CleanHostIs(s: string, toASCII: string -> Option<string>)
    requires ASCII(s)
    ensures var r, t := CleanHost(s, toASCII), Truncate(s);
            && (forall a :: NeedlessBrackets(t, a) ==> r == a.host + ":" + a.port)
            && ((forall a :: !NeedlessBrackets(t, a)) ==> r == t)
            && ('[' !in s ==> r == t)
            && (forall a :: Denotes(t, a) ==> r != "" && (r[0] == '[' <==> ':' in a.host))
  {
    var r, t := CleanHost(s, toASCII), Truncate(s);
    forall a | Denotes(t, a)
      ensures r == if ':' in a.host then "[" + a.host + "]:" + a.port else a.host + ":" + a.port
    {
      SplitIff(t, a);
      AsciiParts(t, a);
    }
    forall a | Denotes(t, a)
      ensures r != "" && (r[0] == '[' <==> ':' in a.host)
    {
      if ':' !in a.host { assert a.host != "" ==> a.host[0] in a.host; }
    }
    if SplitHostPort(t).Some? {
      var a := SplitHostPort(t).value;
      SplitIff(t, a);
      if '[' !in s {
        assert '[' !in t;
        assert t != "[" + a.host + "]:" + a.port by { assert ("[" + a.host + "]:" + a.port)[0] == '['; }
      }
      if t == "[" + a.host + "]:" + a.port && ':' !in a.host { assert NeedlessBrackets(t, a); }
    }
  }

  /** On other input: the host, alone or in an address, is converted, or, if that fails, left with everything else as
      it is; brackets are put around a converted host exactly if it has a colon. */
  lemma CleanHostConverts(s: string, toASCII: string -> Option<string>)
    ensures var r, t := CleanHost(s, toASCII), Truncate(s);
            && (forall a :: Denotes(t, a) && !ASCII(a.host) ==>
                  match toASCII(a.host)
                  case None => r == t
                  case Some(b) => r == (if ':' in b then "[" + b + "]:" else b + ":") + a.port)
            && (!ASCII(t) && (forall a :: !Denotes(t, a)) ==>
                  match toASCII(t)
                  case None => r == t
                  case Some(b) => r == b)
  {
    var t := Truncate(s);
    forall a | Denotes(t, a) ensures SplitHostPort(t) == Some(a) {
      SplitIff(t, a);
    }
    if SplitHostPort(t).Some? { SplitIff(t, SplitHostPort(t).value); }
  }

  /** On ASCII input the result has no space or slash, denotes the same address, in brackets exactly if its host has a
      colon, and is a fixed point; a host without brackets is left as it is. */
  lemma CleanHostAscii(s: string, toASCII: string -> Option<string>)
    requires ASCII(s)
    ensures var r := CleanHost(s, toASCII);
            && ASCII(r) && ' ' !in r && '/' !in r
            && SplitHostPort(r) == SplitHostPort(Truncate(s))
            && (SplitHostPort(r).None? || '[' !in s ==> r == Truncate(s))
            && (SplitHostPort(r).Some? ==> r != "" && (r[0] == '[' <==> ':' in SplitHostPort(r).value.host))
            && CleanHost(r, toASCII) == r
  {
    var t := Truncate(s);
    var r := CleanHost(s, toASCII);
    assert ASCII(t);
    CleanHostIs(s, toASCII);
    if SplitHostPort(t).Some? {
      var a := SplitHostPort(t).value;
      AsciiParts(t, a);
      SplitIff(t, a);
      JoinSplit(a);
      JoinedChars(a);
    }
    TruncateClean(r);
  }

  lemma JoinedChars(a: Address)
    requires ASCII(a.host) && ASCII(a.port)
    ensures ASCII(JoinHostPort(a))
    ensures forall c :: c in JoinHostPort(a) ==> c in a.host || c in a.port || c in "[]:"
  {
  }

  lemma {:induction false} TruncateClean(s: string)
    requires ' ' !in s && '/' !in s
    ensures Truncate(s) == s
  {
    if s != "" {
      assert s == [s[0]] + s[1..];
      TruncateClean(s[1..]);
    }
  }

  // ---------- removeZone ----------

  function RemoveZone(host: string): string {
    if host == "" || host[0] != '[' then host
    else
      var i := LastIndex(host, ']');
      if i < 0 then host
      else
        var j := LastIndex(host[..i], '%');
        if j < 0 then host else host[..j] + host[i..]
  }

  function CountOf(s: string, c: char): nat {
    if s == "" then 0 else CountOf(s[..|s| - 1], c) + if s[|s| - 1] == c then 1 else 0
  }

  /** How many zone markers a bracketed host has before its last bracket. */
  function Zones(host: string): nat {
    if host == "" || host[0] != '[' || LastIndex(host, ']') < 0 then 0
    else CountOf(host[..LastIndex(host, ']')], '%')
  }

  lemma {:induction false} CountSplit(s: string, c: char)
    ensures c !in s <==> CountOf(s, c) == 0
    ensures var j := LastIndex(s, c); j >= 0 ==> CountOf(s, c) == CountOf(s[..j], c) + 1
  {
    if s != "" {
      var init, last := s[..|s| - 1], s[|s| - 1];
      CountSplit(init, c);
      assert c in s <==> c in init || c == last by { assert s == init + [last]; }
      if last != c && LastIndex(s, c) >= 0 {
        assert init[..LastIndex(s, c)] == s[..LastIndex(s, c)];
      }
    }
  }

  lemma ZoneRemoved(host: string)
    requires Zones(host) > 0
    ensures var r, i := RemoveZone(host), LastIndex(host, ']');
            var j := LastIndex(host[..i], '%');
            && 0 < j < i && r == host[..j] + host[i..] && '%' !in host[j + 1..i]
            && r[0] == '[' && LastIndex(r, ']') == j
            && Zones(r) == Zones(host) - 1
  {
    var i := LastIndex(host, ']');
    var before := host[..i];
    CountSplit(before, '%');
    var j := LastIndex(before, '%');
    assert before[0] == '[';
    assert before[j + 1..] == host[j + 1..i];
    var r := RemoveZone(host);
    assert r[j] == ']' && r[j + 1..] == host[i + 1..];
    LastIndexIs(r, ']', j);
    assert r[..j] == before[..j];
  }

  /** `r` is `host` without what is between its last zone marker, at `j`, and its last bracket, at `i`. */
  predicate WithoutZone(host: string, r: string, j: nat, i: nat) {
    && 0 < j < i < |host| && host[j] == '%' && host[i] == ']'
    && ']' !in host[i + 1..] && '%' !in host[j + 1..i] && r == host[..j] + host[i..]
  }

  /** removeZone acts exactly on bracketed hosts with a zone marker. It keeps the address before the last
      marker and everything from the last bracket, and takes away exactly one marker; doing it twice is
      doing it once exactly if there was at most one. */
  lemma RemoveZoneMeans(host: string)
    ensures var r := RemoveZone(host);
            && (r == host <==> Zones(host) == 0)
            && Zones(r) == (if Zones(host) == 0 then 0 else Zones(host) - 1)
            && (RemoveZone(r) == r <==> Zones(host) <= 1)
            && (Zones(host) > 0 ==> exists j: nat, i: nat :: WithoutZone(host, r, j, i))
  {
    hide CountOf;
    Acts(host);
    Acts(RemoveZone(host));
    if Zones(host) > 0 {
      ZoneRemoved(host);
      var i := LastIndex(host, ']');
      var j := LastIndex(host[..i], '%');
      assert host[..i][j] == '%';
      assert WithoutZone(host, RemoveZone(host), j, i);
    }
  }

  lemma Acts(host: string)
    ensures RemoveZone(host) == host <==> Zones(host) == 0
  {
    if host != "" && host[0] == '[' && LastIndex(host, ']') >= 0 {
      CountSplit(host[..LastIndex(host, ']')], '%');
      if Zones(host) > 0 { ZoneRemoved(host); }
    }
  }

  // ---------- the Host line of the request prolog ----------

  /** The host that writeRequestProlog writes: the Host header if it has one, else the URL's. */
  function PrologHost(header: string, url: string, toASCII: string -> Option<string>): string {
    var host := CleanHost(header, toASCII);
    RemoveZone(if host == "" then CleanHost(url, toASCII) else host)
  }

  /** The Host line never carries a space or a slash, and no zone if the host named at most one. */
  lemma PrologHostClean(header: string, url: string, toASCII: string -> Option<string>)
    requires ASCII(header) && ASCII(url)
    ensures var r := PrologHost(header, url, toASCII);
            ' ' !in r && '/' !in r
    ensures var host := CleanHost(if CleanHost(header, toASCII) == "" then url else header, toASCII);
            Zones(host) <= 1 ==> Zones(PrologHost(header, url, toASCII)) == 0
  {
    hide CleanHost, Zones;
    CleanHostAscii(header, toASCII);
    CleanHostAscii(url, toASCII);
    RemoveZoneMeans(CleanHost(header, toASCII));
    RemoveZoneMeans(CleanHost(url, toASCII));
    Subset(CleanHost(header, toASCII));
    Subset(CleanHost(url, toASCII));
  }

  /** It is the Host header's host, and the URL's exactly if nothing is left of the header, which for an ASCII header
      means nothing before its first space or slash; with the text of the last zone taken out, if there is one. */
  lemma PrologHostIs(header: string, url: string, toASCII: string -> Option<string>)
    ensures var r := PrologHost(header, url, toASCII);
            var host := CleanHost(if CleanHost(header, toASCII) == "" then url else header, toASCII);
            if Zones(host) == 0 then r == host else exists j: nat, i: nat :: WithoutZone(host, r, j, i)
    ensures ASCII(header) ==> (CleanHost(header, toASCII) == "" <==> Truncate(header) == "")
  {
    hide CleanHost, Zones, RemoveZone, ASCII;
    var chosen := CleanHost(header, toASCII);
    if ASCII(header) { EmptyHost(header, toASCII); }
    var host := CleanHost(if chosen == "" then url else header, toASCII);
    assert PrologHost(header, url, toASCII) == RemoveZone(host);
    RemoveZoneMeans(host);
  }

  lemma EmptyHost(s: string, toASCII: string -> Option<string>)
    requires ASCII(s)
    ensures CleanHost(s, toASCII) == "" <==> Truncate(s) == ""
  {
    hide CleanHost;
    CleanHostIs(s, toASCII);
    if a :| NeedlessBrackets(Truncate(s), a) {
      assert |CleanHost(s, toASCII)| == |a.host| + 1 + |a.port| && |Truncate(s)| == |a.host| + |a.port| + 3;
    } else {
      assert forall a :: !NeedlessBrackets(Truncate(s), a);
    }
  }

  lemma Subset(host: string)
    ensures forall c :: c in RemoveZone(host) ==> c in host
  {
  }
}
