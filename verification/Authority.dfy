/** Parsing a request's authority into host and port, and the name of the dynamic cluster
    that is derived from them. */
module Authority {
  import opened Decimals
  import opened FilterTypes

  const MAX_U64: nat := 0xFFFF_FFFF_FFFF_FFFF

  predicate IsSpace(c: char) { c == ' ' || '\t' <= c <= '\r' }

  // Reading a number as the C library does: blanks, a sign, digits, saturation.

  function SkipSpaces(s: string): string {
    if s != [] && IsSpace(s[0]) then SkipSpaces(s[1..]) else s
  }

  function StringToU64(s: string): (n: nat)
    ensures n <= MAX_U64
  {
    var t := SkipSpaces(s);
    var negative := t != [] && t[0] == '-';
    var value := Digits(if t != [] && (t[0] == '-' || t[0] == '+') then t[1..] else t, 0);
    if value > MAX_U64 then MAX_U64 else if negative && value > 0 then MAX_U64 + 1 - value else value
  }

  // The parser.

  datatype Attributes = Attributes(isIp: bool, host: string, port: nat)

  /** The position of the last colon, if there is one. */
  function LastColon(s: string): (r: Option<nat>)
    ensures r.Some? ==> r.value < |s| && s[r.value] == ':' && forall i :: r.value < i < |s| ==> s[i] != ':'
    ensures r.None? ==> ':' !in s
  {
    if s == [] then None
    else if s[|s| - 1] == ':' then Some(|s| - 1)
    else LastColon(s[..|s| - 1])
  }

  predicate Bracketed(s: string) { |s| >= 2 && s[0] == '[' && s[|s| - 1] == ']' }

  function Unbracketed(s: string): string {
    if Bracketed(s) then s[1..|s| - 1] else s
  }

  function Parse(isIp: string -> bool, authority: string): Attributes {
    var colon := LastColon(authority);
    var split := colon.Some? && authority[|authority| - 1] != ']';
    var host := if split then authority[..colon.value] else authority;
    var port := if split then StringToU64(authority[colon.value + 1..]) % 0x1_0000 else 0;
    if isIp(Unbracketed(host)) then Attributes(true, Unbracketed(host), port) else Attributes(false, host, port)
  }

  method FindLastColon(s: string) returns (r: Option<nat>)
    ensures r == LastColon(s)
  {
    var i := |s|;
    assert s[..|s|] == s;
    while i > 0
      invariant 0 <= i <= |s| && LastColon(s) == LastColon(s[..i])
    {
      i := i - 1;
      assert s[..i + 1][..i] == s[..i];
      if s[i] == ':' { return Some(i); }
    }
    return None;
  }

  /** The view without brackets, by its indices. */
  lemma UnbracketedView(s: string, length: nat)
    requires length <= |s|
    ensures if length > 0 && s[0] == '[' && s[length - 1] == ']' then
              length >= 2 && Unbracketed(s[..length]) == s[1..length - 1]
            else Unbracketed(s[..length]) == s[..length]
  {
    var host := s[..length];
    if Bracketed(host) { assert host[1..length - 1] == s[1..length - 1]; }
  }

  /** The parser as it runs: two views into one string, narrowed step by step; every index
      is in bounds. The address test is a call into the resolver. */
  method ParseAuthority(isIp: string -> bool, authority: string) returns (attributes: Attributes)
    ensures attributes == Parse(isIp, authority)
  {
    hide LastColon, StringToU64, Unbracketed;
    var colon := FindLastColon(authority);
    var start, length, port := 0, |authority|, 0;
    if colon.Some? && authority[length - 1] != ']' {
      length := colon.value;
      port := StringToU64(authority[colon.value + 1..]) % 0x1_0000;
    }
    UnbracketedView(authority, length);
    var ipStart, ipLength := start, length;
    if ipLength > 0 && authority[ipStart] == '[' && authority[ipStart + ipLength - 1] == ']' {
      ipStart := ipStart + 1;
      ipLength := ipLength - 2;
    }
    var ip := isIp(authority[ipStart..ipStart + ipLength]);
    if ip {
      start, length := ipStart, ipLength;
    }
    assert authority[..|authority|] == authority;
    attributes := Attributes(ip, authority[start..start + length], port);
  }

  lemma ReadDecimal(n: nat)
    requires n <= MAX_U64
    ensures StringToU64(Decimal(n)) == n
  {
    DigitsOfDecimal(n);
    assert IsDigit(Decimal(n)[0]);
  }

  lemma {:induction false} LastColonAt(host: string, tail: string)
    requires ':' !in tail
    ensures LastColon(host + ":" + tail) == Some(|host|)
  {
    var s := host + ":" + tail;
    var c := LastColon(s);
    assert s[|host|] == ':';
    assert forall i :: |host| < i < |s| ==> s[i] == tail[i - |host| - 1] && tail[i - |host| - 1] in tail;
  }

  /** An authority with a port splits at the last colon, so the host may contain colons. */
  lemma {:induction false} ParseWithPort(isIp: string -> bool, host: string, port: nat)
    requires port < 0x1_0000
    ensures Parse(isIp, host + ":" + Decimal(port)) ==
              if isIp(Unbracketed(host)) then Attributes(true, Unbracketed(host), port)
              else Attributes(false, host, port)
  {
    var tail := Decimal(port);
    var s := host + ":" + tail;
    NoColon(port);
    LastColonAt(host, tail);
    assert s[|s| - 1] == tail[|tail| - 1];
    assert s[..|host|] == host && s[|host| + 1..] == tail;
    ReadDecimal(port);
  }

  /** A bracketed address is recovered without its brackets, with or without a port. */
  lemma {:induction false} ParseBracketed(isIp: string -> bool, address: string)
    requires isIp(address)
    ensures Parse(isIp, "[" + address + "]") == Attributes(true, address, 0)
    ensures forall port: nat :: port < 0x1_0000 ==>
              Parse(isIp, "[" + address + "]" + ":" + Decimal(port)) == Attributes(true, address, port)
  {
    var host := "[" + address + "]";
    assert Unbracketed(host) == address;
    assert host[|host| - 1] == ']';
    forall port: nat | port < 0x1_0000
      ensures Parse(isIp, "[" + address + "]" + ":" + Decimal(port)) == Attributes(true, address, port)
    {
      ParseWithPort(isIp, host, port);
    }
  }

  /** An authority without a colon, or with none but inside brackets, has no port. */
  lemma {:induction false} ParseWithoutPort(isIp: string -> bool, host: string)
    requires ':' !in host || host[|host| - 1] == ']'
    ensures Parse(isIp, host) ==
              if isIp(Unbracketed(host)) then Attributes(true, Unbracketed(host), 0) else Attributes(false, host, 0)
  {
    var colon := LastColon(host);
    if colon.Some? { assert host[colon.value] in host; }
  }

  // The cluster of an authority.

  function EffectivePort(a: Attributes, default: nat): nat {
    if a.port != 0 then a.port else default
  }

  function ClusterName(isIp: string -> bool, authority: string, default: nat): string {
    var a := Parse(isIp, authority);
    "DFPCluster:" + a.host + ":" + Decimal(EffectivePort(a, default))
  }

  /** The port of an authority names the cluster, and the default one if it has none or says 0. */
  lemma {:induction false} ClusterOf(isIp: string -> bool, host: string, port: nat, default: nat)
    requires port < 0x1_0000 && ':' !in host
    ensures var name := if isIp(Unbracketed(host)) then Unbracketed(host) else host;
            ClusterName(isIp, host, default) == "DFPCluster:" + name + ":" + Decimal(default) &&
            ClusterName(isIp, host + ":0", default) == ClusterName(isIp, host, default) &&
            (port > 0 ==>
               ClusterName(isIp, host + ":" + Decimal(port), default) == "DFPCluster:" + name + ":" + Decimal(port))
  {
    hide Unbracketed, Decimal, Parse;
    ParseWithoutPort(isIp, host);
    ParseWithPort(isIp, host, port);
    ParseWithPort(isIp, host, 0);
    assert host + ":0" == host + ":" + Decimal(0) by { ZeroDecimal(); }
  }

  lemma ZeroDecimal()
    ensures Decimal(0) == "0"
  {}

  /** A name splits into host and port in one way only. */
  lemma {:induction false} NameSplits(h1: string, p1: nat, h2: string, p2: nat)
    requires "DFPCluster:" + h1 + ":" + Decimal(p1) == "DFPCluster:" + h2 + ":" + Decimal(p2)
    ensures h1 == h2 && p1 == p2
  {
    var prefix := "DFPCluster:";
    NoColon(p1);
    NoColon(p2);
    LastColonAt(prefix + h1, Decimal(p1));
    LastColonAt(prefix + h2, Decimal(p2));
    var n := prefix + h1 + ":" + Decimal(p1);
    assert h1 == n[|prefix|..|prefix| + |h1|] && h2 == n[|prefix|..|prefix| + |h2|];
    assert Decimal(p1) == n[|prefix| + |h1| + 1..] && Decimal(p2) == n[|prefix| + |h2| + 1..];
    DigitsOfDecimal(p1);
    DigitsOfDecimal(p2);
  }

  /** Two authorities share a cluster exactly when they mean the same host and port. */
  lemma {:induction false} SameClusterIff(isIp: string -> bool, a: string, b: string, default: nat)
    ensures ClusterName(isIp, a, default) == ClusterName(isIp, b, default) <==>
              Parse(isIp, a).host == Parse(isIp, b).host &&
              EffectivePort(Parse(isIp, a), default) == EffectivePort(Parse(isIp, b), default)
  {
    var x, y := Parse(isIp, a), Parse(isIp, b);
    if ClusterName(isIp, a, default) == ClusterName(isIp, b, default) {
      NameSplits(x.host, EffectivePort(x, default), y.host, EffectivePort(y, default));
    }
  }
}
