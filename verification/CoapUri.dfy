/** The textual options of a request: the resource path and the address to send responses to. */
module CoapUri {
  import opened CoapPdu
  import opened Options
  import Decimal

  const SLASH: byte := 47
  const COLON: byte := 58
  const MAX_TEXT: nat := 127   // the longest path or query the parser keeps

  const COAP_PREFIX: seq<byte> := [114, 101, 112, 108, 121, 45, 116, 111, 61, 99, 111, 97, 112, 58, 47, 47]
  const COAPS_PREFIX: seq<byte> := [114, 101, 112, 108, 121, 45, 116, 111, 61, 99, 111, 97, 112, 115, 58, 47, 47]
  const COAP_PORT: int := 5683
  const COAPS_PORT: int := 5684

  function Truncated(s: seq<byte>): seq<byte> {
    if |s| <= MAX_TEXT then s else s[..MAX_TEXT]
  }

  /** The path after one more segment, kept within its buffer. */
  function AppendSegment(path: Option<seq<byte>>, segment: seq<byte>): Option<seq<byte>> {
    Some(Truncated(if path.None? then segment else path.value + [SLASH] + segment))
  }

  function JoinedPath(path: Option<seq<byte>>, segments: seq<seq<byte>>): Option<seq<byte>>
    decreases |segments|
  {
    if segments == [] then path else JoinedPath(AppendSegment(path, segments[0]), segments[1..])
  }

  predicate Lacks(s: seq<byte>, c: byte) {
    forall k :: 0 <= k < |s| ==> s[k] != c
  }

  /** Position of the first `c` in `s`, or the length of `s`. */
  function Find(s: seq<byte>, c: byte): (i: nat)
    ensures i <= |s| && (i < |s| ==> s[i] == c)
  {
    if s == [] || s[0] == c then 0 else Find(s[1..], c) + 1
  }

  lemma {:induction false} FindIsFirst(s: seq<byte>, c: byte)
    ensures Lacks(s[..Find(s, c)], c)
  {
    if s != [] && s[0] != c {
      FindIsFirst(s[1..], c);
      assert s[..Find(s, c)] == s[..1] + s[1..][..Find(s[1..], c)];
    }
  }

  lemma {:induction false} FindAfter(s: seq<byte>, c: byte, rest: seq<byte>)
    requires Lacks(s, c) && rest != [] && rest[0] == c
    ensures Find(s + rest, c) == |s|
  {
    if s == [] {
      assert s + rest == rest;
    } else {
      assert (s + rest)[1..] == s[1..] + rest;
      FindAfter(s[1..], c, rest);
    }
  }

  predicate IsDigit(c: byte) {
    48 <= c <= 57
  }

  predicate IsSpace(c: byte) {
    c == 32 || 9 <= c <= 13
  }

  /** Length of the run of digits `s` begins with. */
  function DigitRun(s: seq<byte>): (n: nat)
    ensures n <= |s| && forall i :: 0 <= i < n ==> IsDigit(s[i])
  {
    if s == [] || !IsDigit(s[0]) then 0 else 1 + DigitRun(s[1..])
  }

  function SpaceRun(s: seq<byte>): (n: nat)
    ensures n <= |s|
  {
    if s == [] || !IsSpace(s[0]) then 0 else 1 + SpaceRun(s[1..])
  }

  function ToDigit(c: byte): Decimal.digit
    requires IsDigit(c)
  {
    c - 48
  }

  function ToByte(d: Decimal.digit): byte {
    d + 48
  }

  function DigitsOf(s: seq<byte>): seq<Decimal.digit>
    requires forall i :: 0 <= i < |s| ==> IsDigit(s[i])
  {
    seq(|s|, i requires 0 <= i < |s| => ToDigit(s[i]))
  }

  function TextOf(ds: seq<Decimal.digit>): seq<byte> {
    seq(|ds|, i requires 0 <= i < |ds| => ToByte(ds[i]))
  }

  datatype Number = Number(value: int, length: nat)

  /** The C library's strtol in base 10, without overflow: optional space, optional sign, digits. */
  function StrToL(s: seq<byte>): (n: Number)
    ensures n.length <= |s|
  {
    var spaces := SpaceRun(s);
    var signed := spaces < |s| && (s[spaces] == 43 || s[spaces] == 45);
    var start := if signed then spaces + 1 else spaces;
    var digits := DigitRun(s[start..]);
    if digits == 0 then Number(0, 0)
    else
      var v: int := Decimal.Value(DigitsOf(s[start..][..digits]));
      Number(if signed && s[spaces] == 45 then -v else v, start + digits)
  }

  /** reply-to=coap[s]://host[:port]/resource */
  function ParseUriQuery(q: seq<byte>): Option<ReplyTo> {
    if COAP_PREFIX <= q then ParseTarget(q[|COAP_PREFIX|..], false, COAP_PORT)
    else if COAPS_PREFIX <= q then ParseTarget(q[|COAPS_PREFIX|..], true, COAPS_PORT)
    else None
  }

  function ParseTarget(p: seq<byte>, encrypted: bool, defaultPort: int): Option<ReplyTo> {
    SplitTarget(p, Find(p, COLON), Find(p, SLASH), encrypted, defaultPort)
  }

  /** The host and the resource around the first slash, and the port if a colon comes before it. */
  function SplitTarget(p: seq<byte>, colon: nat, slash: nat, encrypted: bool, defaultPort: int): Option<ReplyTo>
    requires colon <= |p| && slash <= |p|
  {
    if slash == |p| then None
    else if colon < slash then
      var port := StrToL(p[colon + 1..]);
      if colon + 1 + port.length != slash then None
      else Some(ReplyTo(p[..colon], port.value, encrypted, p[slash + 1..]))
    else Some(ReplyTo(p[..slash], defaultPort, encrypted, p[slash + 1..]))
  }

  /** What a client announces: where its own server listens. */
  function FormUriQuery(r: ReplyTo): seq<byte>
    requires r.port >= 0
  {
    (if r.encrypted then COAPS_PREFIX else COAP_PREFIX) +
    (r.host + ([COLON] + (TextOf(Decimal.Digits(r.port)) + ([SLASH] + r.resource))))
  }

  lemma {:induction false} DigitRunOf(ds: seq<byte>, rest: seq<byte>)
    requires forall i :: 0 <= i < |ds| ==> IsDigit(ds[i])
    requires rest == [] || !IsDigit(rest[0])
    ensures DigitRun(ds + rest) == |ds|
  {
    if ds == [] {
      assert ds + rest == rest;
    } else {
      assert (ds + rest)[1..] == ds[1..] + rest;
      DigitRunOf(ds[1..], rest);
    }
  }

  lemma {:induction false} ReadsPort(port: nat, rest: seq<byte>)
    requires rest != [] && rest[0] == SLASH
    ensures var text := TextOf(Decimal.Digits(port)); StrToL(text + rest) == Number(port, |text|)
  {
    var text := TextOf(Decimal.Digits(port));
    assert forall i :: 0 <= i < |text| ==> IsDigit(text[i]);
    DigitRunOf(text, rest);
    assert IsDigit((text + rest)[0]);
    assert (text + rest)[0..] == text + rest;
    assert (text + rest)[..|text|] == text;
    assert DigitsOf(text) == Decimal.Digits(port);
    Decimal.ValueOfDigits(port);
  }

  /** The parser never yields a host with a separator in it. */
  lemma {:induction false} HostIsPlain(q: seq<byte>)
    ensures ParseUriQuery(q).Some? ==>
              Lacks(ParseUriQuery(q).value.host, COLON) && Lacks(ParseUriQuery(q).value.host, SLASH)
  {
    var p := if COAP_PREFIX <= q then q[|COAP_PREFIX|..] else if COAPS_PREFIX <= q then q[|COAPS_PREFIX|..] else [];
    FindIsFirst(p, COLON);
    FindIsFirst(p, SLASH);
    var slash, colon := Find(p, SLASH), Find(p, COLON);
    if colon < slash {
      assert p[..colon] == p[..slash][..colon];
    } else {
      assert p[..slash] == p[..colon][..slash];
    }
  }

  lemma {:induction false} Separators(host: seq<byte>, port: seq<byte>, resource: seq<byte>)
    requires Lacks(host, COLON) && Lacks(host, SLASH) && forall i :: 0 <= i < |port| ==> IsDigit(port[i])
    ensures var p := host + ([COLON] + (port + ([SLASH] + resource)));
            && Find(p, COLON) == |host| && Find(p, SLASH) == |host| + 1 + |port|
            && p[..|host|] == host && p[|host| + 1..] == port + ([SLASH] + resource)
            && p[|host| + 1 + |port| + 1..] == resource
  {
    var p := host + ([COLON] + (port + ([SLASH] + resource)));
    FindAfter(host, COLON, [COLON] + (port + ([SLASH] + resource)));
    assert p == (host + [COLON] + port) + ([SLASH] + resource);
    FindAfter(host + [COLON] + port, SLASH, [SLASH] + resource);
  }

  lemma {:induction false} TargetParts(p: seq<byte>, r: ReplyTo, portLength: nat, defaultPort: int)
    requires |r.host| + 1 + portLength < |p|
    requires Find(p, COLON) == |r.host| && Find(p, SLASH) == |r.host| + 1 + portLength
    requires p[..|r.host|] == r.host && p[|r.host| + 1 + portLength + 1..] == r.resource
    requires StrToL(p[|r.host| + 1..]) == Number(r.port, portLength)
    ensures ParseTarget(p, r.encrypted, defaultPort) == Some(r)
  {
    assert SplitTarget(p, |r.host|, |r.host| + 1 + portLength, r.encrypted, defaultPort) == Some(r);
  }

  lemma {:induction false} PortText(host: seq<byte>, port: seq<byte>, resource: seq<byte>, n: Number)
    requires Lacks(host, COLON) && Lacks(host, SLASH) && forall i :: 0 <= i < |port| ==> IsDigit(port[i])
    requires StrToL(port + ([SLASH] + resource)) == n
    ensures StrToL((host + ([COLON] + (port + ([SLASH] + resource))))[|host| + 1..]) == n
  {
    Separators(host, port, resource);
  }

  lemma {:induction false} TargetWithPort(r: ReplyTo, port: seq<byte>, defaultPort: int)
    requires Lacks(r.host, COLON) && Lacks(r.host, SLASH) && forall i :: 0 <= i < |port| ==> IsDigit(port[i])
    requires StrToL(port + ([SLASH] + r.resource)) == Number(r.port, |port|)
    ensures ParseTarget(r.host + ([COLON] + (port + ([SLASH] + r.resource))), r.encrypted, defaultPort) == Some(r)
  {
    Separators(r.host, port, r.resource);
    PortText(r.host, port, r.resource, Number(r.port, |port|));
    TargetParts(r.host + ([COLON] + (port + ([SLASH] + r.resource))), r, |port|, defaultPort);
  }

  lemma {:induction false} TargetRoundTrip(r: ReplyTo, defaultPort: int)
    requires r.port >= 0 && Lacks(r.host, COLON) && Lacks(r.host, SLASH)
    ensures ParseTarget(r.host + ([COLON] + (TextOf(Decimal.Digits(r.port)) + ([SLASH] + r.resource))), r.encrypted, defaultPort)
            == Some(r)
  {
    ReadsPort(r.port, [SLASH] + r.resource);
    TargetWithPort(r, TextOf(Decimal.Digits(r.port)), defaultPort);
  }

  lemma {:induction false} PrefixesApart(p: seq<byte>)
    ensures !(COAP_PREFIX <= COAPS_PREFIX + p)
    ensures (COAPS_PREFIX + p)[|COAPS_PREFIX|..] == p && (COAP_PREFIX + p)[|COAP_PREFIX|..] == p
  {
    assert (COAPS_PREFIX + p)[13] == 115;
  }

  /** A reply-to survives the trip exactly when its host contains no ':' and no '/'. An IPv6 literal
      contains the former, and is written without brackets: its requests cannot be answered. */
  lemma {:induction false} ReplyToRoundTrip(r: ReplyTo)
    requires r.port >= 0
    ensures ParseUriQuery(FormUriQuery(r)) == Some(r) <==> Lacks(r.host, COLON) && Lacks(r.host, SLASH)
  {
    HostIsPlain(FormUriQuery(r));
    if Lacks(r.host, COLON) && Lacks(r.host, SLASH) {
      var p := r.host + ([COLON] + (TextOf(Decimal.Digits(r.port)) + ([SLASH] + r.resource)));
      PrefixesApart(p);
      TargetRoundTrip(r, if r.encrypted then COAPS_PORT else COAP_PORT);
    }
  }
}
