/** CoAP PDUs as bytes: parsing a datagram, and writing the requests and acknowledgements of the transport. */
module CoapCodec {
  import opened CoapPdu
  import opened Options
  import opened CoapOptions
  import opened CoapBlockOption
  import opened CoapUri

  const URI_HOST: nat := 3
  const URI_PORT: nat := 7
  const URI_PATH: nat := 11
  const CONTENT_FORMAT: nat := 12
  const URI_QUERY: nat := 15
  const BLOCK2: nat := 23
  const BLOCK1: nat := 27
  const SIZE1: nat := 60

  const VERSION: nat := 1
  const HEADER_SIZE: nat := 4
  const MAX_TOKEN_SIZE: nat := 8
  const MAX_OPTION_HEADER_SIZE: nat := 3

  // ---------------------------------------------------------------------------------------
  // Parsing.

  predicate WrongLength(o: Opt) {
    match o.number
    case 3 => o.data == []
    case 11 => o.data == []
    case 15 => o.data == []
    case 12 => |o.data| > 2
    case 7 => |o.data| != 2
    case 60 => |o.data| > 4
    case 27 => |o.data| > 3
    case _ => false
  }

  /** What one option does to the PDU parsed so far. */
  function ApplyOption(p: Pdu, o: Opt): Parse {
    if WrongLength(o) then Unparsed(p, {SendRst})
    else
      match o.number
      case 3 => Parsed(p)
      case 7 => Parsed(p)
      case 11 => Parsed(p.(uriPath := AppendSegment(p.uriPath, o.data)))
      case 12 => Parsed(p.(contentFormat := Some(Unsigned(o.data))))
      case 15 => ApplyQuery(p.(uriQuery := Some(Truncated(o.data))), ParseUriQuery(Truncated(o.data)))
      case 23 => Parsed(p)
      case 27 => Parsed(p.(block1 := Some(ParseBlock(o.data))))
      case 60 => Parsed(p.(totalSize := Some(Unsigned(o.data))))
      case n =>
        if n % 2 == 0 then Parsed(p)
        else Unparsed(p, if p.pduType == Confirmable then {SendAck, BadOption} else {SendRst})
  }

  function ApplyQuery(p: Pdu, replyTo: Option<ReplyTo>): Parse {
    if replyTo.None? then Unparsed(p, {SendAck, BadOption}) else Parsed(p.(replyTo := replyTo))
  }

  function ApplyAll(p: Pdu, opts: seq<Opt>): Parse
    decreases |opts|
  {
    if opts == [] then Parsed(p)
    else
      match ApplyOption(p, opts[0])
      case Unparsed(q, flags) => Unparsed(q, flags)
      case Parsed(q) => ApplyAll(q, opts[1..])
  }

  /** The PDU with the options in `b`, and where they end. */
  datatype OptionsParse = Done(pdu: Pdu, tail: seq<byte>) | Failed(partial: Pdu, flags: Flags)

  function ParseOptions(b: seq<byte>, last: nat, p: Pdu): OptionsParse
    decreases |b|
  {
    if Ends(b) then Done(p, b)
    else
      match WalkOption(b, last)
      case Malformed => Failed(p, {SendRst})
      case Walked(opt, next) =>
        match ApplyOption(p, opt)
        case Unparsed(q, flags) => Failed(q, flags)
        case Parsed(q) => ParseOptions(b[next..], opt.number, q)
  }

  function TypeOf(bits: nat): PduType {
    match bits
    case 0 => Confirmable
    case 1 => NonConfirmable
    case 2 => Acknowledgement
    case _ => Reset
  }

  function BitsOf(t: PduType): nat {
    match t
    case Confirmable => 0
    case NonConfirmable => 1
    case Acknowledgement => 2
    case Reset => 3
  }

  /** A PDU as far as its header goes; the token is all zeros until it has been read. */
  function HeaderPdu(b: seq<byte>): Pdu
    requires |b| >= HEADER_SIZE
  {
    Bare(TypeOf(b[0] / 16 % 4), b[1] / 32, b[1] % 32, Shifted(b[2], b[3]), seq(b[0] % 16, _ => 0))
  }

  predicate BadHeader(b: seq<byte>)
    requires |b| >= HEADER_SIZE
  {
    || b[0] / 64 != VERSION
    || b[1] / 32 == 1 || b[1] / 32 == 6 || b[1] / 32 == 7
    || b[0] % 16 > MAX_TOKEN_SIZE || |b| - HEADER_SIZE < b[0] % 16
  }

  function ParseBytes(b: seq<byte>): (r: Parse)
    ensures r.Unparsed? ==> IsParseFault(r.flags)
  {
    if |b| < HEADER_SIZE then Unparsed(Bare(Confirmable, REQUEST, 0, 0, []), {IgnorePdu})
    else if BadHeader(b) then Unparsed(HeaderPdu(b), {SendRst})
    else
      var size: nat := b[0] % 16;
      ParseBody(HeaderPdu(b).(token := b[HEADER_SIZE..HEADER_SIZE + size]), b[HEADER_SIZE + size..])
  }

  /** The options and the payload behind the token. Without a marker the payload is whatever follows the token. */
  function ParseBody(p: Pdu, body: seq<byte>): (r: Parse)
    ensures r.Unparsed? ==> IsParseFault(r.flags)
  {
    ParseFaults(body, 0, p);
    match ParseOptions(body, 0, p)
    case Failed(q, flags) => Unparsed(q, flags)
    case Done(q, tail) => Parsed(q.(payload := if tail == [] then body else tail[1..]))
  }

  lemma {:induction false} ParseFaults(b: seq<byte>, last: nat, p: Pdu)
    ensures var r := ParseOptions(b, last, p); r.Failed? ==> IsParseFault(r.flags)
    decreases |b|
  {
    if !Ends(b) && WalkOption(b, last).Walked? {
      var w := WalkOption(b, last);
      var a := ApplyOption(p, w.opt);
      if a.Parsed? {
        ParseFaults(b[w.next..], w.opt.number, a.pdu);
      }
    }
  }

  /** Parsing a list of options is reading the list, then applying it; it stops at the first option that does not fit. */
  lemma {:induction false} ParseListed(b: seq<byte>, last: nat, p: Pdu, opts: seq<Opt>, tail: seq<byte>)
    requires DecodeOptions(b, last) == Listed(opts, tail)
    ensures ParseOptions(b, last, p) ==
              match ApplyAll(p, opts) case Parsed(q) => Done(q, tail) case Unparsed(q, flags) => Failed(q, flags)
    decreases |b|
  {
    if !Ends(b) {
      var w := WalkOption(b, last);
      assert opts[0] == w.opt;
      assert DecodeOptions(b[w.next..], w.opt.number) == Listed(opts[1..], tail);
      var a := ApplyOption(p, w.opt);
      if a.Parsed? {
        ParseListed(b[w.next..], w.opt.number, a.pdu, opts[1..], tail);
      }
    }
  }

  // ---------------------------------------------------------------------------------------
  // What is written: a header, a token, options, and a payload behind a marker.

  datatype Image = Image(
    pduType: PduType,
    pduClass: nat,
    code: nat,
    mid: nat,
    token: seq<byte>,
    opts: seq<Opt>,
    payload: Option<seq<byte>>)   // None: no marker

  predicate Encodable(m: Image) {
    && m.pduClass in {0, 2, 3, 4, 5} && m.code < 32 && m.mid < MESSAGE_IDS && |m.token| <= MAX_TOKEN_SIZE
    && CoapOptions.Writable(m.opts, 0)
  }

  function Header(t: PduType, tokenSize: nat, pduClass: nat, code: nat, mid: nat): seq<byte>
    requires tokenSize < 16 && pduClass < 8 && code < 32 && mid < MESSAGE_IDS
  {
    [VERSION * 64 + BitsOf(t) * 16 + tokenSize, pduClass * 32 + code] + TwoBytes(mid)
  }

  function Tail(payload: Option<seq<byte>>): seq<byte> {
    if payload.None? then [] else [END_MARKER] + payload.value
  }

  function Encode(m: Image): seq<byte>
    requires Encodable(m)
  {
    Header(m.pduType, |m.token|, m.pduClass, m.code, m.mid) + m.token + EncodeOptions(m.opts, 0) + Tail(m.payload)
  }

  function Bareness(m: Image): Pdu {
    Bare(m.pduType, m.pduClass, m.code, m.mid, m.token)
  }

  lemma {:induction false} HeaderFields(t: PduType, tokenSize: nat, pduClass: nat, code: nat, mid: nat)
    requires tokenSize < 16 && pduClass < 8 && code < 32 && mid < MESSAGE_IDS
    ensures var h := Header(t, tokenSize, pduClass, code, mid);
            && |h| == HEADER_SIZE && h[0] / 64 == VERSION && TypeOf(h[0] / 16 % 4) == t && h[0] % 16 == tokenSize
            && h[1] / 32 == pduClass && h[1] % 32 == code && Shifted(h[2], h[3]) == mid
  {
  }

  lemma {:induction false} HeaderAndToken(b: seq<byte>, t: PduType, pduClass: nat, code: nat, mid: nat, token: seq<byte>)
    requires pduClass in {0, 2, 3, 4, 5} && |token| <= MAX_TOKEN_SIZE && |b| >= HEADER_SIZE + |token|
    requires b[0] / 64 == VERSION && TypeOf(b[0] / 16 % 4) == t && b[0] % 16 == |token|
    requires b[1] / 32 == pduClass && b[1] % 32 == code && Shifted(b[2], b[3]) == mid
    requires b[HEADER_SIZE..HEADER_SIZE + |token|] == token
    ensures ParseBytes(b) == ParseBody(Bare(t, pduClass, code, mid, token), b[HEADER_SIZE + |token|..])
  {
  }

  lemma {:induction false} HeaderRoundTrip(t: PduType, pduClass: nat, code: nat, mid: nat, token: seq<byte>, body: seq<byte>)
    requires pduClass in {0, 2, 3, 4, 5} && code < 32 && mid < MESSAGE_IDS && |token| <= MAX_TOKEN_SIZE
    ensures ParseBytes(Header(t, |token|, pduClass, code, mid) + token + body) ==
              ParseBody(Bare(t, pduClass, code, mid, token), body)
  {
    var h := Header(t, |token|, pduClass, code, mid);
    HeaderFields(t, |token|, pduClass, code, mid);
    Sections(h, token, body);
    HeaderAndToken(h + token + body, t, pduClass, code, mid, token);
  }

  lemma {:induction false} Sections(h: seq<byte>, token: seq<byte>, body: seq<byte>)
    requires |h| == HEADER_SIZE
    ensures var b := h + token + body;
            && b[0] == h[0] && b[1] == h[1] && b[2] == h[2] && b[3] == h[3]
            && b[HEADER_SIZE..HEADER_SIZE + |token|] == token && b[HEADER_SIZE + |token|..] == body
  {
  }

  /** Parsing what has been written amounts to applying the options to the header, and taking the payload;
      without a marker the encoded options come back as payload. */
  lemma {:induction false} PduRoundTrip(m: Image)
    requires Encodable(m)
    ensures ParseBytes(Encode(m)) ==
              match ApplyAll(Bareness(m), m.opts)
              case Unparsed(q, flags) => Unparsed(q, flags)
              case Parsed(q) =>
                Parsed(q.(payload := if m.payload.Some? then m.payload.value else EncodeOptions(m.opts, 0)))
  {
    var body := EncodeOptions(m.opts, 0) + Tail(m.payload);
    assert Encode(m) == Header(m.pduType, |m.token|, m.pduClass, m.code, m.mid) + m.token + body;
    HeaderRoundTrip(m.pduType, m.pduClass, m.code, m.mid, m.token, body);
    OptionListRoundTrip(m.opts, 0, Tail(m.payload));
    ParseListed(body, 0, Bareness(m), m.opts, Tail(m.payload));
  }

  // ---------------------------------------------------------------------------------------
  // Nothing else is accepted.

  predicate SameHeader(p: Pdu, q: Pdu) {
    q.pduType == p.pduType && q.pduClass == p.pduClass && q.code == p.code && q.mid == p.mid && q.token == p.token
  }

  lemma {:induction false} OptionsKeepHeader(b: seq<byte>, last: nat, p: Pdu)
    ensures var r := ParseOptions(b, last, p); r.Done? ==> SameHeader(p, r.pdu)
    decreases |b|
  {
    if !Ends(b) && WalkOption(b, last).Walked? {
      var w := WalkOption(b, last);
      var a := ApplyOption(p, w.opt);
      if a.Parsed? {
        OptionsKeepHeader(b[w.next..], w.opt.number, a.pdu);
      }
    }
  }

  lemma {:induction false} HeaderOf(b: seq<byte>)
    requires |b| >= HEADER_SIZE && b[0] / 64 == VERSION
    ensures Header(TypeOf(b[0] / 16 % 4), b[0] % 16, b[1] / 32, b[1] % 32, Shifted(b[2], b[3])) == b[..HEADER_SIZE]
  {
  }

  lemma {:induction false} GoodHeader(b: seq<byte>)
    requires |b| >= HEADER_SIZE && !BadHeader(b)
    ensures var p := HeaderPdu(b); p.pduClass in {0, 2, 3, 4, 5} && p.code < 32 && p.mid < MESSAGE_IDS
    ensures b[0] / 64 == VERSION && b[0] % 16 <= MAX_TOKEN_SIZE && HEADER_SIZE + b[0] % 16 <= |b|
  {
    var high: nat := b[1] / 32;
    assert high in {0, 2, 3, 4, 5};
  }

  /** Whatever datagram is accepted begins with the header and the token of the PDU it is parsed to, as section 3 of
      RFC 7252 lays them out: the version is 1, the class is not reserved, and the token is all there and not longer
      than 8 bytes. */
  lemma {:induction false} AcceptedHeader(b: seq<byte>)
    requires ParseBytes(b).Parsed?
    ensures var p := ParseBytes(b).pdu;
            && p.pduClass in {0, 2, 3, 4, 5} && p.code < 32 && p.mid < MESSAGE_IDS && |p.token| <= MAX_TOKEN_SIZE
            && Header(p.pduType, |p.token|, p.pduClass, p.code, p.mid) + p.token <= b
  {
    var size: nat := b[0] % 16;
    var token, body := b[HEADER_SIZE..HEADER_SIZE + size], b[HEADER_SIZE + size..];
    GoodHeader(b);
    OptionsKeepHeader(body, 0, HeaderPdu(b).(token := token));
    HeaderOf(b);
    assert b[..HEADER_SIZE] + token == b[..HEADER_SIZE + size];
  }
}
