/** Writing and parsing datagrams in the buffers they are sent from and received into. */
module CoapWriter {
  import opened CoapPdu
  import opened Options
  import opened CoapOptions
  import opened CoapBlockOption
  import opened CoapUri
  import opened CoapCodec
  import opened CoapRequests
  import Server = CoapServer

  /** The room that writing `opts` may need. */
  function Room(opts: seq<Opt>): nat {
    if opts == [] then 0 else MAX_OPTION_HEADER_SIZE + |opts[0].data| + Room(opts[1..])
  }

  function TotalLength(path: seq<seq<byte>>): nat {
    if path == [] then 0 else |path[0]| + TotalLength(path[1..])
  }

  /** The size the writer computes before it writes anything; six options besides the path. */
  function PduSize(m: Request): nat
    requires IsBlockSize(m.block.size)
  {
    HEADER_SIZE + |m.token| + (6 + |m.path|) * MAX_OPTION_HEADER_SIZE
    + |m.peer| + 2 + TotalLength(m.path) + 1 + |m.query| + |BlockValue(m.block)| + 2 + 1 + |m.payload|
  }

  lemma {:induction false} RoomOfPath(path: seq<seq<byte>>, rest: seq<Opt>)
    ensures Room(PathThen(path, rest)) == |path| * MAX_OPTION_HEADER_SIZE + TotalLength(path) + Room(rest)
    decreases |path|
  {
    if path != [] {
      RoomOfPath(path[1..], rest);
      assert PathThen(path, rest)[1..] == PathThen(path[1..], rest);
    }
  }

  lemma {:induction false} RoomOfClosing(m: Request)
    requires IsBlockSize(m.block.size)
    ensures Room(ClosingOptions(m)) == 4 * MAX_OPTION_HEADER_SIZE + 1 + |m.query| + |BlockValue(m.block)| + 2
  {
    var o := ClosingOptions(m);
    assert o[1..][1..] == o[2..] && o[2..][1..] == o[3..] && o[3..][1..] == [];
    assert Room(o) == 3 + 1 + Room(o[1..]) && Room(o[1..]) == 3 + |m.query| + Room(o[2..]);
    assert Room(o[2..]) == 3 + |BlockValue(m.block)| + Room(o[3..]);
  }

  /** The computed size is exactly the room for the options besides header, token, marker and payload. */
  lemma {:induction false} RoomOfRequest(m: Request)
    requires IsBlockSize(m.block.size)
    ensures PduSize(m) == HEADER_SIZE + |m.token| + Room(RequestOptions(m)) + 1 + |m.payload|
  {
    var o := RequestOptions(m);
    RoomOfClosing(m);
    RoomOfPath(m.path, ClosingOptions(m));
    assert o[1..][1..] == PathThen(m.path, ClosingOptions(m));
    assert Room(o) == 3 + |m.peer| + Room(o[1..]);
  }

  /** Writing option i leaves the later ones to be written. */
  lemma {:induction false} WroteOne(done: seq<byte>, opts: seq<Opt>, i: nat, last: nat, goal: seq<byte>)
    requires i < |opts| && CoapOptions.Writable(opts[i..], last) && done + EncodeOptions(opts[i..], last) == goal
    ensures last <= opts[i].number < last + LIMIT && |opts[i].data| < LIMIT
    ensures CoapOptions.Writable(opts[i + 1..], opts[i].number)
    ensures Room(opts[i..]) == MAX_OPTION_HEADER_SIZE + |opts[i].data| + Room(opts[i + 1..])
    ensures (done + EncodeOption(opts[i].number - last, opts[i].data)) + EncodeOptions(opts[i + 1..], opts[i].number) == goal
  {
    assert opts[i..][1..] == opts[i + 1..];
    OptionAndTheRest(done, EncodeOption(opts[i].number - last, opts[i].data), EncodeOptions(opts[i + 1..], opts[i].number));
  }

  /** Writes the options of a list one by one, as COAP_WriteOption's callers do. */
  method WriteOptions(opts: seq<Opt>, buf: array<byte>, p: nat) returns (q: nat)
    requires CoapOptions.Writable(opts, 0) && p + Room(opts) <= buf.Length
    modifies buf
    ensures p <= q <= p + Room(opts)
    ensures buf[..q] == old(buf[..p]) + EncodeOptions(opts, 0)
  {
    q := p;
    var i, last := 0, 0;
    ghost var goal := buf[..p] + EncodeOptions(opts, 0);
    assert opts[0..] == opts;
    while i < |opts|
      invariant i <= |opts| && CoapOptions.Writable(opts[i..], last)
      invariant p <= q && q + Room(opts[i..]) <= p + Room(opts)
      invariant buf[..q] + EncodeOptions(opts[i..], last) == goal
    {
      q := WriteNext(opts, i, last, buf, q, goal);
      last := opts[i].number;
      i := i + 1;
    }
    assert opts[i..] == [];
  }

  /** Writes option i on the way to `goal`. */
  method WriteNext(opts: seq<Opt>, i: nat, last: nat, buf: array<byte>, p: nat, ghost goal: seq<byte>) returns (q: nat)
    requires i < |opts| && CoapOptions.Writable(opts[i..], last) && p + Room(opts[i..]) <= buf.Length
    requires buf[..p] + EncodeOptions(opts[i..], last) == goal
    modifies buf
    ensures CoapOptions.Writable(opts[i + 1..], opts[i].number)
    ensures p <= q && q + Room(opts[i + 1..]) <= p + Room(opts[i..]) && q <= buf.Length
    ensures buf[..q] + EncodeOptions(opts[i + 1..], opts[i].number) == goal
  {
    WroteOne(buf[..p], opts, i, last, goal);
    q := WriteOption(opts[i].number, opts[i].data, buf, p, last);
  }

  lemma {:induction false} SizeOfImage(m: Request, n: nat)
    requires Expressible(m) && Encodable(RequestImage(m))
    requires n <= HEADER_SIZE + |m.token| + Room(RequestOptions(m))
    ensures n + 1 + |m.payload| <= PduSize(m)
  {
    RoomOfRequest(m);
  }

  /** Writes a header and a token. */
  method WriteHeader(t: PduType, pduClass: nat, code: nat, mid: nat, token: seq<byte>, buf: array<byte>) returns (p: nat)
    requires pduClass < 8 && code < 32 && mid < MESSAGE_IDS && |token| <= MAX_TOKEN_SIZE
    requires HEADER_SIZE + |token| <= buf.Length
    modifies buf
    ensures p == HEADER_SIZE + |token|
    ensures buf[..p] == Header(t, |token|, pduClass, code, mid) + token
  {
    buf[0] := VERSION * 64 + BitsOf(t) * 16 + |token|;
    buf[1] := pduClass * 32 + code;
    buf[2] := mid / 256 % 256;
    buf[3] := mid % 256;
    assert buf[..4] == Header(t, |token|, pduClass, code, mid);
    CopyInto(token, buf, 4);
    p := 4 + |token|;
  }

  /** Writes the marker and the payload behind it. */
  method WritePayload(payload: seq<byte>, buf: array<byte>, p: nat) returns (n: nat)
    requires p + 1 + |payload| <= buf.Length
    modifies buf
    ensures n == p + 1 + |payload|
    ensures buf[..n] == old(buf[..p]) + Tail(Some(payload))
  {
    buf[p] := END_MARKER;
    assert buf[..p + 1] == old(buf[..p]) + [END_MARKER];
    CopyInto(payload, buf, p + 1);
    n := p + 1 + |payload|;
  }

  /** Writes the request that carries a block, unless the buffer might be too small for it. */
  method WriteCoapBlock(m: Request, buf: array<byte>) returns (n: nat)
    requires Expressible(m)
    modifies buf
    ensures Encodable(RequestImage(m))
    ensures if PduSize(m) > buf.Length then n == 0 && buf[..] == old(buf[..])
            else 0 < n <= PduSize(m) && buf[..n] == Encode(RequestImage(m))
  {
    RequestEncodable(m);
    if PduSize(m) > buf.Length {
      return 0;
    }
    RoomOfRequest(m);
    var p := WriteHeader(Confirmable, REQUEST, POST, m.mid, m.token, buf);
    p := WriteOptions(RequestOptions(m), buf, p);
    SizeOfImage(m, p);
    n := WritePayload(m.payload, buf, p);
  }

  // ---------------------------------------------------------------------------------------
  // Acknowledgements.

  /** The responses a session sends: an error or a resource description with text behind a marker, or an
      acknowledgement without payload that may ask for another block. */
  predicate IsAck(r: Pdu) {
    && r == Bare(Acknowledgement, r.pduClass, r.code, r.mid, r.token).
              (block1 := r.block1, contentFormat := r.contentFormat, payload := r.payload)
    && (r.pduClass == SUCCESS || r.pduClass == CLIENT_ERROR) && r.code < 32
    && r.mid < MESSAGE_IDS && |r.token| <= MAX_TOKEN_SIZE
    && (r.contentFormat.Some? ==> r.contentFormat.value == LINK_FORMAT && r.pduClass == SUCCESS)
    && (r.block1.Some? ==> r.block1.value.num < 0x10_0000 && IsBlockSize(r.block1.value.size))
    && (if HasText(r) then r.block1.None? else r.payload == [])
  }

  predicate HasText(r: Pdu) {
    r.pduClass == CLIENT_ERROR || r.contentFormat.Some?
  }

  function AckOptions(r: Pdu): seq<Opt>
    requires IsAck(r)
  {
    (if r.contentFormat.Some? then [Opt(CONTENT_FORMAT, [LINK_FORMAT])] else []) +
    (if r.block1.Some? then [Opt(BLOCK1, BlockValue(r.block1.value))] else [])
  }

  function AckImage(r: Pdu): Image
    requires IsAck(r)
  {
    Image(Acknowledgement, r.pduClass, r.code, r.mid, r.token, AckOptions(r), if HasText(r) then Some(r.payload) else None)
  }

  /** At most one option: a content format or a block. */
  lemma {:induction false} AppliedAck(r: Pdu)
    requires IsAck(r)
    ensures Encodable(AckImage(r))
    ensures ApplyAll(Bareness(AckImage(r)), AckOptions(r)) == Parsed(r.(payload := []))
  {
    var p, o := Bareness(AckImage(r)), AckOptions(r);
    if r.block1.Some? {
      ValueOfBlock(r.block1.value);
      BlockRoundTrip(r.block1.value);
      assert o == [Opt(BLOCK1, BlockValue(r.block1.value))] && o[1..] == [];
      assert ApplyAll(p, o) == ApplyAll(p.(block1 := r.block1), []);
    } else if r.contentFormat.Some? {
      OneByteBack(LINK_FORMAT);
      assert o == [Opt(CONTENT_FORMAT, [LINK_FORMAT])] && o[1..] == [];
      assert ApplyAll(p, o) == ApplyAll(p.(contentFormat := r.contentFormat), []);
    }
  }

  /** A response reads back as it was written, except that an acknowledgement without marker comes with its
      own option bytes as payload. */
  lemma {:induction false} AckRoundTrip(r: Pdu)
    requires IsAck(r)
    ensures Encodable(AckImage(r))
    ensures ParseBytes(Encode(AckImage(r))) ==
              Parsed(r.(payload := if HasText(r) then r.payload else EncodeOptions(AckOptions(r), 0)))
    ensures ParseBytes(Encode(AckImage(r))) == Parsed(r) <==> HasText(r) || r.block1.None?
  {
    AppliedAck(r);
    PduRoundTrip(AckImage(r));
  }

  /** Writes a response. */
  method WriteCoapAck(r: Pdu, buf: array<byte>) returns (n: nat)
    requires IsAck(r)
    requires HEADER_SIZE + |r.token| + Room(AckOptions(r)) + 1 + |r.payload| <= buf.Length
    modifies buf
    ensures Encodable(AckImage(r)) && n <= buf.Length && buf[..n] == Encode(AckImage(r))
  {
    AppliedAck(r);
    n := WriteHeader(Acknowledgement, r.pduClass, r.code, r.mid, r.token, buf);
    n := WriteOptions(AckOptions(r), buf, n);
    if HasText(r) {
      n := WritePayload(r.payload, buf, n);
    }
  }

  // ---------------------------------------------------------------------------------------
  // Parsing.

  /** Parses the datagram in the buffer. */
  method ParsePdu(buf: array<byte>, len: nat) returns (r: Parse)
    requires len <= buf.Length
    ensures r == ParseBytes(buf[..len])
  {
    ghost var b := buf[..len];
    if len < HEADER_SIZE {
      return Unparsed(Bare(Confirmable, REQUEST, 0, 0, []), {IgnorePdu});
    }
    var tokenSize: nat, pduClass: nat := buf[0] % 16, buf[1] / 32;
    var p := Bare(TypeOf(buf[0] / 16 % 4), pduClass, buf[1] % 32, Shifted(buf[2], buf[3]), seq(tokenSize, _ => 0));
    assert p == HeaderPdu(b);
    if buf[0] / 64 != VERSION || pduClass == 1 || pduClass == 6 || pduClass == 7 {
      return Unparsed(p, {SendRst});
    }
    if tokenSize > MAX_TOKEN_SIZE || len - HEADER_SIZE < tokenSize {
      return Unparsed(p, {SendRst});
    }
    p := p.(token := buf[HEADER_SIZE..HEADER_SIZE + tokenSize]);
    r := ParseRest(p, buf, HEADER_SIZE + tokenSize, len);
    assert b[HEADER_SIZE + tokenSize..] == buf[HEADER_SIZE + tokenSize..len];
    assert b[HEADER_SIZE..HEADER_SIZE + tokenSize] == buf[HEADER_SIZE..HEADER_SIZE + tokenSize];
  }

  lemma {:induction false} ParseStep(b: seq<byte>, last: nat, p: Pdu)
    requires !Ends(b)
    ensures match WalkOption(b, last)
            case Malformed => ParseOptions(b, last, p) == Failed(p, {SendRst})
            case Walked(opt, next) =>
              ParseOptions(b, last, p) ==
                match ApplyOption(p, opt)
                case Unparsed(q, flags) => Failed(q, flags)
                case Parsed(q) => ParseOptions(b[next..], opt.number, q)
  {
  }

  /** What the end of the options means. */
  function Ended(r: OptionsParse, body: seq<byte>): Parse {
    match r
    case Failed(q, flags) => Unparsed(q, flags)
    case Done(q, tail) => Parsed(q.(payload := if tail == [] then body else tail[1..]))
  }

  /** Walks over the options and takes the payload. */
  method ParseRest(header: Pdu, buf: array<byte>, start: nat, len: nat) returns (r: Parse)
    requires start <= len <= buf.Length
    ensures r == ParseBody(header, buf[start..len])
  {
    var p := header;
    ghost var body := buf[start..len];
    var walker := new OptionWalker(buf, start, len);
    while walker.pos < len && buf[walker.pos] != END_MARKER
      invariant start <= walker.pos <= len && walker.buf == buf && walker.end == len && fresh(walker)
      invariant body == buf[start..len]
      invariant Ended(ParseOptions(buf[walker.pos..len], walker.option, p), body) == ParseBody(header, body)
      decreases len - walker.pos
    {
      var applied := ParseNext(walker, p);
      if applied.Unparsed? {
        return applied;
      }
      p := applied.pdu;
    }
    if walker.pos < len {
      assert buf[walker.pos..len][1..] == buf[walker.pos + 1..len];
      return Parsed(p.(payload := buf[walker.pos + 1..len]));
    }
    return Parsed(p.(payload := buf[start..len]));
  }

  /** Walks over one option and applies it. */
  method ParseNext(walker: OptionWalker, p: Pdu) returns (r: Parse)
    requires walker.pos < walker.end <= walker.buf.Length && walker.buf[walker.pos] != END_MARKER
    modifies walker
    ensures var whole := ParseOptions(walker.buf[old(walker.pos)..walker.end], old(walker.option), p);
            match r
            case Unparsed(q, flags) => whole == Failed(q, flags)
            case Parsed(q) =>
              && old(walker.pos) < walker.pos <= walker.end
              && whole == ParseOptions(walker.buf[walker.pos..walker.end], walker.option, q)
  {
    ghost var b, last, start := walker.buf[walker.pos..walker.end], walker.option, walker.pos;
    ghost var w := WalkOption(b, last);
    ParseStep(b, last, p);
    var ok := walker.WalkCoapOption();
    assert walker.buf[start..walker.end] == b;
    if !ok {
      return Unparsed(p, {SendRst});
    }
    assert w == Walked(Opt(walker.option, walker.value), walker.pos - start);
    assert walker.buf[walker.pos..walker.end] == b[walker.pos - start..];
    return ApplyOption(p, Opt(walker.option, walker.value));
  }
}
