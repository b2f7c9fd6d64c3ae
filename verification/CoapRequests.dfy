/** The two PDUs of a block-wise transfer as datagrams: the request that carries a block, written by the
    client, and the acknowledgement that answers it, written by the server. */
module CoapRequests {
  import opened CoapPdu
  import opened Options
  import opened CoapOptions
  import opened CoapBlockOption
  import opened CoapUri
  import opened CoapCodec
  import Client = CoapClient

  datatype Request = Request(
    mid: nat,
    token: seq<byte>,
    peer: seq<byte>,            // numeric address of the peer, as text
    port: nat,
    path: seq<seq<byte>>,       // decoded segments of the resource
    query: seq<byte>,
    block: Block1,
    recordSize: nat,
    payload: seq<byte>)

  /** What the writer demands of its caller: it asserts the limits on option lengths. */
  predicate Expressible(m: Request) {
    && m.mid < MESSAGE_IDS && |m.token| <= MAX_TOKEN_SIZE
    && |m.peer| < LIMIT && |m.query| < LIMIT && IsBlockSize(m.block.size)
    && (forall i :: 0 <= i < |m.path| ==> |m.path[i]| < LIMIT)
  }

  function PathThen(path: seq<seq<byte>>, rest: seq<Opt>): seq<Opt>
    decreases |path|
  {
    if path == [] then rest else [Opt(URI_PATH, path[0])] + PathThen(path[1..], rest)
  }

  /** The options behind the path. */
  function ClosingOptions(m: Request): seq<Opt>
    requires IsBlockSize(m.block.size)
  {
    [Opt(CONTENT_FORMAT, [OCTET_STREAM]), Opt(URI_QUERY, m.query), Opt(BLOCK1, BlockValue(m.block)),
     Opt(SIZE1, TwoBytes(m.recordSize))]
  }

  function RequestOptions(m: Request): seq<Opt>
    requires IsBlockSize(m.block.size)
  {
    [Opt(URI_HOST, m.peer), Opt(URI_PORT, TwoBytes(m.port))] + PathThen(m.path, ClosingOptions(m))
  }

  function RequestImageOf(m: Request, opts: seq<Opt>): Image {
    Image(Confirmable, REQUEST, POST, m.mid, m.token, opts, Some(m.payload))
  }

  function RequestImage(m: Request): Image
    requires IsBlockSize(m.block.size)
  {
    RequestImageOf(m, RequestOptions(m))
  }

  /** The request as its receiver is meant to see it. */
  function RequestPdu(m: Request): Pdu {
    Assembled(m, JoinedPath(None, m.path), ParseUriQuery(m.query), m.recordSize % 0x1_0000)
  }

  function Assembled(m: Request, path: Option<seq<byte>>, replyTo: Option<ReplyTo>, size: nat): Pdu {
    Pdu(Confirmable, REQUEST, POST, m.mid, m.token, Some(m.block), path, Some(m.query), replyTo,
        Some(OCTET_STREAM), Some(size), m.payload)
  }

  lemma {:induction false} ClosingWritable(m: Request, last: nat)
    requires Expressible(m) && (last == URI_PORT || last == URI_PATH)
    ensures CoapOptions.Writable(ClosingOptions(m), last)
  {
    var o := ClosingOptions(m);
    ValueOfBlock(m.block);
    assert o[3..][1..] == [] && o[2..][1..] == o[3..] && o[1..][1..] == o[2..];
    assert CoapOptions.Writable(o[3..], BLOCK1);
    assert CoapOptions.Writable(o[2..], URI_QUERY);
    assert CoapOptions.Writable(o[1..], CONTENT_FORMAT);
  }

  lemma {:induction false} PathWritable(m: Request, path: seq<seq<byte>>, last: nat)
    requires Expressible(m) && (last == URI_PORT || last == URI_PATH)
    requires forall i :: 0 <= i < |path| ==> |path[i]| < LIMIT
    ensures CoapOptions.Writable(PathThen(path, ClosingOptions(m)), last)
    decreases |path|
  {
    if path == [] {
      ClosingWritable(m, last);
    } else {
      PathWritable(m, path[1..], URI_PATH);
      assert PathThen(path, ClosingOptions(m))[1..] == PathThen(path[1..], ClosingOptions(m));
    }
  }

  lemma {:induction false} RequestEncodable(m: Request)
    requires Expressible(m)
    ensures Encodable(RequestImage(m))
  {
    PathWritable(m, m.path, URI_PORT);
    var o := RequestOptions(m);
    assert o[1..][1..] == PathThen(m.path, ClosingOptions(m));
    assert CoapOptions.Writable(o[1..], URI_HOST);
  }

  // ---------------------------------------------------------------------------------------
  // Reading a request back.

  predicate NoneEmpty(path: seq<seq<byte>>) {
    forall i :: 0 <= i < |path| ==> path[i] != []
  }

  lemma {:induction false} ApplyPath(p: Pdu, path: seq<seq<byte>>, rest: seq<Opt>)
    ensures if NoneEmpty(path)
            then ApplyAll(p, PathThen(path, rest)) == ApplyAll(p.(uriPath := JoinedPath(p.uriPath, path)), rest)
            else ApplyAll(p, PathThen(path, rest)).Unparsed?
    decreases |path|
  {
    if path == [] {
      assert p.(uriPath := JoinedPath(p.uriPath, path)) == p;
    } else if path[0] != [] {
      var q := p.(uriPath := AppendSegment(p.uriPath, path[0]));
      ApplyPath(q, path[1..], rest);
      assert NoneEmpty(path) <==> NoneEmpty(path[1..]);
      assert PathThen(path, rest)[1..] == PathThen(path[1..], rest);
    }
  }

  /** The options behind the path, read one after the other. */
  lemma {:induction false} ApplyClosing(p: Pdu, m: Request)
    requires Expressible(m)
    ensures var replyTo := ParseUriQuery(Truncated(m.query));
            var q := p.(contentFormat := Some(OCTET_STREAM), uriQuery := Some(Truncated(m.query)));
            ApplyAll(p, ClosingOptions(m)) ==
              if m.query == [] then Unparsed(p.(contentFormat := Some(OCTET_STREAM)), {SendRst})
              else if replyTo.None? then Unparsed(q, {SendAck, BadOption})
              else Parsed(q.(replyTo := replyTo, block1 := Some(m.block.(num := m.block.num % 0x10_0000)),
                             totalSize := Some(m.recordSize % 0x1_0000)))
  {
    var o := ClosingOptions(m);
    OneByteBack(OCTET_STREAM);
    var p1 := p.(contentFormat := Some(OCTET_STREAM));
    assert ApplyAll(p, o) == ApplyAll(p1, o[1..]);
    if m.query != [] && ParseUriQuery(Truncated(m.query)).Some? {
      var p2 := p1.(uriQuery := Some(Truncated(m.query)), replyTo := ParseUriQuery(Truncated(m.query)));
      assert ApplyAll(p1, o[1..]) == ApplyAll(p2, o[2..]);
      ApplyLast(p2, m);
    }
  }

  lemma {:induction false} ApplyLast(p: Pdu, m: Request)
    requires Expressible(m)
    ensures ApplyAll(p, ClosingOptions(m)[2..]) ==
              Parsed(p.(block1 := Some(m.block.(num := m.block.num % 0x10_0000)),
                        totalSize := Some(m.recordSize % 0x1_0000)))
  {
    var o := ClosingOptions(m)[2..];
    ValueOfBlock(m.block);
    BlockReadBack(m.block);
    TwoBytesBack(m.recordSize);
    var q := p.(block1 := Some(m.block.(num := m.block.num % 0x10_0000)));
    assert ApplyAll(p, o) == ApplyAll(q, o[1..]);
    assert o[1..][1..] == [];
  }

  /** Whether a written request reads back as it was meant: the peer's address and the path segments are not
      empty, the query announces a reply-to and fits the receiver's buffer, and the block number fits its field. */
  predicate Readable(m: Request) {
    && m.peer != [] && NoneEmpty(m.path) && |m.query| <= MAX_TEXT && ParseUriQuery(m.query).Some?
    && m.block.num < 0x10_0000
  }

  lemma {:induction false} ApplyRequest(m: Request)
    requires Expressible(m) && m.peer != [] && NoneEmpty(m.path)
    ensures ApplyAll(Bareness(RequestImage(m)), RequestOptions(m)) ==
              ApplyAll(Bareness(RequestImage(m)).(uriPath := JoinedPath(None, m.path)), ClosingOptions(m))
  {
    var p, o := Bareness(RequestImage(m)), RequestOptions(m);
    assert ApplyAll(p, o) == ApplyAll(p, o[1..]);
    assert ApplyAll(p, o[1..]) == ApplyAll(p, o[1..][1..]);
    assert o[1..][1..] == PathThen(m.path, ClosingOptions(m));
    ApplyPath(p, m.path, ClosingOptions(m));
  }

  lemma {:induction false} UnreadablePath(m: Request)
    requires Expressible(m) && !(m.peer != [] && NoneEmpty(m.path))
    ensures ApplyAll(Bareness(RequestImage(m)), RequestOptions(m)).Unparsed?
  {
    var p, o := Bareness(RequestImage(m)), RequestOptions(m);
    if m.peer != [] {
      assert ApplyAll(p, o) == ApplyAll(p, o[1..]);
      assert ApplyAll(p, o[1..]) == ApplyAll(p, o[1..][1..]);
      assert o[1..][1..] == PathThen(m.path, ClosingOptions(m));
      ApplyPath(p, m.path, ClosingOptions(m));
    }
  }

  lemma {:induction false} EmptyQuery()
    ensures ParseUriQuery([]).None?
  {
    assert |COAP_PREFIX| > 0 && |COAPS_PREFIX| > 0;
  }

  lemma {:induction false} NumberKept(n: nat)
    ensures n % 0x10_0000 == n <==> n < 0x10_0000
  {
  }

  lemma {:induction false} QueryKept(q: seq<byte>)
    ensures Truncated(q) == q <==> |q| <= MAX_TEXT
  {
  }

  /** Compares what the closing options lead to with what was meant: `kept` is the query as the receiver
      stores it, `replyTo` what it parses to, and `num` the block number as read. */
  lemma {:induction false} ClosingCompared(m: Request, path: Option<seq<byte>>, size: nat,
                                           kept: seq<byte>, replyTo: Option<ReplyTo>, meant: Option<ReplyTo>, num: nat)
    requires kept == m.query ==> replyTo == meant
    ensures Bareness(RequestImageOf(m, [])).
              (uriPath := path, contentFormat := Some(OCTET_STREAM), uriQuery := Some(kept), replyTo := replyTo,
               block1 := Some(m.block.(num := num)), totalSize := Some(size), payload := m.payload)
            == Assembled(m, path, meant, size) <==>
            kept == m.query && num == m.block.num
  {
  }

  /** The PDU that applying the options of a request leads to, if its path can be read. */
  lemma {:induction false} AppliedRequest(m: Request)
    requires Expressible(m) && m.peer != [] && NoneEmpty(m.path)
    ensures var a := ApplyAll(Bareness(RequestImage(m)), RequestOptions(m));
            a.Parsed? && a.pdu.(payload := m.payload) == RequestPdu(m) <==> Readable(m)
  {
    ApplyRequest(m);
    var p := Bareness(RequestImage(m)).(uriPath := JoinedPath(None, m.path));
    var kept, replyTo := Truncated(m.query), ParseUriQuery(Truncated(m.query));
    ApplyClosing(p, m);
    EmptyQuery();
    QueryKept(m.query);
    NumberKept(m.block.num);
    ClosingCompared(m, JoinedPath(None, m.path), m.recordSize % 0x1_0000, kept, replyTo, ParseUriQuery(m.query),
                    m.block.num % 0x10_0000);
  }

  lemma {:induction false} ParsedRequest(m: Request)
    requires Expressible(m) && Encodable(RequestImage(m))
    ensures var a := ApplyAll(Bareness(RequestImage(m)), RequestOptions(m));
            ParseBytes(Encode(RequestImage(m))) == if a.Parsed? then Parsed(a.pdu.(payload := m.payload)) else a
  {
    PduRoundTrip(RequestImage(m));
  }

  /** A written request reads back as it was meant exactly if it is readable. */
  lemma {:induction false} RequestRoundTrip(m: Request)
    requires Expressible(m)
    ensures Encodable(RequestImage(m))
    ensures ParseBytes(Encode(RequestImage(m))) == Parsed(RequestPdu(m)) <==> Readable(m)
  {
    RequestEncodable(m);
    ParsedRequest(m);
    if m.peer != [] && NoneEmpty(m.path) {
      AppliedRequest(m);
    } else {
      UnreadablePath(m);
    }
  }
}
