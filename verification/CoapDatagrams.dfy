/** The transport's runs exchange PDUs; these results say that exchanging them as datagrams is the same. */
module CoapDatagrams {
  import opened CoapPdu
  import opened Options
  import opened CoapOptions
  import opened CoapBlockOption
  import opened CoapUri
  import opened CoapCodec
  import opened CoapRequests
  import opened CoapWriter
  import Client = CoapClient
  import Network = CoapNetwork
  import Server = CoapServer

  // ---------------------------------------------------------------------------------------
  // From the client to the server.

  /** The request for the client's current block; `peer` is the address it is connected to, as text. */
  function RequestOf(c: Client.Client, peer: seq<byte>): Request
    requires Client.Writable(c)
  {
    var item := c.queue[0];
    Request(c.mid, c.token, peer, item.port, item.path, c.uriQuery,
            Block1(c.curBlock, !Client.OnLastBlock(c), c.blockSize), |item.record|,
            item.record[c.bytesSent..][..Min(c.blockSize, Client.Remaining(c))])
  }

  lemma {:induction false} RequestOfBlock(c: Client.Client, peer: seq<byte>)
    requires Client.Writable(c)
    ensures RequestPdu(RequestOf(c, peer)) == Client.BlockPdu(c)
  {
  }

  /** Nothing but the announced reply-to stands between the request and its readability. */
  predicate Deliverable(m: Request) {
    && Expressible(m) && m.peer != [] && NoneEmpty(m.path) && m.query != [] && |m.query| <= MAX_TEXT
    && m.block.num < 0x10_0000
  }

  /** A request that announces no reply-to is refused; what was parsed of it has its message id and token. */
  lemma {:induction false} UnanswerableRequest(m: Request)
    requires Deliverable(m) && ParseUriQuery(m.query).None?
    ensures Encodable(RequestImage(m))
    ensures var r := ParseBytes(Encode(RequestImage(m)));
            && r.Unparsed? && r.flags == {SendAck, BadOption}
            && r.partial.mid == m.mid && r.partial.token == m.token
  {
    RequestEncodable(m);
    ParsedRequest(m);
    ApplyRequest(m);
    QueryKept(m.query);
    ApplyClosing(Bareness(RequestImage(m)).(uriPath := JoinedPath(None, m.path)), m);
  }

  /** What the server does with the datagram of a block is what it does, in a run, with the block. */
  lemma {:induction false} DatagramArrives(c: Client.Client, peer: seq<byte>, s: Server.Session, listen: seq<byte>,
                                           e: Server.Surroundings)
    requires Client.Writable(c) && Deliverable(RequestOf(c, peer))
    ensures Encodable(RequestImage(RequestOf(c, peer)))
    ensures Server.ReceiveAny(s, ParseBytes(Encode(RequestImage(RequestOf(c, peer)))), listen, e) ==
            Server.ReceiveAny(s, Network.Arrival(Client.CurrentEntry(c)), listen, e)
  {
    var m := RequestOf(c, peer);
    RequestOfBlock(c, peer);
    RequestRoundTrip(m);
    if ParseUriQuery(m.query).None? {
      UnanswerableRequest(m);
    }
  }

  // ---------------------------------------------------------------------------------------
  // From the server to the client.

  /** What every parsed PDU satisfies, whatever the bytes. */
  predicate InRange(p: Pdu) {
    && p.mid < MESSAGE_IDS && |p.token| < 16
    && (p.block1.Some? ==> p.block1.value.num < 0x10_0000 && IsReceivedSize(p.block1.value.size))
  }

  lemma {:induction false} BlockInRange(s: seq<byte>)
    requires |s| <= 3
    ensures ParseBlock(s).num < 0x10_0000 && IsReceivedSize(ParseBlock(s).size)
  {
    ParsedSize(s);
    if |s| == 1 {
      assert s == [s[0]];
      OneByteBack(s[0]);
    } else if |s| == 2 {
      UnsignedOfTwo(s);
    } else if |s| == 3 {
      UnsignedOfThree(s);
    }
  }

  lemma {:induction false} OptionsInRange(b: seq<byte>, last: nat, p: Pdu)
    requires InRange(p)
    ensures match ParseOptions(b, last, p)
            case Done(q, _) => InRange(q) && q.token == p.token
            case Failed(q, _) => InRange(q) && q.token == p.token
    decreases |b|
  {
    if !Ends(b) && WalkOption(b, last).Walked? {
      var w := WalkOption(b, last);
      if w.opt.number == BLOCK1 && |w.opt.data| <= 3 {
        BlockInRange(w.opt.data);
      }
      var a := ApplyOption(p, w.opt);
      if a.Parsed? {
        OptionsInRange(b[w.next..], w.opt.number, a.pdu);
      }
    }
  }

  lemma {:induction false} HeaderInRange(b: seq<byte>)
    requires |b| >= HEADER_SIZE
    ensures InRange(HeaderPdu(b)) && HeaderPdu(b).block1.None?
  {
  }

  lemma {:induction false} BodyInRange(p: Pdu, body: seq<byte>)
    requires InRange(p)
    ensures match ParseBody(p, body)
            case Parsed(q) => InRange(q) && q.token == p.token
            case Unparsed(q, _) => InRange(q) && q.token == p.token
  {
    OptionsInRange(body, 0, p);
  }

  lemma {:induction false} ParsedInRange(b: seq<byte>)
    ensures match ParseBytes(b)
            case Parsed(p) => InRange(p) && |p.token| <= MAX_TOKEN_SIZE
            case Unparsed(p, flags) => InRange(p) && (SendAck in flags ==> |p.token| <= MAX_TOKEN_SIZE)
  {
    if |b| >= HEADER_SIZE {
      HeaderInRange(b);
      if !BadHeader(b) {
        var size: nat := b[0] % 16;
        BodyInRange(HeaderPdu(b).(token := b[HEADER_SIZE..HEADER_SIZE + size]), b[HEADER_SIZE + size..]);
      }
    }
  }

  /** The response a session would repeat can be written. */
  predicate SavedOk(s: Server.Session) {
    s.last.Some? ==> IsAck(s.last.value.response)
  }

  predicate IsRst(r: Pdu) {
    r == Bare(Reset, REQUEST, 0, r.mid, r.token) && r.mid < MESSAGE_IDS
  }

  predicate Writable(o: Server.Outcome) {
    SavedOk(o.session) && (o.reply.Some? ==> IsAck(o.reply.value) || IsRst(o.reply.value))
  }

  lemma {:induction false} ParsedReplyWritable(s: Server.Session, p: Pdu, listen: seq<byte>, e: Server.Surroundings)
    requires SavedOk(s) && InRange(p) && |p.token| <= MAX_TOKEN_SIZE && IsBlockSize(e.preferredSize)
    ensures Writable(Server.Receive(s, p, listen, e))
  {
    RejectionWritable(p, BadRequest, e);
    ProgressWritable(p, e);
    var v := Server.Judge(s, p, listen);
    if v.Reject? {
      RejectionWritable(p, v.fault, e);
    }
  }

  /** Whatever datagram arrives, the response to it can be written, now and when it is repeated. */
  lemma {:induction false} RepliesAreWritable(s: Server.Session, b: seq<byte>, listen: seq<byte>, e: Server.Surroundings)
    requires SavedOk(s) && IsBlockSize(e.preferredSize)
    ensures Writable(Server.ReceiveAny(s, ParseBytes(b), listen, e))
  {
    ParsedInRange(b);
    match ParseBytes(b)
    case Unparsed(p, flags) => RejectionWritable(p, BadOption, e);
    case Parsed(p) => ParsedReplyWritable(s, p, listen, e);
  }

  lemma {:induction false} RejectionWritable(p: Pdu, f: Flag, e: Server.Surroundings)
    requires InRange(p)
    ensures |p.token| <= MAX_TOKEN_SIZE ==> IsAck(Server.ErrorAck(p, f, e)) && IsAck(Server.DiscoveryAck(p, e))
  {
  }

  lemma {:induction false} ProgressWritable(p: Pdu, e: Server.Surroundings)
    requires InRange(p) && |p.token| <= MAX_TOKEN_SIZE && IsBlockSize(e.preferredSize)
    ensures IsAck(Server.ProgressAck(p, true, e.preferredSize)) && IsAck(Server.ProgressAck(p, false, e.preferredSize))
  {
  }

  /** The client judges the datagram of a response as it judges, in a run, the response. */
  lemma {:induction false} ResponseArrives(r: Pdu, c: Client.Client)
    requires IsAck(r)
    ensures Encodable(AckImage(r))
    ensures var d := ParseBytes(Encode(AckImage(r)));
            && d.Parsed? && d.pdu.token == r.token && d.pdu.block1 == r.block1
            && Client.JudgeAck(c, d.pdu) == Client.JudgeAck(c, r)
  {
    AckRoundTrip(r);
  }

  function RstImage(mid: nat, token: seq<byte>): Image {
    Image(Reset, REQUEST, 0, mid, token, [], None)
  }

  lemma {:induction false} RstRoundTrip(mid: nat, token: seq<byte>)
    requires mid < MESSAGE_IDS && |token| <= MAX_TOKEN_SIZE
    ensures Encodable(RstImage(mid, token))
    ensures ParseBytes(Encode(RstImage(mid, token))) == Parsed(Bare(Reset, REQUEST, 0, mid, token))
  {
    PduRoundTrip(RstImage(mid, token));
  }
}
