/** What the two ends make of each other: the answer to a block lets the client go on, a block that comes again is
    answered again, and an answer that comes again is ignored. */
module CoapExchange {
  import opened CoapPdu
  import opened Options
  import opened CoapUri
  import opened CoapClient
  import opened CoapClientProofs
  import opened CoapWire
  import opened Network = CoapNetwork
  import Server = CoapServer

  // ---------------------------------------------------------------------------------------
  // One block and its answer.

  /** The fields of a block that the answer depends on. */
  predicate IsBlock(p: Pdu, mid: nat, token: seq<byte>, b: Block1) {
    p.mid == mid && p.token == token && p.block1 == Some(b)
  }

  lemma {:induction false} CurrentIsBlock(c: Client)
    requires Writable(c)
    ensures IsBlock(BlockPdu(c), c.mid, c.token, Block1(c.curBlock, !OnLastBlock(c), c.blockSize))
  {
  }

  lemma {:induction false} TakenAnswer(s: Server.Session, p: Pdu, listen: seq<byte>, e: Server.Surroundings, b: Block1)
    requires p.block1 == Some(b) && e.sendOk && Server.Judge(s, p, listen).Take?
    ensures var o := Server.Receive(s, p, listen, e);
            if b.more then o.reply == Some(Server.ProgressAck(p, false, e.preferredSize)) && o.completed.None?
            else if e.unpackOk then o.reply == Some(Server.ProgressAck(p, true, e.preferredSize)) && o.completed.Some?
            else o.reply == Some(Server.ErrorAck(p, BadRequest, e)) && o.completed.None?
  {
    Server.TakenBlock(s, p, listen);
  }

  lemma {:induction false} HeldAnswer(s: Server.Session, p: Pdu, listen: seq<byte>, e: Server.Surroundings)
    requires e.sendOk && Server.Judge(s, p, listen).Acknowledge?
    ensures var o := Server.Receive(s, p, listen, e);
            p.block1.Some? && o.reply == Some(Server.ProgressAck(p, false, e.preferredSize)) && o.completed.None?
  {
    Server.AcknowledgesOnlyHeld(s, p, listen);
  }

  /** What the client makes of the answers to its current block. */
  lemma {:induction false} ProgressMeans(c: Client, p: Pdu, complete: bool, size: nat, a: Answers)
    requires Writable(c) && IsBlock(p, c.mid, c.token, Block1(c.curBlock, !OnLastBlock(c), c.blockSize))
    ensures var r := Server.ProgressAck(p, complete, size);
            && (!OnLastBlock(c) && !complete ==>
                  && JudgeAck(c, r) == Advance
                  && var next := Advanced(c, r, a);
                     && next.curBlock == c.curBlock + 1 && next.bytesSent == c.bytesSent + c.blockSize
                     && next.blockSize == Min(c.blockSize, size))
            && (OnLastBlock(c) ==> JudgeAck(c, r) == if complete then Finish else Restart)
            && r.pduClass == SUCCESS && (r.code == CHANGED <==> complete)
  {
  }

  lemma {:induction false} ErrorMeans(c: Client, p: Pdu, f: Flag, e: Server.Surroundings)
    requires p.mid == c.mid && p.token == c.token
    ensures var r := Server.ErrorAck(p, f, e); JudgeAck(c, r) == Finish && r.pduClass != SUCCESS
  {
  }

  /** The answer to a block that has been taken, or was held already, asks for the next one in the smaller of the two
      sizes; the client accepts it as that. The answer to the last block reports the record as received. */
  lemma {:induction false} AnswerLeadsOn(c: Client, s: Server.Session, listen: seq<byte>, e: Server.Surroundings, a: Answers)
    requires Writable(c) && e.sendOk
    requires var v := Server.Judge(s, BlockPdu(c), listen); v.Take? || v.Acknowledge?
    ensures var v, o := Server.Judge(s, BlockPdu(c), listen), Server.Receive(s, BlockPdu(c), listen, e);
            && o.reply.Some?
            && if !OnLastBlock(c) then
                 && JudgeAck(c, o.reply.value) == Advance && o.completed.None?
                 && var next := Advanced(c, o.reply.value, a);
                    && next.curBlock == c.curBlock + 1 && next.bytesSent == c.bytesSent + c.blockSize
                    && next.blockSize == Min(c.blockSize, e.preferredSize)
               else if v.Acknowledge? then JudgeAck(c, o.reply.value) == Restart
               else
                 && JudgeAck(c, o.reply.value) == Finish
                 && (o.completed.Some? <==> e.unpackOk)
                 && (o.completed.Some? <==> o.reply.value.pduClass == SUCCESS && o.reply.value.code == CHANGED)
  {
    var p, b := BlockPdu(c), Block1(c.curBlock, !OnLastBlock(c), c.blockSize);
    CurrentIsBlock(c);
    ProgressMeans(c, p, false, e.preferredSize, a);
    if Server.Judge(s, p, listen).Acknowledge? {
      HeldAnswer(s, p, listen, e);
    } else {
      TakenAnswer(s, p, listen, e, b);
      ProgressMeans(c, p, true, e.preferredSize, a);
      ErrorMeans(c, p, BadRequest, e);
    }
  }

  lemma {:induction false} RejectedAnswer(s: Server.Session, p: Pdu, listen: seq<byte>, e: Server.Surroundings)
    requires e.sendOk && Server.Judge(s, p, listen).Reject?
    ensures var o, v := Server.Receive(s, p, listen, e), Server.Judge(s, p, listen);
            o.reply == Some(Server.ErrorAck(p, v.fault, e)) && o.session.assembly.Idle? && o.completed.None?
  {
  }

  /** A block that is rejected ends the client's attempts to send its record, and the session forgets it. */
  lemma {:induction false} RejectionEnds(c: Client, s: Server.Session, listen: seq<byte>, e: Server.Surroundings)
    requires Writable(c) && e.sendOk && Server.Judge(s, BlockPdu(c), listen).Reject?
    ensures var o := Server.Receive(s, BlockPdu(c), listen, e);
            && o.reply.Some? && JudgeAck(c, o.reply.value) == Finish && o.reply.value.pduClass != SUCCESS
            && o.session.assembly.Idle? && o.completed.None?
  {
    RejectedAnswer(s, BlockPdu(c), listen, e);
    ErrorMeans(c, BlockPdu(c), Server.Judge(s, BlockPdu(c), listen).fault, e);
  }

  /** A record that the server can take, from a client whose reply-to it can read. */
  predicate Sendable(c: Client, listen: seq<byte>) {
    && c.open && Writable(c) && c.blockSize > 0 && c.token != [] && c.mid < MESSAGE_IDS
    && |c.queue[0].record| <= MAX_USP_MSG_LEN && JoinedPath(None, c.queue[0].path) == Some(listen)
    && ParseUriQuery(c.uriQuery).Some?
  }

  /** The session is ready for the block the client is about to send: it holds what the client has sent of the record
      before, and nothing else. */
  predicate Expects(s: Server.Session, c: Client, listen: seq<byte>) {
    && Sendable(c, listen)
    && (s.last.Some? ==> s.last.value.mid != c.mid)
    && if c.curBlock == 0 then s.assembly.Idle? && c.bytesSent == 0
       else
         && s.assembly.Partial? && s.assembly.token == c.token && s.assembly.count == c.curBlock
         && s.assembly.buf == c.queue[0].record[..c.bytesSent] && c.blockSize <= s.assembly.size
  }

  lemma {:induction false} PayloadFits(c: Client)
    requires Writable(c)
    ensures var n := Min(c.blockSize, Remaining(c));
            && |BlockPdu(c).payload| == n && c.bytesSent + n <= |c.queue[0].record|
            && c.queue[0].record[..c.bytesSent] + BlockPdu(c).payload == c.queue[0].record[..c.bytesSent + n]
  {
  }

  /** A request as the server accepts it, carrying this block. */
  predicate Acceptable(p: Pdu, listen: seq<byte>, b: Block1) {
    && p.pduType == Confirmable && p.pduClass == REQUEST && p.code == POST && p.token != []
    && p.uriPath == Some(listen) && p.uriQuery.Some? && p.contentFormat == Some(OCTET_STREAM)
    && (p.totalSize.Some? ==> p.totalSize.value <= MAX_USP_MSG_LEN)
    && p.block1 == Some(b) && |p.payload| <= b.size && (b.more ==> |p.payload| == b.size)
  }

  lemma {:induction false} CurrentAcceptable(c: Client, listen: seq<byte>)
    requires Writable(c) && c.token != [] && |c.queue[0].record| <= MAX_USP_MSG_LEN
    requires JoinedPath(None, c.queue[0].path) == Some(listen)
    ensures Acceptable(BlockPdu(c), listen, Block1(c.curBlock, !OnLastBlock(c), c.blockSize))
  {
  }

  lemma {:induction false} FirstTaken(s: Server.Session, p: Pdu, listen: seq<byte>, b: Block1)
    requires Acceptable(p, listen, b) && b.num == 0 && s.assembly.Idle? && |p.payload| <= MAX_USP_MSG_LEN
    requires s.last.Some? ==> s.last.value.mid != p.mid
    ensures Server.Judge(s, p, listen) == Server.Take(true, b.more)
  {
  }

  lemma {:induction false} NextTaken(s: Server.Session, p: Pdu, listen: seq<byte>, b: Block1)
    requires Acceptable(p, listen, b) && s.assembly.Partial? && s.assembly.token == p.token
    requires s.assembly.count == b.num && b.size <= s.assembly.size && |s.assembly.buf| + |p.payload| <= MAX_USP_MSG_LEN
    requires s.last.Some? ==> s.last.value.mid != p.mid
    ensures Server.Judge(s, p, listen) == Server.Take(false, b.more)
  {
  }

  lemma {:induction false} ExpectedIsTaken(c: Client, s: Server.Session, listen: seq<byte>)
    requires Expects(s, c, listen)
    ensures Server.Judge(s, BlockPdu(c), listen) == Server.Take(c.curBlock == 0, !OnLastBlock(c))
    ensures Server.Held(s.assembly) == c.queue[0].record[..c.bytesSent]
  {
    var p, b := BlockPdu(c), Block1(c.curBlock, !OnLastBlock(c), c.blockSize);
    CurrentIsBlock(c);
    PayloadFits(c);
    CurrentAcceptable(c, listen);
    if c.curBlock == 0 {
      FirstTaken(s, p, listen, b);
    } else {
      NextTaken(s, p, listen, b);
    }
  }

  /** What a session is left with when it has taken a block. */
  lemma {:induction false} AfterTaking(s: Server.Session, p: Pdu, listen: seq<byte>, e: Server.Surroundings, b: Block1)
    requires p.block1 == Some(b) && e.sendOk && (b.more || e.unpackOk) && Server.Judge(s, p, listen).Take?
    ensures var o := Server.Receive(s, p, listen, e);
            && o.session.last.Some? && o.session.last.value.mid == p.mid
            && if b.more then
                 o.session.assembly == Server.Partial(p.token, b.num + 1, b.size, Server.Held(s.assembly) + p.payload)
               else o.completed == Some(Server.Held(s.assembly) + p.payload) && o.posted == e.replyToOk
  {
    Server.TakenBlock(s, p, listen);
  }

  /** The session has taken the current block, which is not the last, and `p` says so. */
  predicate Invites(c: Client, s: Server.Session, p: Pdu) {
    && c.queue != [] && !OnLastBlock(c) && JudgeAck(c, p) == Advance && p.block1.value.size > 0
    && s.last.Some? && s.last.value.mid == c.mid
    && s.assembly == Server.Partial(c.token, c.curBlock + 1, c.blockSize, c.queue[0].record[..c.bytesSent + c.blockSize])
  }

  lemma {:induction false} TakenAndMore(c: Client, s: Server.Session, listen: seq<byte>, e: Server.Surroundings)
    requires Writable(c) && !OnLastBlock(c) && e.sendOk && Server.Held(s.assembly) == c.queue[0].record[..c.bytesSent]
    requires Server.Judge(s, BlockPdu(c), listen).Take?
    ensures var s' := Server.Receive(s, BlockPdu(c), listen, e).session;
            && s'.last.Some? && s'.last.value.mid == c.mid
            && s'.assembly == Server.Partial(c.token, c.curBlock + 1, c.blockSize, c.queue[0].record[..c.bytesSent + c.blockSize])
  {
    PayloadFits(c);
    CurrentIsBlock(c);
    AfterTaking(s, BlockPdu(c), listen, e, Block1(c.curBlock, true, c.blockSize));
  }

  lemma {:induction false} NextMidDiffers(mid: nat)
    requires mid < MESSAGE_IDS
    ensures NextMessageId(mid) != mid && NextMessageId(mid) < MESSAGE_IDS
  {
  }

  /** After a block and its answer the session is ready for the next block. */
  lemma {:induction false} ExpectsNext(c: Client, s: Server.Session, p: Pdu, listen: seq<byte>, a: Answers)
    requires Sendable(c, listen) && Invites(c, s, p)
    ensures Writable(Advanced(c, p, a)) && Expects(s, SendBlock(Advanced(c, p, a), a), listen)
  {
    NextMidDiffers(c.mid);
  }

  lemma {:induction false} LastPayload(c: Client)
    requires Writable(c) && OnLastBlock(c)
    ensures c.queue[0].record[..c.bytesSent] + BlockPdu(c).payload == c.queue[0].record
  {
    PayloadFits(c);
    assert c.queue[0].record[..|c.queue[0].record|] == c.queue[0].record;
  }

  /** The last block completes the record, and nothing but the record. */
  lemma {:induction false} LastCompletes(c: Client, s: Server.Session, listen: seq<byte>, e: Server.Surroundings, a: Answers)
    requires Expects(s, c, listen) && OnLastBlock(c) && e.sendOk && e.unpackOk
    ensures var o := Server.Receive(s, BlockPdu(c), listen, e);
            && o.completed == Some(c.queue[0].record) && o.posted == e.replyToOk
            && o.reply.Some? && JudgeAck(c, o.reply.value) == Finish && o.reply.value.pduClass == SUCCESS
  {
    LastPayload(c);
    CurrentIsBlock(c);
    ExpectedIsTaken(c, s, listen);
    AfterTaking(s, BlockPdu(c), listen, e, Block1(c.curBlock, false, c.blockSize));
    AnswerLeadsOn(c, s, listen, e, a);
  }

  // ---------------------------------------------------------------------------------------
  // A block and its answer in a run.

  /** The server does its part, and nothing it sends is refused. */
  predicate Willing(e: Server.Surroundings) {
    e.sendOk && e.unpackOk && e.replyToOk && e.preferredSize > 0
  }

  /** The client sends a record over its open socket, whose channel has not got beyond the block sent last. */
  predicate Placed(net: Net) {
    && Sound(net.client) && net.client.open && net.client.queue != []
    && |net.links| == |net.client.wire| > 0
    && net.links[Last(net)].reached < |net.client.wire[Last(net)]|
    && net.links[Last(net)].answered <= |net.links[Last(net)].answers|
  }

  /** The session at the far end is ready for the block. */
  predicate AtWork(net: Net, listen: seq<byte>) {
    Placed(net) && Expects(net.links[Last(net)].session, net.client, listen)
  }

  /** The response is saved for the next time the block is seen. */
  predicate Saves(c: Client, o: Server.Outcome) {
    o.reply.Some? && o.session.last == Some(Server.Saved(c.mid, o.reply.value))
  }

  /** What the session makes of the block sent last. */
  function Newest(link: Link, log: Log, listen: seq<byte>, e: Server.Surroundings): Server.Outcome
    requires log != []
  {
    Network.Received(link, log, |log| - 1, listen, e)
  }

  function Last(net: Net): nat
    requires net.links != []
  {
    |net.links| - 1
  }

  /** What a session makes of a PDU, as its link records it. */
  predicate Records(link: Link, link': Link, i: nat, o: Server.Outcome) {
    && link'.session == o.session && link'.reached == i && link'.answered == link.answered
    && |link'.answers| == |link.answers| + 1 && o.reply == Some(link'.answers[|link.answers|].pdu)
  }

  lemma {:induction false} ServicedRecords(link: Link, log: Log, i: nat, listen: seq<byte>, e: Server.Surroundings)
    requires i < |log| && Network.Received(link, log, i, listen, e).reply.Some?
    ensures Records(link, Serviced(link, log, i, listen, e), i, Network.Received(link, log, i, listen, e))
  {
  }

  /** What a completed record adds to the history. */
  predicate Adds(completed: seq<Completion>, completed': seq<Completion>, o: Server.Outcome) {
    if o.completed.None? then completed' == completed
    else
      && |completed'| == |completed| + 1 && completed <= completed'
      && completed'[|completed|].bytes == o.completed.value && completed'[|completed|].posted == o.posted
  }

  /** What the delivery of PDU i of log a does: it has the outcome `o`. */
  predicate Serves(net: Net, net': Net, a: nat, i: nat, o: Server.Outcome) {
    && net'.client == net.client && |net'.links| == |net.links| > a && Records(net.links[a], net'.links[a], i, o)
    && net'.delivered == net.delivered && Adds(net.completed, net'.completed, o)
  }

  lemma {:induction false} DeliverServes(net: Net, listen: seq<byte>, a: nat, i: nat, e: Server.Surroundings)
    requires Enabled(net, Deliver(a, i, e))
    requires Network.Received(net.links[a], net.client.wire[a], i, listen, e).reply.Some?
    ensures Serves(net, Step(net, listen, Deliver(a, i, e)), a, i,
                   Network.Received(net.links[a], net.client.wire[a], i, listen, e))
  {
    ServicedRecords(net.links[a], net.client.wire[a], i, listen, e);
  }

  lemma {:induction false} ArrivesParsed(c: Client)
    requires Writable(c) && ParseUriQuery(c.uriQuery).Some?
    ensures Arrival(CurrentEntry(c)) == Parsed(BlockPdu(c))
  {
  }

  lemma {:induction false} ReceivesCurrent(c: Client, log: Log, link: Link, listen: seq<byte>, e: Server.Surroundings)
    requires Expects(link.session, c, listen) && e.sendOk && log != [] && log[|log| - 1] == CurrentEntry(c)
    ensures var o := Network.Received(link, log, |log| - 1, listen, e);
            && o == Server.Receive(link.session, BlockPdu(c), listen, e) && o.reply.Some?
            && Judged(link, log, |log| - 1, listen) == Server.Take(c.curBlock == 0, !OnLastBlock(c))
  {
    ArrivesParsed(c);
    ExpectedIsTaken(c, link.session, listen);
    AnswerLeadsOn(c, link.session, listen, e, Answers(0, 0, [], None, false, None, false));
  }

  lemma {:induction false} ReceivedIsSaved(c: Client, log: Log, link: Link, listen: seq<byte>, e: Server.Surroundings)
    requires Expects(link.session, c, listen) && e.sendOk && log != [] && log[|log| - 1] == CurrentEntry(c)
    ensures Saves(c, Newest(link, log, listen, e))
  {
    ReceivesCurrent(c, log, link, listen, e);
    ExpectedIsTaken(c, link.session, listen);
    Server.HandledIsSaved(link.session, BlockPdu(c), listen, e);
  }

  /** A block whose response has been saved is answered with it, and otherwise changes nothing. */
  lemma {:induction false} ReceivedAgain(c: Client, log: Log, link: Link, r: Pdu, listen: seq<byte>, e: Server.Surroundings)
    requires Sendable(c, listen) && e.sendOk && log != [] && log[|log| - 1] == CurrentEntry(c)
    requires link.session.last == Some(Server.Saved(c.mid, r))
    ensures Newest(link, log, listen, e) == Server.Outcome(link.session, Some(r), None, false)
  {
    ArrivesParsed(c);
    AnsweredFromMemory(link.session, BlockPdu(c), r, listen, e);
  }

  lemma {:induction false} AnsweredFromMemory(s: Server.Session, p: Pdu, r: Pdu, listen: seq<byte>, e: Server.Surroundings)
    requires e.sendOk && s.last == Some(Server.Saved(p.mid, r))
    ensures Server.Receive(s, p, listen, e) == Server.Outcome(s, Some(r), None, false)
  {
  }

  /** The delivery of the block sent last over the open socket. */
  function NewestBlock(net: Net, e: Server.Surroundings): Action
    requires net.links != [] && |net.links| == |net.client.wire| && net.client.wire[Last(net)] != []
  {
    Deliver(Last(net), |net.client.wire[Last(net)]| - 1, e)
  }

  /** The reading of the answer given last. */
  function NewestAnswer(net: Net, now: int, w: World): Action
    requires net.links != [] && net.links[Last(net)].answers != []
  {
    Answered(|net.links[Last(net)].answers| - 1, now, w)
  }

  lemma {:induction false} BlockServed(net: Net, listen: seq<byte>, e: Server.Surroundings)
    requires Placed(net) && Willing(e) && Newest(net.links[Last(net)], net.client.wire[Last(net)], listen, e).reply.Some?
    ensures Enabled(net, NewestBlock(net, e))
    ensures Serves(net, Step(net, listen, NewestBlock(net, e)), Last(net), |net.client.wire[Last(net)]| - 1,
                   Newest(net.links[Last(net)], net.client.wire[Last(net)], listen, e))
  {
    DeliverServes(net, listen, Last(net), |net.client.wire[Last(net)]| - 1, e);
  }

  lemma {:induction false} AnswerEnabled(net: Net, now: int, w: World)
    requires Sound(net.client) && net.client.open && net.links != [] && FreshTokens(w, net.client.wire)
    requires net.links[Last(net)].answers != [] && net.links[Last(net)].answered < |net.links[Last(net)].answers|
    ensures Enabled(net, NewestAnswer(net, now, w))
  {
  }

  /** The answer that asks for the next block is read. */
  lemma {:induction false} AdvanceRead(net: Net, listen: seq<byte>, n: nat, now: int, w: World)
    requires Enabled(net, Answered(n, now, w)) && |net.links| == |net.client.wire| && w(0).sendOk
    requires JudgeAck(net.client, net.links[Last(net)].answers[n].pdu) == Advance
    ensures var net', c, a := Step(net, listen, Answered(n, now, w)), net.client, Last(net);
            && net'.client == SendBlock(Advanced(c, net.links[a].answers[n].pdu, w(0)), w(0))
            && |net'.links| == |net.links| == |net'.client.wire| && net'.links[a] == net.links[a].(answered := n)
            && net'.delivered == net.delivered && net'.completed == net.completed
  {
    ReachedSame(net, listen, n, now, w);
    var c, p := net.client, net.links[Last(net)].answers[n].pdu;
    assert Handle(c, Turn(Some(Reading.Received(p)), now), w) == OnPdu(c, p, w);
  }

  /** The answer that reports success is read: the record leaves the queue as delivered. */
  lemma {:induction false} FinishRead(net: Net, listen: seq<byte>, n: nat, now: int, w: World)
    requires Enabled(net, Answered(n, now, w)) && |net.links| == |net.client.wire| && net.client.queue != []
    requires var p := net.links[Last(net)].answers[n].pdu; JudgeAck(net.client, p) == Finish && p.pduClass == SUCCESS
    ensures var net', c := Step(net, listen, Answered(n, now, w)), net.client;
            && net'.client == Start(c, Next, w, 1) && net'.completed == net.completed
            && net'.delivered == net.delivered + [Delivery(c.queue[0].record, c.token)]
  {
    ReachedSame(net, listen, n, now, w);
    var c, p := net.client, net.links[Last(net)].answers[n].pdu;
    assert Handle(c, Turn(Some(Reading.Received(p)), now), w) == OnPdu(c, p, w);
  }

  /** A block that goes on under the token in use leaves all others unused. */
  lemma {:induction false} StaysFresh(wire: Wire, e: Entry, next: Entry, w: World)
    requires FreshTokens(w, wire) && EndsIn(wire, e) && e.Block? && next.pdu.token == e.pdu.token
    ensures FreshTokens(w, Logged(wire, next))
  {
    var wire': Wire := Logged(wire, next);
    forall k: nat ensures !Uses(wire', w(k).token) {
      var a := |wire| - 1;
      assert Uses(wire, e.pdu.token) by {
        assert wire[a][|wire[a]| - 1].pdu.token == e.pdu.token;
      }
      forall b, i | 0 <= b < |wire'| && 0 <= i < |wire'[b]| && wire'[b][i].Block?
        ensures wire'[b][i].pdu.token != w(k).token
      {
        if b < a || i < |wire[b]| {
          assert wire'[b][i] == wire[b][i];
        }
      }
    }
  }

  lemma {:induction false} LogGrows(wire: Wire, e: Entry)
    requires wire != []
    ensures |Logged(wire, e)| == |wire| && |Logged(wire, e)[|wire| - 1]| >= |wire[|wire| - 1]|
  {
  }

  lemma {:induction false} NextSound(c: Client, p: Pdu, a: Answers)
    requires Sound(c) && c.open && JudgeAck(c, p) == Advance && p.block1.value.size > 0
    ensures Writable(Advanced(c, p, a)) && Sound(SendBlock(Advanced(c, p, a), a)) && SendBlock(Advanced(c, p, a), a).open
  {
  }

  /** There is an answer to read. */
  predicate HasAnswer(net: Net) {
    Placed(net) && net.links[Last(net)].answered < |net.links[Last(net)].answers|
  }

  /** It asks for the next block, and the session is ready for that. */
  predicate Asks(net: Net)
    requires HasAnswer(net)
  {
    var link := net.links[Last(net)];
    Invites(net.client, link.session, link.answers[|link.answers| - 1].pdu)
  }

  /** What the server makes of a block that is not the last. */
  predicate Middle(c: Client, o: Server.Outcome) {
    o.reply.Some? && o.completed.None? && Invites(c, o.session, o.reply.value)
  }

  lemma {:induction false} ReplyInvites(c: Client, s: Server.Session, listen: seq<byte>, e: Server.Surroundings, a: Answers)
    requires Expects(s, c, listen) && !OnLastBlock(c) && Willing(e)
    ensures Middle(c, Server.Receive(s, BlockPdu(c), listen, e))
  {
    ExpectedIsTaken(c, s, listen);
    TakenAndMore(c, s, listen, e);
    AnswerLeadsOn(c, s, listen, e, a);
  }

  lemma {:induction false} ReceivedInvites(c: Client, log: Log, link: Link, listen: seq<byte>, e: Server.Surroundings, a: Answers)
    requires Expects(link.session, c, listen) && !OnLastBlock(c) && Willing(e)
    requires log != [] && log[|log| - 1] == CurrentEntry(c)
    ensures Middle(c, Newest(link, log, listen, e))
  {
    ReceivesCurrent(c, log, link, listen, e);
    ReplyInvites(c, link.session, listen, e, a);
  }

  lemma {:induction false} RecordedInvites(c: Client, link: Link, link': Link, i: nat, o: Server.Outcome)
    requires Records(link, link', i, o) && Middle(c, o)
    ensures Invites(c, link'.session, link'.answers[|link'.answers| - 1].pdu)
  {
  }

  lemma {:induction false} ServedHasAnswer(net: Net, net': Net, i: nat, o: Server.Outcome)
    requires Placed(net) && Serves(net, net', Last(net), i, o) && i < |net.client.wire[Last(net)]|
    ensures HasAnswer(net')
  {
  }

  lemma {:induction false} MiddleServed(net: Net, net': Net, i: nat, o: Server.Outcome)
    requires Placed(net) && Serves(net, net', Last(net), i, o) && HasAnswer(net') && Middle(net.client, o)
    ensures Asks(net')
  {
    RecordedInvites(net.client, net.links[Last(net)], net'.links[Last(net)], i, o);
  }

  /** A block that is not the last is delivered. */
  lemma {:induction false} MiddleBlock(net: Net, listen: seq<byte>, e: Server.Surroundings)
    requires Placed(net) && Willing(e) && Middle(net.client, Newest(net.links[Last(net)], net.client.wire[Last(net)], listen, e))
    ensures Enabled(net, NewestBlock(net, e))
    ensures var half := Step(net, listen, NewestBlock(net, e));
            && HasAnswer(half) && Asks(half) && half.client == net.client
            && half.delivered == net.delivered && half.completed == net.completed
  {
    BlockServed(net, listen, e);
    var half, i := Step(net, listen, NewestBlock(net, e)), |net.client.wire[Last(net)]| - 1;
    ServedHasAnswer(net, half, i, Newest(net.links[Last(net)], net.client.wire[Last(net)], listen, e));
    MiddleServed(net, half, i, Newest(net.links[Last(net)], net.client.wire[Last(net)], listen, e));
  }

  /** The client has gone on to the next block of its record, which the session is ready for. */
  ghost predicate GoesOn(c: Client, c': Client, s: Server.Session, listen: seq<byte>, w: World) {
    && Sound(c') && c'.open && c'.queue == c.queue && c'.token == c.token && Writable(c)
    && Remaining(c') < Remaining(c) && FreshTokens(w, c'.wire) && Expects(s, c', listen)
    && |c'.wire| == |c.wire| > 0 && |c'.wire[|c.wire| - 1]| >= |c.wire[|c.wire| - 1]|
    && c'.retransmissions == 0 && c'.encrypted == c.encrypted
  }

  /** What reading an invitation does to the client. */
  lemma {:induction false} NextGoesOut(c: Client, s: Server.Session, p: Pdu, listen: seq<byte>, w: World)
    requires Sound(c) && c.open && Writable(c) && EndsIn(c.wire, CurrentEntry(c))
    requires Sendable(c, listen) && Invites(c, s, p) && FreshTokens(w, c.wire) && w(0).sendOk
    ensures Writable(Advanced(c, p, w(0))) && GoesOn(c, SendBlock(Advanced(c, p, w(0)), w(0)), s, listen, w)
  {
    var next := Advanced(c, p, w(0));
    NextSound(c, p, w(0));
    ExpectsNext(c, s, p, listen, w(0));
    LogGrows(c.wire, CurrentEntry(next));
    StaysFresh(c.wire, CurrentEntry(c), CurrentEntry(next), w);
  }

  /** A record under way: it is still being sent, nothing has been reported, and less of it is left. */
  ghost predicate UnderWay(net: Net, net': Net, listen: seq<byte>, w: World)
    requires Writable(net.client)
  {
    && AtWork(net', listen) && FreshTokens(w, net'.client.wire)
    && net'.client.queue == net.client.queue && net'.client.token == net.client.token
    && Remaining(net'.client) < Remaining(net.client)
    && net'.client.retransmissions == 0 && net'.client.encrypted == net.client.encrypted
    && net'.delivered == net.delivered && net'.completed == net.completed
  }

  lemma {:induction false} StaysPlaced(net: Net, net': Net, n: nat)
    requires |net.links| == |net.client.wire| > 0 && |net'.links| == |net.links| == |net'.client.wire|
    requires Sound(net'.client) && net'.client.open && net'.client.queue != []
    requires net'.links[Last(net)] == net.links[Last(net)].(answered := n) && n <= |net.links[Last(net)].answers|
    requires net.links[Last(net)].reached < |net.client.wire[Last(net)]| <= |net'.client.wire[Last(net)]|
    ensures Placed(net')
  {
  }

  lemma {:induction false} GoesOnUnderWay(net: Net, net': Net, listen: seq<byte>, n: nat, w: World)
    requires |net.links| == |net.client.wire| > 0 && |net'.links| == |net.links|
    requires GoesOn(net.client, net'.client, net.links[Last(net)].session, listen, w)
    requires net'.links[Last(net)] == net.links[Last(net)].(answered := n) && n <= |net.links[Last(net)].answers|
    requires net.links[Last(net)].reached < |net.client.wire[Last(net)]| && net.client.queue != []
    requires net'.delivered == net.delivered && net'.completed == net.completed
    ensures Writable(net.client) && UnderWay(net, net', listen, w)
  {
    StaysPlaced(net, net', n);
  }

  /** The invitation is read: the next block is under way. */
  lemma {:induction false} MiddleAnswer(net: Net, listen: seq<byte>, p: Pdu, now: int, w: World)
    requires HasAnswer(net) && p == net.links[Last(net)].answers[|net.links[Last(net)].answers| - 1].pdu
    requires JudgeAck(net.client, p) == Advance && FreshTokens(w, net.client.wire) && w(0).sendOk
    requires Writable(Advanced(net.client, p, w(0)))
    requires GoesOn(net.client, SendBlock(Advanced(net.client, p, w(0)), w(0)), net.links[Last(net)].session, listen, w)
    ensures Enabled(net, NewestAnswer(net, now, w))
    ensures Writable(net.client) && UnderWay(net, Step(net, listen, NewestAnswer(net, now, w)), listen, w)
  {
    var n := |net.links[Last(net)].answers| - 1;
    AnswerEnabled(net, now, w);
    AdvanceRead(net, listen, n, now, w);
    GoesOnUnderWay(net, Step(net, listen, NewestAnswer(net, now, w)), listen, n, w);
  }

  lemma {:induction false} AsksGoesOn(net: Net, listen: seq<byte>, p: Pdu, w: World)
    requires HasAnswer(net) && p == net.links[Last(net)].answers[|net.links[Last(net)].answers| - 1].pdu
    requires Asks(net) && Sendable(net.client, listen) && EndsIn(net.client.wire, CurrentEntry(net.client))
    requires FreshTokens(w, net.client.wire) && w(0).sendOk
    ensures JudgeAck(net.client, p) == Advance && Writable(Advanced(net.client, p, w(0)))
    ensures GoesOn(net.client, SendBlock(Advanced(net.client, p, w(0)), w(0)), net.links[Last(net)].session, listen, w)
  {
    NextGoesOut(net.client, net.links[Last(net)].session, p, listen, w);
  }

  lemma {:induction false} InvitationRead(net: Net, listen: seq<byte>, now: int, w: World)
    requires HasAnswer(net) && Asks(net) && Sendable(net.client, listen) && EndsIn(net.client.wire, CurrentEntry(net.client))
    requires FreshTokens(w, net.client.wire) && w(0).sendOk
    ensures Enabled(net, NewestAnswer(net, now, w))
    ensures Writable(net.client) && UnderWay(net, Step(net, listen, NewestAnswer(net, now, w)), listen, w)
  {
    var p := net.links[Last(net)].answers[|net.links[Last(net)].answers| - 1].pdu;
    AsksGoesOn(net, listen, p, w);
    MiddleAnswer(net, listen, p, now, w);
  }

  /** The answer reports success. */
  predicate Reports(net: Net)
    requires HasAnswer(net)
  {
    var link := net.links[Last(net)];
    var p := link.answers[|link.answers| - 1].pdu;
    JudgeAck(net.client, p) == Finish && p.pduClass == SUCCESS
  }

  /** What the server makes of the last block. */
  predicate Final(c: Client, o: Server.Outcome)
    requires c.queue != []
  {
    && o.completed == Some(c.queue[0].record) && o.posted
    && o.reply.Some? && JudgeAck(c, o.reply.value) == Finish && o.reply.value.pduClass == SUCCESS
  }

  lemma {:induction false} ReceivedIsFinal(c: Client, log: Log, link: Link, listen: seq<byte>, e: Server.Surroundings, a: Answers)
    requires Expects(link.session, c, listen) && OnLastBlock(c) && Willing(e)
    requires log != [] && log[|log| - 1] == CurrentEntry(c)
    ensures Final(c, Newest(link, log, listen, e))
  {
    ReceivesCurrent(c, log, link, listen, e);
    LastCompletes(c, link.session, listen, e, a);
  }

  /** The last block has been delivered: the record has been completed and posted. */
  predicate Concluded(net: Net, net': Net)
    requires net.client.queue != []
  {
    && HasAnswer(net') && Reports(net') && net'.client == net.client && net'.delivered == net.delivered
    && |net'.completed| == |net.completed| + 1 && net.completed <= net'.completed
    && net'.completed[|net.completed|].bytes == net.client.queue[0].record && net'.completed[|net.completed|].posted
  }

  lemma {:induction false} LastServed(net: Net, net': Net, i: nat, o: Server.Outcome)
    requires Placed(net) && Serves(net, net', Last(net), i, o) && HasAnswer(net') && Final(net.client, o)
    ensures Concluded(net, net')
  {
  }

  lemma {:induction false} LastBlock(net: Net, listen: seq<byte>, e: Server.Surroundings)
    requires Placed(net) && Willing(e) && Final(net.client, Newest(net.links[Last(net)], net.client.wire[Last(net)], listen, e))
    ensures Enabled(net, NewestBlock(net, e)) && Concluded(net, Step(net, listen, NewestBlock(net, e)))
  {
    BlockServed(net, listen, e);
    var half, i := Step(net, listen, NewestBlock(net, e)), |net.client.wire[Last(net)]| - 1;
    ServedHasAnswer(net, half, i, Newest(net.links[Last(net)], net.client.wire[Last(net)], listen, e));
    LastServed(net, half, i, Newest(net.links[Last(net)], net.client.wire[Last(net)], listen, e));
  }

  /** The report is read: the record leaves the queue as delivered. */
  lemma {:induction false} LastAnswer(net: Net, listen: seq<byte>, now: int, w: World)
    requires HasAnswer(net) && Reports(net) && FreshTokens(w, net.client.wire)
    ensures Enabled(net, NewestAnswer(net, now, w))
    ensures var net', c := Step(net, listen, NewestAnswer(net, now, w)), net.client;
            && net'.client == Start(c, Next, w, 1) && net'.completed == net.completed
            && net'.delivered == net.delivered + [Delivery(c.queue[0].record, c.token)]
  {
    AnswerEnabled(net, now, w);
    FinishRead(net, listen, |net.links[Last(net)].answers| - 1, now, w);
  }

  // ---------------------------------------------------------------------------------------
  // Answers that come again.

  /** An answer about entry i of the log is no answer to the last entry, unless a multiple of 65536 lies between them. */
  lemma {:induction false} OldAnswerMeans(completed: seq<Completion>, a: nat, log: Log, link: Link, n: nat)
    requires LogOk(log) && LinkOk(completed, a, log, link) && n < |link.answers| && log != []
    ensures var i, p := link.answers[n].about, link.answers[n].pdu;
            && i < |log| && p.pduType == Acknowledgement && p.token == log[i].pdu.token
            && (p.mid == log[|log| - 1].pdu.mid <==> (|log| - 1 - i) % MESSAGE_IDS == 0)
  {
    var i := link.answers[n].about;
    assert AnswerOk(completed, a, log, i, link.answers[n].pdu);
    MessageIdsCount(log, i, |log| - 1);
    assert StepOk(Before(log, i), log[i]);
    ReturnsToItself(log[i].pdu.mid, |log| - 1 - i);
  }

  lemma {:induction false} OtherMidIgnored(c: Client, p: Pdu)
    requires p.pduType == Acknowledgement && p.token == c.token && p.mid != c.mid
    ensures JudgeAck(c, p) == Ignore
  {
  }

  lemma {:induction false} OldAnswerJudged(completed: seq<Completion>, a: nat, log: Log, link: Link, n: nat, c: Client)
    requires LogOk(log) && LinkOk(completed, a, log, link) && n < |link.answers|
    requires log != [] && log[|log| - 1].pdu.mid == c.mid
    ensures var i := link.answers[n].about;
            && i < |log|
            && (log[i].pdu.token == c.token && (|log| - 1 - i) % MESSAGE_IDS != 0 ==> JudgeAck(c, link.answers[n].pdu) == Ignore)
  {
    OldAnswerMeans(completed, a, log, link, n);
    var i := link.answers[n].about;
    if log[i].pdu.token == c.token && (|log| - 1 - i) % MESSAGE_IDS != 0 {
      OtherMidIgnored(c, link.answers[n].pdu);
    }
  }

  /** An answer that is ignored is read. */
  lemma {:induction false} IgnoreRead(net: Net, listen: seq<byte>, n: nat, now: int, w: World)
    requires Enabled(net, Answered(n, now, w)) && |net.links| == |net.client.wire|
    requires JudgeAck(net.client, net.links[Last(net)].answers[n].pdu) == Ignore
    ensures var net' := Step(net, listen, Answered(n, now, w));
            net'.client == net.client && net'.delivered == net.delivered && net'.completed == net.completed
  {
    ReachedSame(net, listen, n, now, w);
    var c, p := net.client, net.links[Last(net)].answers[n].pdu;
    assert Handle(c, Turn(Some(Reading.Received(p)), now), w) == OnPdu(c, p, w);
  }

  /** An answer to an earlier block of the record being sent. */
  predicate IsOld(net: Net, n: nat) {
    && net.links != [] && |net.links| == |net.client.wire| && n < |net.links[Last(net)].answers|
    && var i, log := net.links[Last(net)].answers[n].about, net.client.wire[Last(net)];
       i < |log| && log[i].pdu.token == net.client.token && (|log| - 1 - i) % MESSAGE_IDS != 0
  }

  lemma {:induction false} ShownMid(c: Client)
    requires OnWire(c) && c.open && c.queue != []
    ensures c.wire != [] && var log := c.wire[|c.wire| - 1]; log != [] && log[|log| - 1].pdu.mid == c.mid
  {
    LastShown(c);
  }

  lemma {:induction false} InvOnWire(net: Net)
    requires Inv(net) && Sound(net.client)
    ensures OnWire(net.client)
  {
  }

  lemma {:induction false} RunOnWire(nets: seq<Net>, acts: seq<Action>, listen: seq<byte>)
    requires IsRun(nets, acts, listen) && Sound(nets[|acts|].client)
    ensures OnWire(nets[|acts|].client)
  {
    RunKeeps(nets, acts, listen, |acts|);
    InvOnWire(nets[|acts|]);
  }

  lemma {:induction false} RunShowsMid(nets: seq<Net>, acts: seq<Action>, listen: seq<byte>)
    requires IsRun(nets, acts, listen)
    requires var c := nets[|acts|].client; Sound(c) && c.open && c.queue != []
    ensures var c := nets[|acts|].client;
            c.wire != [] && var log := c.wire[|c.wire| - 1]; log != [] && log[|log| - 1].pdu.mid == c.mid
  {
    RunOnWire(nets, acts, listen);
    ShownMid(nets[|acts|].client);
  }

  lemma {:induction false} RunLastLink(nets: seq<Net>, acts: seq<Action>, listen: seq<byte>)
    requires IsRun(nets, acts, listen) && nets[|acts|].links != []
    ensures var net := nets[|acts|];
            && |net.client.wire| == |net.links| && LogOk(net.client.wire[Last(net)])
            && LinkOk(net.completed, Last(net), net.client.wire[Last(net)], net.links[Last(net)])
  {
    RunKeeps(nets, acts, listen, |acts|);
    LastLink(nets[|acts|]);
  }

  lemma {:induction false} OldJudgedInRun(nets: seq<Net>, acts: seq<Action>, listen: seq<byte>, n: nat)
    requires IsRun(nets, acts, listen) && IsOld(nets[|acts|], n)
    requires var c := nets[|acts|].client; Sound(c) && c.open && c.queue != []
    ensures var net := nets[|acts|]; JudgeAck(net.client, net.links[Last(net)].answers[n].pdu) == Ignore
  {
    var net := nets[|acts|];
    RunShowsMid(nets, acts, listen);
    RunLastLink(nets, acts, listen);
    OldAnswerJudged(net.completed, Last(net), net.client.wire[Last(net)], net.links[Last(net)], n, net.client);
  }

  /** In every run an answer to an earlier block of the record being sent is ignored, however late it comes and however
      often: it neither restarts the record nor moves it on. */
  lemma {:induction false} OldAnswerIgnored(nets: seq<Net>, acts: seq<Action>, listen: seq<byte>, n: nat, now: int, w: World)
    requires IsRun(nets, acts, listen) && Enabled(nets[|acts|], Answered(n, now, w))
    requires nets[|acts|].client.queue != [] && IsOld(nets[|acts|], n)
    ensures var net, net' := nets[|acts|], Step(nets[|acts|], listen, Answered(n, now, w));
            net'.client == net.client && net'.delivered == net.delivered && net'.completed == net.completed
  {
    OldJudgedInRun(nets, acts, listen, n);
    IgnoreRead(nets[|acts|], listen, n, now, w);
  }
}
