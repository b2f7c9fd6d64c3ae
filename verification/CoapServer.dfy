/** The receiving end: one server session assembling USP records from Block1 requests. */
module CoapServer {
  import opened CoapPdu
  import opened Options

  // ---------------------------------------------------------------------------------------
  // What a session is for: the record being assembled, and the last response sent.

  datatype Assembly =
    | Idle
    | Partial(token: seq<byte>, count: nat, size: nat, buf: seq<byte>)

  datatype Saved = Saved(mid: nat, response: Pdu)

  datatype Session = Session(assembly: Assembly, last: Option<Saved>)

  const NewSession := Session(Idle, None)

  /** What the session cannot decide for itself while it handles one PDU. */
  datatype Surroundings = Surroundings(
    preferredSize: nat,      // block size this end would like to receive
    sendOk: bool,            // whether the socket accepts the response
    unpackOk: bool,          // whether the assembled bytes unpack as a USP record
    replyToOk: bool,         // whether the reply-to host is the sender
    errorText: seq<byte>,    // text of the last error, copied into error responses
    resourceText: seq<byte>) // answer to resource discovery

  /** What one PDU asks of the session. */
  datatype Verdict =
    | Replay
    | Forget
    | Refuse
    | Discover
    | Reject(fault: Flag)
    | Acknowledge
    | Take(opening: bool, more: bool)

  datatype Outcome = Outcome(session: Session, reply: Option<Pdu>, completed: Option<seq<byte>>, posted: bool)

  function Held(a: Assembly): seq<byte> {
    if a.Idle? then [] else a.buf
  }

  function Count(a: Assembly): nat {
    if a.Idle? then 0 else a.count
  }

  /** A PDU opens a new record if none is being assembled or its token is another one. */
  predicate Opens(a: Assembly, p: Pdu) {
    a.Idle? || p.token != a.token
  }

  const WELL_KNOWN_CORE: seq<byte> :=
    [46, 119, 101, 108, 108, 45, 107, 110, 111, 119, 110, 47, 99, 111, 114, 101]

  function Judge(s: Session, p: Pdu, listen: seq<byte>): Verdict {
    if s.last.Some? && p.mid == s.last.value.mid then Replay
    else if p.pduType == Reset then Forget
    else if p.pduType != Confirmable || p.pduClass != REQUEST then Refuse
    else if p.code == GET && p.uriPath == Some(WELL_KNOWN_CORE) then Discover
    else if p.code != POST then Reject(BadMethod)
    else if p.contentFormat.Some? && p.contentFormat.value != OCTET_STREAM then Reject(BadContent)
    else if Opens(s.assembly, p) then JudgeFirst(s.assembly, p, listen)
    else JudgeNext(s.assembly, p, listen)
  }

  function JudgeFirst(a: Assembly, p: Pdu, listen: seq<byte>): Verdict {
    if p.uriPath != Some(listen) then Reject(NotFound)
    else if p.uriQuery.None? then Reject(BadRequest)
    else if p.totalSize.Some? && p.totalSize.value > MAX_USP_MSG_LEN then Reject(TooLarge)
    else if p.block1.Some? && p.block1.value.num != 0 then Reject(Incomplete)
    else if p.block1.Some? && p.token == [] then Refuse
    else if p.block1.Some? && p.block1.value.more && |p.payload| != p.block1.value.size then Reject(Incomplete)
    else if |Held(a)| + |p.payload| > MAX_USP_MSG_LEN then Reject(TooLarge)
    else Take(true, p.block1.Some? && p.block1.value.more)
  }

  function JudgeNext(a: Assembly, p: Pdu, listen: seq<byte>): Verdict
    requires a.Partial?
  {
    if p.uriPath.Some? && p.uriPath.value != listen then Reject(NotFound)
    else if p.uriQuery.None? || p.block1.None? then Reject(BadRequest)
    else
      var b := p.block1.value;
      if |p.payload| > b.size || (b.more && |p.payload| != b.size) then Reject(BadRequest)
      else if b.size > a.size then Reject(Incomplete)
      else if b.num < a.count then Acknowledge
      else if b.num > a.count then Reject(Incomplete)
      else if |a.buf| + |p.payload| > MAX_USP_MSG_LEN then Reject(TooLarge)
      else Take(false, b.more)
  }

  /** The assembly after the payload of an accepted PDU has been appended. */
  function Grown(a: Assembly, p: Pdu, opening: bool): Assembly
    requires !opening ==> a.Partial? && p.block1.Some?
  {
    if p.block1.None? then
      Partial(p.token, Count(a) + 1, if a.Idle? then 0 else a.size, Held(a) + p.payload)
    else
      Partial(p.token, if opening then 1 else a.count + 1, p.block1.value.size, Held(a) + p.payload)
  }

  function FaultCode(f: Flag): nat {
    match f
    case BadRequest => 0
    case BadOption => 2
    case NotFound => 4
    case BadMethod => 5
    case Incomplete => 8
    case TooLarge => 13
    case BadContent => 15
    case _ => 0
  }

  function ErrorAck(p: Pdu, f: Flag, e: Surroundings): Pdu {
    Bare(Acknowledgement, CLIENT_ERROR, FaultCode(f), p.mid, p.token).(payload := e.errorText)
  }

  function DiscoveryAck(p: Pdu, e: Surroundings): Pdu {
    Bare(Acknowledgement, SUCCESS, CONTENT, p.mid, p.token).
      (contentFormat := Some(LINK_FORMAT), payload := e.resourceText)
  }

  /** The block option of a successful ACK: present only to ask for another block. */
  function AckBlock(p: Pdu, preferredSize: nat): Option<Block1> {
    if p.block1.Some? && p.block1.value.more
    then Some(Block1(p.block1.value.num, true, Min(preferredSize, p.block1.value.size)))
    else None
  }

  function ProgressAck(p: Pdu, complete: bool, preferredSize: nat): Pdu {
    var code := if complete then CHANGED else if p.block1.Some? then CONTINUE else CONTENT;
    Bare(Acknowledgement, SUCCESS, code, p.mid, p.token).(block1 := AckBlock(p, preferredSize))
  }

  function Sent(e: Surroundings, p: Pdu): Option<Pdu> {
    if e.sendOk then Some(p) else None
  }

  /** The session after it has saved and sent `response`; a failed send abandons the assembly. */
  function Responded(a: Assembly, response: Pdu, e: Surroundings): Session {
    Session(if e.sendOk then a else Idle, Some(Saved(response.mid, response)))
  }

  /** The effect of one well-formed PDU on a session. */
  function Receive(s: Session, p: Pdu, listen: seq<byte>, e: Surroundings): Outcome {
    match Judge(s, p, listen)
    case Replay =>
      Outcome(if e.sendOk then s else s.(assembly := Idle), Sent(e, s.last.value.response), None, false)
    case Forget => Outcome(s.(assembly := Idle), None, None, false)
    case Refuse => Outcome(s.(assembly := Idle), Sent(e, Bare(Reset, REQUEST, 0, p.mid, p.token)), None, false)
    case Discover =>
      var r := DiscoveryAck(p, e);
      Outcome(Responded(s.assembly, r, e), Sent(e, r), None, false)
    case Reject(f) => Rejected(p, f, e)
    case Acknowledge =>
      var r := ProgressAck(p, false, e.preferredSize);
      Outcome(Responded(s.assembly.(size := p.block1.value.size), r, e), Sent(e, r), None, false)
    case Take(opening, more) =>
      var a := Grown(s.assembly, p, opening);
      var r := ProgressAck(p, !more, e.preferredSize);
      if more then Outcome(Responded(a, r, e), Sent(e, r), None, false)
      else if !e.unpackOk then Rejected(p, BadRequest, e)
      else
        Outcome(Responded(if e.replyToOk then Idle else a, r, e), Sent(e, r), Some(a.buf), e.replyToOk)
  }

  /** The effect of one datagram, well-formed or not. */
  function ReceiveAny(s: Session, parse: Parse, listen: seq<byte>, e: Surroundings): Outcome {
    match parse
    case Parsed(p) => Receive(s, p, listen, e)
    case Unparsed(p, flags) =>
      if SendRst in flags then Outcome(s.(assembly := Idle), Sent(e, Bare(Reset, REQUEST, 0, p.mid, p.token)), None, false)
      else if SendAck in flags then Rejected(p, BadOption, e)
      else Outcome(s, None, None, false)
  }

  function Rejected(p: Pdu, f: Flag, e: Surroundings): Outcome {
    var r := ErrorAck(p, f, e);
    Outcome(Session(Idle, Some(Saved(p.mid, r))), Sent(e, r), None, false)
  }

  /** A block is taken in exactly two situations: block 0 of a record the session is not assembling, or
      the one block that comes next in the record it is assembling. */
  lemma {:induction false} TakenBlock(s: Session, p: Pdu, listen: seq<byte>)
    requires Judge(s, p, listen).Take? && p.block1.Some?
    ensures var v, b := Judge(s, p, listen), p.block1.value;
            && v.more == b.more && (b.more ==> |p.payload| == b.size)
            && (v.opening <==> Opens(s.assembly, p))
            && b.num == (if v.opening then 0 else Count(s.assembly))
            && Grown(s.assembly, p, v.opening) == Partial(p.token, b.num + 1, b.size, Held(s.assembly) + p.payload)
            && |Held(s.assembly)| + |p.payload| <= MAX_USP_MSG_LEN
    ensures s.last.Some? ==> p.mid != s.last.value.mid
  {
  }

  predicate Bounded(s: Session) {
    && |Held(s.assembly)| <= MAX_USP_MSG_LEN
    && (s.last.Some? ==> s.last.value.response.mid == s.last.value.mid)
  }

  /** Whatever arrives, the assembled bytes stay within the buffer, and what is repeated for a message id is
      the response that was given to it. */
  lemma {:induction false} StaysBounded(s: Session, parse: Parse, listen: seq<byte>, e: Surroundings)
    requires Bounded(s)
    ensures Bounded(ReceiveAny(s, parse, listen, e).session)
  {
    if parse.Parsed? && Judge(s, parse.pdu, listen).Acknowledge? {
      AcknowledgesOnlyHeld(s, parse.pdu, listen);
    }
  }

  lemma {:induction false} AcknowledgesOnlyHeld(s: Session, p: Pdu, listen: seq<byte>)
    requires Judge(s, p, listen).Acknowledge?
    ensures s.assembly.Partial? && p.block1.Some?
  {
  }

  /** Receiving any PDU again changes nothing, completes nothing and repeats the response, from memory if the first
      time it was handled it was saved: always, unless it was refused with a RST or forgot the assembly. */
  lemma {:induction false} SecondTimeIsReplay(s: Session, p: Pdu, listen: seq<byte>, e: Surroundings, e': Surroundings)
    requires e'.sendOk
    ensures var first := Receive(s, p, listen, e);
            var second := Receive(first.session, p, listen, e');
            && second.session == first.session && second.completed.None? && !second.posted
            && (first.reply.Some? ==> second.reply == first.reply)
            && (Judge(first.session, p, listen) == Replay <==> Judge(s, p, listen) !in {Forget, Refuse})
  {
    if Judge(s, p, listen) in {Forget, Refuse} {
      RefusedAgain(s, p, listen, e);
    } else {
      HandledIsSaved(s, p, listen, e);
    }
  }

  lemma {:induction false} RefusedAgain(s: Session, p: Pdu, listen: seq<byte>, e: Surroundings)
    requires Judge(s, p, listen) in {Forget, Refuse}
    ensures var s' := Receive(s, p, listen, e).session;
            s' == s.(assembly := Idle) && Judge(s', p, listen) == Judge(s, p, listen)
  {
  }

  lemma {:induction false} HandledIsSaved(s: Session, p: Pdu, listen: seq<byte>, e: Surroundings)
    requires Judge(s, p, listen) !in {Forget, Refuse}
    ensures var o := Receive(s, p, listen, e);
            && o.session.last.Some? && o.session.last.value.mid == p.mid
            && (o.reply.Some? ==> o.reply.value == o.session.last.value.response)
  {
  }

  predicate NoSize(s: Session) {
    s.last.Some? ==> s.last.value.response.totalSize.None?
  }

  /** No response announces a maximum size, not even one that says `too large`. */
  lemma {:induction false} SizeNeverAnnounced(s: Session, parse: Parse, listen: seq<byte>, e: Surroundings)
    requires NoSize(s)
    ensures var o := ReceiveAny(s, parse, listen, e);
            NoSize(o.session) && (o.reply.Some? ==> o.reply.value.totalSize.None?)
  {
  }

  /** A new token does not clear the bytes of the record it interrupts: they stay in front of the new one. */
  lemma {:induction false} TokenChangeKeepsBytes(s: Session, p: Pdu, listen: seq<byte>, e: Surroundings)
    requires Judge(s, p, listen).Take? && s.assembly.Partial? && p.token != s.assembly.token && e.sendOk
    ensures var o := Receive(s, p, listen, e);
            if p.block1.Some? && p.block1.value.more
            then o.completed.None? && Held(o.session.assembly) == s.assembly.buf + p.payload
            else e.unpackOk ==> o.completed == Some(s.assembly.buf + p.payload)
  {
  }

  /** A completed record is freed exactly if it is posted or the response cannot be sent; one whose
      reply-to is not the sender's stays in the buffer. */
  lemma {:induction false} FreedIfPosted(s: Session, p: Pdu, listen: seq<byte>, e: Surroundings)
    requires Receive(s, p, listen, e).completed.Some?
    ensures var o := Receive(s, p, listen, e);
            && o.posted == e.replyToOk
            && (o.session.assembly.Idle? <==> o.posted || !e.sendOk)
            && (!o.session.assembly.Idle? ==> Held(o.session.assembly) == o.completed.value)
  {
  }

  /** A request that the session sees for the first time and can answer. */
  predicate IsRequest(s: Session, p: Pdu, e: Surroundings) {
    (s.last.Some? ==> p.mid != s.last.value.mid) && p.pduType == Confirmable && p.pduClass == REQUEST && e.sendOk
  }

  /** `p` is answered with response code 4.`code` of section 12.1.2 of RFC 7252, and what was assembled is dropped. */
  predicate RefusedWith(p: Pdu, code: nat, o: Outcome) {
    && o.reply.Some? && o.reply.value.pduType == Acknowledgement && o.reply.value.pduClass == 4
    && o.reply.value.code == code && o.reply.value.mid == p.mid && o.reply.value.token == p.token
    && o.reply.value.block1.None? && o.session.assembly.Idle? && o.completed.None?
  }

  /** What is no request is answered with a RST under its own id and token, except for a RST, which is not answered.
      Either way what was assembled is dropped, and the response to be repeated stays. */
  lemma {:induction false} NoRequest(s: Session, p: Pdu, listen: seq<byte>, e: Surroundings)
    requires e.sendOk && (s.last.Some? ==> p.mid != s.last.value.mid)
    requires p.pduType != Confirmable || p.pduClass != REQUEST
    ensures var o := Receive(s, p, listen, e);
            && o.session.assembly.Idle? && o.session.last == s.last && o.completed.None?
            && (p.pduType == Reset <==> o.reply.None?)
            && (o.reply.Some? ==> o.reply.value == Bare(Reset, REQUEST, 0, p.mid, p.token))
  {
  }

  /** A datagram that cannot be read is answered with a RST, with Bad Option, or not at all, as the parser asks; only one
      that is not answered leaves a record that is being assembled alone. */
  lemma {:induction false} UnreadableDatagram(s: Session, p: Pdu, flags: Flags, listen: seq<byte>, e: Surroundings)
    requires e.sendOk
    ensures var o := ReceiveAny(s, Unparsed(p, flags), listen, e);
            && o.completed.None?
            && (o.reply.None? <==> flags !! {SendRst, SendAck})
            && (o.reply.None? ==> o.session == s) && (o.reply.Some? ==> o.session.assembly.Idle?)
            && (SendRst in flags ==> o.reply == Some(Bare(Reset, REQUEST, 0, p.mid, p.token)))
            && (SendAck in flags && SendRst !in flags ==> RefusedWith(p, 2, o))
  {
  }

  /** Which response tells the client what was wrong with its request: 4.05 if it is no POST, 4.15 if its content is no
      octet stream, 4.04 if it is for another resource, 4.00 if it names no reply-to. */
  lemma {:induction false} WrongRequest(s: Session, p: Pdu, listen: seq<byte>, e: Surroundings)
    requires IsRequest(s, p, e) && !(p.code == GET && p.uriPath == Some(WELL_KNOWN_CORE))
    ensures var o := Receive(s, p, listen, e);
            if p.code != POST then RefusedWith(p, 5, o)
            else if p.contentFormat.Some? && p.contentFormat.value != OCTET_STREAM then RefusedWith(p, 15, o)
            else if p.uriPath != Some(listen) && (p.uriPath.Some? || Opens(s.assembly, p)) then RefusedWith(p, 4, o)
            else p.uriQuery.None? ==> RefusedWith(p, 0, o)
  {
  }

  /** What is wrong with a block: 4.08 if blocks before it are missing or it is larger than the one before, 4.13 if the
      record would become too long. Otherwise the block that comes next is taken. */
  lemma {:induction false} WrongBlock(s: Session, p: Pdu, listen: seq<byte>, e: Surroundings)
    requires IsRequest(s, p, e) && p.code == POST && p.contentFormat in {None, Some(OCTET_STREAM)}
    requires p.uriPath == Some(listen) && p.uriQuery.Some? && p.totalSize.None? && p.token != []
    requires p.block1.Some? && (if p.block1.value.more then |p.payload| == p.block1.value.size else |p.payload| <= p.block1.value.size)
    ensures var o, b, next := Receive(s, p, listen, e), p.block1.value, if Opens(s.assembly, p) then 0 else Count(s.assembly);
            if b.num > next || (!Opens(s.assembly, p) && b.size > s.assembly.size) then RefusedWith(p, 8, o)
            else if b.num == next && |Held(s.assembly)| + |p.payload| > MAX_USP_MSG_LEN then RefusedWith(p, 13, o)
            else b.num == next ==> Judge(s, p, listen) == Take(Opens(s.assembly, p), b.more)
  {
  }

  /** Resource discovery is answered with the resources as link format (section 4 of RFC 6690), and does not disturb a
      record that is being assembled. */
  lemma {:induction false} DiscoveryAnswered(s: Session, p: Pdu, listen: seq<byte>, e: Surroundings)
    requires IsRequest(s, p, e) && p.code == GET && p.uriPath == Some(WELL_KNOWN_CORE)
    ensures var o := Receive(s, p, listen, e);
            && o.session.assembly == s.assembly && o.completed.None? && o.reply.Some?
            && var r := o.reply.value;
               && r.pduType == Acknowledgement && r.pduClass == 2 && r.code == 5 && r.mid == p.mid && r.token == p.token
               && r.contentFormat == Some(40) && r.payload == e.resourceText
  {
  }

  /** `r` is saved and sent in answer to `p`. */
  predicate Responds(p: Pdu, r: Pdu, e: Surroundings, last: Option<Saved>, reply: Option<Pdu>) {
    last == Some(Saved(p.mid, r)) && reply == Sent(e, r)
  }

  /** The response a verdict calls for, and whether the assembly is then freed. */
  predicate Answered(s: Session, p: Pdu, v: Verdict, e: Surroundings, last: Option<Saved>, reply: Option<Pdu>, reset: bool)
    requires v == Replay ==> s.last.Some?
  {
    match v
    case Replay => last == s.last && reply == Sent(e, s.last.value.response) && reset == !e.sendOk
    case Forget => last == s.last && reply == None && reset
    case Refuse => last == s.last && reply == Sent(e, Bare(Reset, REQUEST, 0, p.mid, p.token)) && reset
    case Discover => Responds(p, DiscoveryAck(p, e), e, last, reply) && reset == !e.sendOk
    case Reject(f) => Responds(p, ErrorAck(p, f, e), e, last, reply) && reset
    case Acknowledge => Responds(p, ProgressAck(p, false, e.preferredSize), e, last, reply) && reset == !e.sendOk
    case Take(_, more) =>
      if !more && !e.unpackOk then Responds(p, ErrorAck(p, BadRequest, e), e, last, reply) && reset
      else Responds(p, ProgressAck(p, !more, e.preferredSize), e, last, reply) && reset == !e.sendOk
  }

  /** The assembly is `a` once a PDU has been judged. What a PDU that is refused has left behind will be freed. */
  predicate Tried(s: Session, p: Pdu, v: Verdict, a: Assembly) {
    match v
    case Take(opening, _) => (!opening ==> s.assembly.Partial? && p.block1.Some?) && a == Grown(s.assembly, p, opening)
    case Acknowledge => s.assembly.Partial? && p.block1.Some? && a == s.assembly.(size := p.block1.value.size)
    case Replay | Discover | Forget => a == s.assembly
    case Refuse | Reject(_) => true
  }

  /** A PDU has changed the assembly to `a` and been answered; then its effect is complete. */
  lemma {:induction false} OutcomeOf(s: Session, p: Pdu, listen: seq<byte>, e: Surroundings, a: Assembly,
                                     last: Option<Saved>, reply: Option<Pdu>, reset: bool)
    requires var v := Judge(s, p, listen); Answered(s, p, v, e, last, reply, reset) && Tried(s, p, v, a)
    ensures var v := Judge(s, p, listen);
            var complete := v.Take? && !v.more && e.unpackOk;
            var posted := complete && e.replyToOk;
            Receive(s, p, listen, e) ==
              Outcome(Session(if posted || reset then Idle else a, last), reply, if complete then Some(Held(a)) else None, posted)
  {
  }

  // ---------------------------------------------------------------------------------------
  // The session object.

  class CoapSession {
    const listen: seq<byte>
    var token: seq<byte>
    var blockCount: nat
    var blockSize: nat
    var uspBuf: seq<byte>
    var lastMid: int          // -1 while no response has been saved
    var lastResponse: Pdu

    ghost predicate Valid()
      reads this
    {
      && -1 <= lastMid
      && (lastMid >= 0 ==> lastResponse.mid == lastMid)
      && (blockCount == 0 ==> uspBuf == [] && blockSize == 0)
      && |uspBuf| <= MAX_USP_MSG_LEN
    }

    ghost function Assembled(): Assembly
      reads this
    {
      if blockCount == 0 then Idle else Partial(token, blockCount, blockSize, uspBuf)
    }

    ghost function Value(): Session
      reads this
    {
      Session(Assembled(), if lastMid < 0 then None else Some(Saved(lastMid, lastResponse)))
    }

    constructor (listen: seq<byte>)
      ensures Valid() && Value() == NewSession && this.listen == listen
    {
      this.listen := listen;
      token, blockCount, blockSize, uspBuf := [], 0, 0, [];
      lastMid := -1;
      lastResponse := Bare(Reset, REQUEST, 0, 0, []);
    }

    method FreeReceivedUspRecord()
      modifies this`blockCount, this`blockSize, this`uspBuf
      ensures blockCount == 0 && blockSize == 0 && uspBuf == []
    {
      uspBuf := [];
      blockCount, blockSize := 0, 0;
    }

    /** Appends the payload, unless the record would become too long. */
    method AppendCoapPayload(p: Pdu) returns (flags: Flags)
      modifies this`uspBuf, this`blockCount
      ensures |old(uspBuf)| + |p.payload| > MAX_USP_MSG_LEN ==>
                flags == {SendAck, TooLarge} && uspBuf == old(uspBuf) && blockCount == old(blockCount)
      ensures |old(uspBuf)| + |p.payload| <= MAX_USP_MSG_LEN ==>
                flags == {} && uspBuf == old(uspBuf) + p.payload && blockCount == old(blockCount) + 1
    {
      if |uspBuf| + |p.payload| > MAX_USP_MSG_LEN {
        return {SendAck, TooLarge};
      }
      uspBuf := uspBuf + p.payload;
      blockCount := blockCount + 1;
      return {};
    }

    /** The flags that carry out a verdict on a block. */
    static ghost function VerdictFlags(v: Verdict): Flags {
      match v
      case Reject(f) => {SendAck, f}
      case Refuse => {SendRst}
      case Take(_, more) => if more then {SendAck} else {SendAck, RecordComplete}
      case _ => {SendAck}
    }

    method HandleFirstCoapBlock(p: Pdu) returns (flags: Flags)
      requires Valid()
      modifies this
      ensures var v := if p.contentFormat.Some? && p.contentFormat.value != OCTET_STREAM then Reject(BadContent)
                       else JudgeFirst(old(Assembled()), p, listen);
              flags == VerdictFlags(v) &&
              (v.Take? ==> Assembled() == Grown(old(Assembled()), p, true) && |uspBuf| <= MAX_USP_MSG_LEN) &&
              (!v.Take? ==> uspBuf == old(uspBuf))
      ensures lastMid == old(lastMid) && lastResponse == old(lastResponse)
    {
      flags := {SendAck, RecordComplete};
      if p.contentFormat.Some? && p.contentFormat.value != OCTET_STREAM {
        return {SendAck, BadContent};
      }
      if p.uriPath.None? || p.uriPath.value != listen {
        return {SendAck, NotFound};
      }
      if p.uriQuery.None? {
        return {SendAck, BadRequest};
      }
      if p.totalSize.Some? && p.totalSize.value > MAX_USP_MSG_LEN {
        return {SendAck, TooLarge};
      }
      token := p.token;
      if p.block1.Some? {
        var b := p.block1.value;
        if b.num != 0 {
          return {SendAck, Incomplete};
        }
        if |p.token| == 0 {
          return {SendRst};
        }
        if b.more && |p.payload| != b.size {
          return {SendAck, Incomplete};
        }
        blockSize := b.size;
        blockCount := 0;
        if b.more {
          flags := flags - {RecordComplete};
        }
      }
      var appendFlags := AppendCoapPayload(p);
      if appendFlags != {} {
        return appendFlags;
      }
    }

    method HandleSubsequentCoapBlock(p: Pdu) returns (flags: Flags)
      requires Valid() && blockCount != 0
      modifies this
      ensures var a := old(Assembled());
              var v := if p.contentFormat.Some? && p.contentFormat.value != OCTET_STREAM then Reject(BadContent)
                       else if Opens(a, p) then JudgeFirst(a, p, listen)
                       else JudgeNext(a, p, listen);
              flags == VerdictFlags(v) &&
              (v.Take? ==> Assembled() == Grown(a, p, v.opening) && |uspBuf| <= MAX_USP_MSG_LEN) &&
              (v.Acknowledge? ==> Assembled() == a.(size := p.block1.value.size)) &&
              (!v.Take? ==> uspBuf == old(uspBuf))
      ensures lastMid == old(lastMid) && lastResponse == old(lastResponse)
    {
      if p.token != token {
        flags := HandleFirstCoapBlock(p);
        return;
      }
      if p.contentFormat.Some? && p.contentFormat.value != OCTET_STREAM {
        return {SendAck, BadContent};
      }
      if p.uriPath.Some? && p.uriPath.value != listen {
        return {SendAck, NotFound};
      }
      if p.uriQuery.None? {
        return {SendAck, BadRequest};
      }
      if p.block1.None? {
        return {SendAck, BadRequest};
      }
      var b := p.block1.value;
      if |p.payload| > b.size {
        return {SendAck, BadRequest};
      }
      if b.more && |p.payload| != b.size {
        return {SendAck, BadRequest};
      }
      if b.size > blockSize {
        return {SendAck, Incomplete};
      }
      if b.size != blockSize {
        blockSize := b.size;
      }
      if b.num < blockCount {
        return {SendAck};
      }
      if b.num > blockCount {
        return {SendAck, Incomplete};
      }
      var appendFlags := AppendCoapPayload(p);
      if appendFlags != {} {
        return appendFlags;
      }
      flags := {SendAck, RecordComplete};
      if b.more {
        flags := flags - {RecordComplete};
      }
    }

    /** The flags that carry out a verdict on a PDU. */
    static ghost function ActionFlags(v: Verdict, e: Surroundings): Flags {
      match v
      case Replay => {ResendLast}
      case Forget => {ResetState}
      case Discover => {SendAck, WellKnown}
      case Take(_, more) =>
        if more then {SendAck} else if e.unpackOk then {SendAck, RecordComplete} else {SendAck, BadRequest}
      case _ => VerdictFlags(v)
    }

    method CalcCoapServerActions(p: Pdu, e: Surroundings) returns (flags: Flags)
      requires Valid()
      modifies this
      ensures var v := Judge(old(Value()), p, listen);
              && flags == ActionFlags(v, e) && (v.Reject? ==> IsFault(v.fault))
              && (v.Take? ==> Assembled() == Grown(old(Assembled()), p, v.opening) && |uspBuf| <= MAX_USP_MSG_LEN)
              && (v.Acknowledge? ==> Assembled() == old(Assembled()).(size := p.block1.value.size))
              && (v.Replay? || v.Forget? || v.Discover? ==> Assembled() == old(Assembled()))
              && (!v.Take? ==> uspBuf == old(uspBuf))
              && (v.Replay? || v.Forget? || v.Discover? ==> Valid())
      ensures lastMid == old(lastMid) && lastResponse == old(lastResponse)
    {
      if p.mid == lastMid {
        return {ResendLast};
      }
      if p.pduType == Reset {
        return {ResetState};
      }
      if p.pduType == Acknowledgement || p.pduType == NonConfirmable {
        return {SendRst};
      }
      if p.pduClass != REQUEST {
        return {SendRst};
      }
      if p.code == GET && p.uriPath == Some(WELL_KNOWN_CORE) {
        return {SendAck, WellKnown};
      }
      if p.code != POST {
        return {SendAck, BadMethod};
      }
      if blockCount == 0 {
        flags := HandleFirstCoapBlock(p);
      } else {
        flags := HandleSubsequentCoapBlock(p);
      }
      if RecordComplete in flags && !e.unpackOk {
        flags := {SendAck, BadRequest};
      }
    }

    /** Class and response code of an ACK, decided in the order in which the source tests the flags. */
    static method CalcCoapClassForAck(p: Pdu, flags: Flags) returns (pduClass: nat, code: nat)
      ensures pduClass == if ErrInAck(flags) then CLIENT_ERROR else SUCCESS
      ensures forall f :: IsFault(f) && flags == {SendAck, f} ==> code == FaultCode(f)
      ensures !ErrInAck(flags) ==>
                code == if WellKnown in flags then CONTENT
                        else if RecordComplete in flags then CHANGED
                        else if p.block1.Some? then CONTINUE else CONTENT
    {
      pduClass := if ErrInAck(flags) then CLIENT_ERROR else SUCCESS;
      if BadRequest in flags {
        code := 0;
      } else if BadOption in flags {
        code := 2;
      } else if NotFound in flags {
        code := 4;
      } else if BadMethod in flags {
        code := 5;
      } else if Incomplete in flags {
        code := 8;
      } else if TooLarge in flags {
        code := 13;
      } else if BadContent in flags {
        code := 15;
      } else if WellKnown in flags {
        code := CONTENT;
      } else if RecordComplete in flags {
        code := CHANGED;
      } else if p.block1.Some? {
        code := CONTINUE;
      } else {
        code := CONTENT;
      }
    }

    /** The ACK for a PDU, under the flags it raised. */
    static ghost function AckFor(p: Pdu, flags: Flags, e: Surroundings, fault: Flag): Pdu {
      if ErrInAck(flags) then ErrorAck(p, fault, e)
      else if WellKnown in flags then DiscoveryAck(p, e)
      else ProgressAck(p, RecordComplete in flags, e.preferredSize)
    }

    /** Writes, saves and sends the ACK. */
    method SendCoapAck(p: Pdu, flags: Flags, e: Surroundings) returns (ok: bool, reply: Option<Pdu>)
      modifies this`lastMid, this`lastResponse
      ensures lastMid == p.mid && lastResponse.mid == p.mid
      ensures ok == e.sendOk && reply == Sent(e, lastResponse)
      ensures !ErrInAck(flags) ==> lastResponse == AckFor(p, flags, e, BadRequest)
      ensures forall f :: IsFault(f) && flags == {SendAck, f} ==> lastResponse == AckFor(p, flags, e, f)
      ensures lastResponse.totalSize.None?
    {
      var pduClass, code := CalcCoapClassForAck(p, flags);
      var ack := Bare(Acknowledgement, pduClass, code, p.mid, p.token);
      if ErrInAck(flags) || WellKnown in flags {
        if WellKnown in flags {
          ack := ack.(contentFormat := Some(LINK_FORMAT));
        }
        // The text of the source's error buffer: discovery puts its answer there.
        ack := ack.(payload := if ErrInAck(flags) then e.errorText else e.resourceText);
      } else {
        if p.block1.Some? && p.block1.value.more {
          var size := Min(e.preferredSize, p.block1.value.size);
          ack := ack.(block1 := Some(Block1(p.block1.value.num, true, size)));
        }
        // Never so here: `TooLarge` is an error, and errors have been dealt with above.
        if TooLarge in flags {
          ack := ack.(totalSize := Some(MAX_USP_MSG_LEN));
        }
      }
      lastMid, lastResponse := p.mid, ack;
      ok := e.sendOk;
      reply := Sent(e, ack);
    }

    /** Sends what the flags ask for: a RST, the saved response again, or an ACK. */
    method Respond(p: Pdu, flags: Flags, e: Surroundings) returns (reply: Option<Pdu>, reset: bool)
      requires !(SendAck in flags && SendRst in flags)
      modifies this`lastMid, this`lastResponse
      ensures SendAck !in flags ==> lastMid == old(lastMid) && lastResponse == old(lastResponse)
      ensures SendAck !in flags && SendRst !in flags && ResendLast !in flags ==>
                reply == None && reset == (ResetState in flags)
      ensures SendRst in flags && ResendLast !in flags ==>
                reply == Sent(e, Bare(Reset, REQUEST, 0, p.mid, p.token)) && reset
      ensures SendAck !in flags && ResendLast in flags ==>
                reply == Sent(e, lastResponse) && (reset <==> SendRst in flags || ResetState in flags || !e.sendOk)
      ensures SendAck in flags ==>
                && lastMid == p.mid && lastResponse.mid == p.mid && reply == Sent(e, lastResponse)
                && (ResendLast !in flags && ResetState !in flags ==> (reset <==> !e.sendOk || ErrInAck(flags)))
                && (!ErrInAck(flags) ==> lastResponse == AckFor(p, flags, e, BadRequest))
                && (forall f :: IsFault(f) && flags == {SendAck, f} ==> lastResponse == AckFor(p, flags, e, f))
    {
      reply, reset := None, ResetState in flags;
      if SendRst in flags {
        reply := Sent(e, Bare(Reset, REQUEST, 0, p.mid, p.token));
        reset := true;
      }
      if ResendLast in flags {
        reply := Sent(e, lastResponse);
        reset := reset || !e.sendOk;
      }
      if SendAck in flags {
        var ok, ack := SendCoapAck(p, flags, e);
        reply := ack;
        reset := reset || !ok || ErrInAck(flags);
      }
    }

    /** Handles one datagram: the flags become the actions of `ReceiveAny`, and neither of the two
        consistency checks of the source can fail. */
    method ReceiveCoapBlock(parse: Parse, e: Surroundings)
      returns (reply: Option<Pdu>, completed: Option<seq<byte>>, posted: bool)
      requires Valid()
      requires parse.Unparsed? ==> IsParseFault(parse.flags)
      modifies this
      ensures Valid()
      ensures Outcome(Value(), reply, completed, posted) == ReceiveAny(old(Value()), parse, listen, e)
    {
      if parse.Parsed? {
        reply, completed, posted := HandleParsed(parse.pdu, e);
        return;
      }
      completed, posted := None, false;
      var reset;
      reply, reset := Respond(parse.partial, parse.flags, e);
      if reset {
        FreeReceivedUspRecord();
      }
    }

    method HandleParsed(p: Pdu, e: Surroundings) returns (reply: Option<Pdu>, completed: Option<seq<byte>>, posted: bool)
      requires Valid()
      modifies this
      ensures Valid()
      ensures Outcome(Value(), reply, completed, posted) == Receive(old(Value()), p, listen, e)
    {
      ghost var s := Value();
      var flags, reset;
      flags, reply, reset := JudgeAndRespond(p, e);
      ghost var a, last := Assembled(), Value().last;
      completed, posted := Conclude(flags, reset, e);
      OutcomeOf(s, p, listen, e, a, last, reply, reset);
    }

    /** A PDU is judged and answered; what it completes is still held. */
    method JudgeAndRespond(p: Pdu, e: Surroundings) returns (flags: Flags, reply: Option<Pdu>, reset: bool)
      requires Valid()
      modifies this
      ensures flags == ActionFlags(Judge(old(Value()), p, listen), e)
      ensures Tried(old(Value()), p, Judge(old(Value()), p, listen), Assembled())
      ensures Answered(old(Value()), p, Judge(old(Value()), p, listen), e, Value().last, reply, reset)
      ensures -1 <= lastMid && (lastMid >= 0 ==> lastResponse.mid == lastMid) && (!reset ==> Valid())
    {
      ghost var s, v := Value(), Judge(Value(), p, listen);
      flags := CalcCoapServerActions(p, e);
      reply, reset := RespondTo(p, flags, e, s, v);
    }

    /** The response that each verdict calls for. */
    method RespondTo(p: Pdu, flags: Flags, e: Surroundings, ghost s: Session, ghost v: Verdict)
      returns (reply: Option<Pdu>, reset: bool)
      requires flags == ActionFlags(v, e) && (v.Reject? ==> IsFault(v.fault))
      requires s.last == Value().last && (v.Replay? ==> s.last.Some?)
      modifies this`lastMid, this`lastResponse
      ensures Answered(s, p, v, e, Value().last, reply, reset)
      ensures (lastMid == old(lastMid) && lastResponse == old(lastResponse)) || lastMid == lastResponse.mid
    {
      assert !(SendAck in flags && SendRst in flags);
      assert RecordComplete in flags ==>
          !ErrInAck(flags) && flags !! {SendRst, WellKnown, ResendLast, ResetState};
      reply, reset := Respond(p, flags, e);
    }

    /** Posts a completed record, and frees what need not be kept. */
    method Conclude(flags: Flags, reset: bool, e: Surroundings) returns (completed: Option<seq<byte>>, posted: bool)
      modifies this`blockCount, this`blockSize, this`uspBuf
      ensures completed == if RecordComplete in flags then Some(old(uspBuf)) else None
      ensures posted == (RecordComplete in flags && e.replyToOk)
      ensures if posted || reset then blockCount == 0 && blockSize == 0 && uspBuf == []
              else blockCount == old(blockCount) && blockSize == old(blockSize) && uspBuf == old(uspBuf)
    {
      completed, posted := None, false;
      if RecordComplete in flags {
        completed := Some(uspBuf);
        if e.replyToOk {
          posted := true;
          FreeReceivedUspRecord();
        }
      }
      if reset {
        FreeReceivedUspRecord();
      }
    }
  }
}
