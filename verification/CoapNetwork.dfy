/** A client, the server sessions at the far end of its sockets, and the channels between them, which
    may lose and duplicate what they carry but do not reorder it. A channel is the log of everything
    sent over it and the position last delivered: a delivery picks any position not before that one. */
module CoapNetwork {
  import opened CoapPdu
  import opened Options
  import opened CoapClient
  import opened CoapClientProofs
  import opened CoapWire
  import Server = CoapServer

  /** A response on its way back, and the position of the PDU it responds to. */
  datatype Answer = Answer(pdu: Pdu, about: nat)

  /** The far end of one socket. */
  datatype Link = Link(
    session: Server.Session,
    reached: nat,             // position last delivered to the session
    handled: int,             // position of the last PDU whose response was saved, or -1
    leftover: seq<byte>,      // bytes in the assembly in front of the record being assembled
    answers: seq<Answer>,
    answered: nat)            // position last delivered back to the client

  const NewLink := Link(Server.NewSession, 0, -1, [], [], 0)

  /** A record the server took for complete: where its last block stood, and what was assembled. */
  datatype Completion = Completion(link: nat, entry: nat, leftover: seq<byte>, bytes: seq<byte>, posted: bool)

  /** A record the client removed from its queue because the server reported success. */
  datatype Delivery = Delivery(record: seq<byte>, token: seq<byte>)

  datatype Net = Net(
    client: Client,
    links: seq<Link>,
    completed: seq<Completion>,
    delivered: seq<Delivery>,
    submitted: set<seq<byte>>)

  datatype Action =
    | Act(ev: Event, w: World)
    | Answered(n: nat, now: int, w: World)
    | Deliver(a: nat, i: nat, e: Server.Surroundings)

  function Extended(links: seq<Link>, n: nat): (r: seq<Link>)
    ensures |r| == if |links| >= n then |links| else n
    ensures links <= r && forall a :: |links| <= a < |r| ==> r[a] == NewLink
    decreases n - |links|
  {
    if |links| >= n then links else Extended(links + [NewLink], n)
  }

  /** The client is about to remove its record because it was reported as received. */
  predicate Succeeds(c: Client, ev: Event) {
    && c.open && c.queue != [] && ev.Turn? && ev.ready.Some? && ev.ready.value.Received?
    && JudgeAck(c, ev.ready.value.pdu) == Finish && ev.ready.value.pdu.pduClass == SUCCESS
  }

  /** The client handles an event; sockets it opens get sessions of their own. */
  function Moved(net: Net, ev: Event, w: World): Net
    requires Sound(net.client)
  {
    var c := net.client;
    var c' := Handle(c, ev, w);
    net.(client := c',
         links := Extended(net.links, |c'.wire|),
         delivered := if Succeeds(c, ev) then net.delivered + [Delivery(c.queue[0].record, c.token)] else net.delivered,
         submitted := if ev.Submit? then net.submitted + {ev.item.record} else net.submitted)
  }

  /** How an entry arrives: the parser rejects a request whose reply-to it cannot read. */
  function Arrival(e: Entry): Parse {
    if e.Block? && e.pdu.replyTo.None? then Unparsed(e.pdu, {SendAck, BadOption}) else Parsed(e.pdu)
  }

  /** What a session makes of the PDU at position i of its log. */
  function Received(link: Link, log: Log, i: nat, listen: seq<byte>, e: Server.Surroundings): Server.Outcome
    requires i < |log|
  {
    Server.ReceiveAny(link.session, Arrival(log[i]), listen, e)
  }

  function Judged(link: Link, log: Log, i: nat, listen: seq<byte>): Server.Verdict
    requires i < |log|
  {
    if Arrival(log[i]).Unparsed? then Server.Reject(BadOption) else Server.Judge(link.session, log[i].pdu, listen)
  }

  /** The PDU opens a record while bytes of an earlier one are still held. */
  predicate Mixes(link: Link, log: Log, i: nat, listen: seq<byte>)
    requires i < |log|
  {
    var v := Judged(link, log, i, listen);
    v.Take? && v.opening && Server.Held(link.session.assembly) != []
  }

  function Leftover(link: Link, log: Log, i: nat, listen: seq<byte>): seq<byte>
    requires i < |log|
  {
    var v := Judged(link, log, i, listen);
    if v.Take? && v.opening then Server.Held(link.session.assembly) else link.leftover
  }

  function Serviced(link: Link, log: Log, i: nat, listen: seq<byte>, e: Server.Surroundings): Link
    requires i < |log|
  {
    var o := Received(link, log, i, listen, e);
    var v := Judged(link, log, i, listen);
    var handled := if v.Replay? || v.Forget? || v.Refuse? then link.handled else i;
    Link(o.session, i, handled,
         if o.session.assembly.Idle? then [] else Leftover(link, log, i, listen),
         if o.reply.Some? then link.answers + [Answer(o.reply.value, if handled < 0 then 0 else handled)] else link.answers,
         link.answered)
  }

  function Serve(net: Net, listen: seq<byte>, a: nat, i: nat, e: Server.Surroundings): Net
    requires a < |net.links| && a < |net.client.wire| && i < |net.client.wire[a]|
  {
    var log := net.client.wire[a];
    var o := Received(net.links[a], log, i, listen, e);
    net.(links := net.links[a := Serviced(net.links[a], log, i, listen, e)],
         completed := if o.completed.Some?
                      then net.completed + [Completion(a, i, Leftover(net.links[a], log, i, listen), o.completed.value, o.posted)]
                      else net.completed)
  }

  ghost predicate Enabled(net: Net, act: Action) {
    match act
    case Act(ev, w) =>
      && Sound(net.client) && FreshTokens(w, net.client.wire)
      && !(ev.Turn? && ev.ready.Some? && ev.ready.value.Received?)
    case Answered(n, now, w) =>
      && Sound(net.client) && FreshTokens(w, net.client.wire)
      && net.client.open && net.links != []
      && var link := net.links[|net.links| - 1];
         link.answered <= n < |link.answers|
    case Deliver(a, i, e) =>
      && a < |net.links| && a < |net.client.wire|
      && net.links[a].reached <= i < |net.client.wire[a]|
      && e.preferredSize > 0
  }

  function AnswerEvent(net: Net, n: nat, now: int): Event
    requires net.links != [] && n < |net.links[|net.links| - 1].answers|
  {
    Turn(Some(Reading.Received(net.links[|net.links| - 1].answers[n].pdu)), now)
  }

  ghost function Step(net: Net, listen: seq<byte>, act: Action): Net
    requires Enabled(net, act)
  {
    match act
    case Act(ev, w) => Moved(net, ev, w)
    case Answered(n, now, w) =>
      var last := |net.links| - 1;
      Moved(net.(links := net.links[last := net.links[last].(answered := n)]), AnswerEvent(net, n, now), w)
    case Deliver(a, i, e) => Serve(net, listen, a, i, e)
  }

  predicate Start'(net: Net) {
    Initial(net.client) && net.links == [] && net.completed == [] && net.delivered == [] && net.submitted == {}
  }

  /** Step k of a run. */
  ghost predicate StepAt(nets: seq<Net>, acts: seq<Action>, listen: seq<byte>, k: nat) {
    k < |acts| && k + 1 < |nets| && Enabled(nets[k], acts[k]) && nets[k + 1] == Step(nets[k], listen, acts[k])
  }

  /** A run: states linked by enabled actions. */
  ghost predicate IsRun(nets: seq<Net>, acts: seq<Action>, listen: seq<byte>) {
    && |nets| == |acts| + 1 && Start'(nets[0])
    && forall k :: 0 <= k < |acts| ==> StepAt(nets, acts, listen, k)
  }

  // ---------------------------------------------------------------------------------------
  // The invariant.

  predicate Done(completed: seq<Completion>, a: nat, i: nat) {
    exists n :: 0 <= n < |completed| && completed[n].link == a && completed[n].entry == i
  }

  /** An answer acknowledges the block it is about, and says `Changed` only of a completed record. */
  ghost predicate AnswerOk(completed: seq<Completion>, a: nat, log: Log, i: int, p: Pdu) {
    && 0 <= i < |log| && WellCut(log[i])
    && p.pduType == Acknowledgement && p.token == log[i].pdu.token && p.mid == log[i].pdu.mid
    && (p.pduClass == SUCCESS && p.code == CHANGED ==> Done(completed, a, i))
    && (p.block1.Some? ==> p.block1.value.num == Num(log[i]) && p.block1.value.size > 0)
  }

  /** What the session holds: what it held when the record was begun, then a prefix of the record whose block was
      handled last. */
  ghost predicate AssemblyOk(link: Link, log: Log) {
    match link.session.assembly
    case Idle => link.leftover == []
    case Partial(token, count, size, buf) =>
      && 0 <= link.handled < |log| && WellCut(log[link.handled])
      && var e := log[link.handled];
         && token == e.pdu.token && count == Num(e) + 1 && size == Size(e)
         && buf == link.leftover + e.record[..e.offset + |e.pdu.payload|]
  }

  ghost predicate LinkOk(completed: seq<Completion>, a: nat, log: Log, link: Link) {
    && -1 <= link.handled < |log| && link.handled <= link.reached
    && AssemblyOk(link, log)
    && (link.session.last.Some? <==> link.handled >= 0)
    && (link.session.last.Some? ==>
          link.session.last.value.mid == log[link.handled].pdu.mid &&
          AnswerOk(completed, a, log, link.handled, link.session.last.value.response))
    && (forall n :: 0 <= n < |link.answers| ==>
          link.answers[n].about <= link.handled && AnswerOk(completed, a, log, link.answers[n].about, link.answers[n].pdu))
    && (forall i {:trigger Linked(log, i)} :: 0 <= i < |log| && Linked(log, i) ==> i - 1 <= link.handled)
  }

  /** A completion stands for the last block of a record and holds that record after the leftover. */
  ghost predicate CompletionOk(net: Net, done: Completion) {
    && done.link < |net.links| && done.link < |net.client.wire|
    && done.entry < |net.client.wire[done.link]| && done.entry <= net.links[done.link].handled
    && var e := net.client.wire[done.link][done.entry];
       WellCut(e) && !e.pdu.block1.value.more && done.bytes == done.leftover + e.record
  }

  /** The server completed this record under this token. */
  ghost predicate DeliveryOk(net: Net, d: Delivery) {
    exists n :: 0 <= n < |net.completed| && CompletionOk(net, net.completed[n]) &&
      Of(net, net.completed[n]).record == d.record && Of(net, net.completed[n]).pdu.token == d.token
  }

  /** The block that completed a record. */
  ghost function Of(net: Net, done: Completion): Entry
    requires CompletionOk(net, done)
  {
    net.client.wire[done.link][done.entry]
  }

  ghost predicate Inv(net: Net) {
    && WireOk(net.client.wire)
    && (!net.client.failed ==> Sound(net.client) && OnWire(net.client))
    && |net.links| == |net.client.wire|
    && (forall a :: 0 <= a < |net.links| ==> LinkOk(net.completed, a, net.client.wire[a], net.links[a]))
    && (forall n :: 0 <= n < |net.completed| ==> CompletionOk(net, net.completed[n]))
    && InOrder(net.completed)
    && From(net.client, net.submitted)
    && (forall n :: 0 <= n < |net.delivered| ==> DeliveryOk(net, net.delivered[n]))
  }

  // ---------------------------------------------------------------------------------------
  // The server's steps keep it.

  /** Two blocks of one attempt: every block but the last says that more follow. */
  lemma {:induction false} MoreFollow(log: Log, i: nat, j: nat)
    requires LogOk(log) && i < j < |log| && SameAttempt(log, i, j)
    ensures WellCut(log[i]) && log[i].pdu.block1.value.more
    ensures j == i + 1 ==> WellCut(log[j]) && Continues(log[i], log[j])
    decreases j - i
  {
    assert StepOk(Before(log, j), log[j]);
    assert Linked(log, j);
    if i < j - 1 {
      assert SameAttempt(log, i, j - 1);
      MoreFollow(log, i, j - 1);
    }
  }

  lemma {:induction false} CutPieces(e: Entry)
    requires WellCut(e)
    ensures e.offset + |e.pdu.payload| <= |e.record|
    ensures e.record[..e.offset] + e.pdu.payload == e.record[..e.offset + |e.pdu.payload|]
    ensures e.pdu.block1.value.more ==> |e.pdu.payload| == Size(e)
    ensures !e.pdu.block1.value.more ==> e.record[..e.offset + |e.pdu.payload|] == e.record
  {
  }

  /** A block that continues what the session holds is the one right after the block handled last. */
  lemma {:induction false} HeldPiece(log: Log, h: nat, i: nat, leftover: seq<byte>, buf: seq<byte>)
    requires LogOk(log) && h < i < |log| && log[h].Block? && WellCut(log[h]) && log[i].Block? && WellCut(log[i])
    requires log[i].pdu.token == log[h].pdu.token && Num(log[i]) == Num(log[h]) + 1
    requires buf == leftover + log[h].record[..log[h].offset + |log[h].pdu.payload|]
    ensures buf + log[i].pdu.payload == leftover + log[i].record[..log[i].offset + |log[i].pdu.payload|]
  {
    NextInAttempt(log, h, i);
    NextPiece(log[h], log[i], leftover, buf);
  }

  lemma {:induction false} NextInAttempt(log: Log, h: nat, i: nat)
    requires LogOk(log) && h < i < |log| && log[h].Block? && WellCut(log[h]) && log[i].Block? && WellCut(log[i])
    requires log[i].pdu.token == log[h].pdu.token && Num(log[i]) == Num(log[h]) + 1
    ensures Continues(log[h], log[i])
  {
    assert SameAttempt(log, h, i);
    assert StepOk(Before(log, i), log[i]);
  }

  lemma {:induction false} NextPiece(held: Entry, e: Entry, leftover: seq<byte>, buf: seq<byte>)
    requires WellCut(held) && WellCut(e) && Continues(held, e)
    requires buf == leftover + held.record[..held.offset + |held.pdu.payload|]
    ensures buf + e.pdu.payload == leftover + e.record[..e.offset + |e.pdu.payload|]
  {
    CutPieces(held);
    CutPieces(e);
    assert buf == leftover + e.record[..e.offset];
    assert (leftover + e.record[..e.offset]) + e.pdu.payload == leftover + (e.record[..e.offset] + e.pdu.payload);
  }

  lemma {:induction false} HeldContinues(completed: seq<Completion>, a: nat, log: Log, link: Link, i: nat)
    requires LogOk(log) && LinkOk(completed, a, log, link) && link.handled < i < |log|
    requires log[i].Block? && WellCut(log[i])
    requires var s := link.session.assembly; s.Partial? && s.token == log[i].pdu.token && s.count == Num(log[i])
    ensures var e := log[i];
            Server.Held(link.session.assembly) + e.pdu.payload == link.leftover + e.record[..e.offset + |e.pdu.payload|]
  {
    HeldPiece(log, link.handled, i, link.leftover, link.session.assembly.buf);
  }

  /** The bytes a session holds after it has taken a block: the leftover, then the record as far as
      that block. Blocks are never skipped and never taken twice. */
  lemma {:induction false} TakesNextPiece(completed: seq<Completion>, a: nat, log: Log, link: Link, i: nat, listen: seq<byte>)
    requires LogOk(log) && LinkOk(completed, a, log, link) && link.reached <= i < |log|
    requires Judged(link, log, i, listen).Take? && log[i].Block? && WellCut(log[i])
    ensures link.handled < i
    ensures var v := Judged(link, log, i, listen);
            var e := log[i];
            && v.more == e.pdu.block1.value.more
            && Server.Grown(link.session.assembly, e.pdu, v.opening) ==
                 Server.Partial(e.pdu.token, Num(e) + 1, Size(e),
                                Leftover(link, log, i, listen) + e.record[..e.offset + |e.pdu.payload|])
  {
    Server.TakenBlock(link.session, log[i].pdu, listen);
    if Judged(link, log, i, listen).opening {
      OpensAtZero(log, i);
      CutPieces(log[i]);
    } else {
      HeldContinues(completed, a, log, link, i);
    }
  }

  lemma {:induction false} OpensAtZero(log: Log, i: nat)
    requires LogOk(log) && i < |log| && log[i].Block? && WellCut(log[i]) && Num(log[i]) == 0
    ensures log[i].offset == 0
  {
    assert StepOk(Before(log, i), log[i]);
  }

  lemma {:induction false} AnswersProgress(completed: seq<Completion>, a: nat, log: Log, i: nat, e: Server.Surroundings, complete: bool)
    requires i < |log| && WellCut(log[i]) && e.preferredSize > 0
    requires complete ==> Done(completed, a, i)
    ensures AnswerOk(completed, a, log, i, Server.ProgressAck(log[i].pdu, complete, e.preferredSize))
  {
  }

  lemma {:induction false} AnswersMonotone(completed: seq<Completion>, completed': seq<Completion>, a: nat, log: Log, i: int, p: Pdu)
    requires completed <= completed' && AnswerOk(completed, a, log, i, p)
    ensures AnswerOk(completed', a, log, i, p)
  {
    if Done(completed, a, i) {
      var n :| 0 <= n < |completed| && completed[n].link == a && completed[n].entry == i;
      assert completed'[n] == completed[n];
    }
  }

  /** A block that the session already holds is recognised by its message id alone. */
  lemma {:induction false} NeverRepeats(completed: seq<Completion>, a: nat, log: Log, link: Link, i: nat, listen: seq<byte>)
    requires LogOk(log) && LinkOk(completed, a, log, link) && link.reached <= i < |log|
    ensures !Judged(link, log, i, listen).Acknowledge?
  {
    assert StepOk(Before(log, i), log[i]);
    if Judged(link, log, i, listen).Acknowledge? && link.handled < i {
      assert SameAttempt(log, link.handled, i);
    }
  }

  lemma {:induction false} LinkMonotone(completed: seq<Completion>, completed': seq<Completion>, a: nat, log: Log, link: Link)
    requires completed <= completed' && LinkOk(completed, a, log, link)
    ensures LinkOk(completed', a, log, link)
  {
    forall n | 0 <= n < |link.answers|
      ensures AnswerOk(completed', a, log, link.answers[n].about, link.answers[n].pdu)
    {
      AnswersMonotone(completed, completed', a, log, link.answers[n].about, link.answers[n].pdu);
    }
    if link.session.last.Some? {
      AnswersMonotone(completed, completed', a, log, link.handled, link.session.last.value.response);
    }
  }

  lemma {:induction false} TakenAssembly(completed: seq<Completion>, a: nat, log: Log, link: Link, i: nat,
                      listen: seq<byte>, e: Server.Surroundings)
    requires LogOk(log) && LinkOk(completed, a, log, link) && link.reached <= i < |log|
    requires Judged(link, log, i, listen).Take? && log[i].Block? && WellCut(log[i])
    ensures link.handled < i && AssemblyOk(Serviced(link, log, i, listen, e), log)
  {
    TakesNextPiece(completed, a, log, link, i, listen);
  }

  lemma {:induction false} TakenAnswer(completed: seq<Completion>, a: nat, log: Log, link: Link, i: nat,
                    listen: seq<byte>, e: Server.Surroundings)
    requires i < |log| && log[i].Block? && WellCut(log[i]) && e.preferredSize > 0
    requires Received(link, log, i, listen, e).completed.Some? ==> Done(completed, a, i)
    requires Judged(link, log, i, listen).Take?
    ensures var o := Received(link, log, i, listen, e);
            && o.session.last.Some? && o.session.last.value.mid == log[i].pdu.mid
            && AnswerOk(completed, a, log, i, o.session.last.value.response)
            && (o.reply.Some? ==> o.reply == Some(o.session.last.value.response))
  {
    AnswersProgress(completed, a, log, i, e, Received(link, log, i, listen, e).completed.Some?);
  }

  /** What is left of the condition on a link when the PDU at position i has been handled. */
  lemma {:induction false} HandledOk(completed: seq<Completion>, a: nat, log: Log, link: Link, link': Link, i: nat)
    requires LinkOk(completed, a, log, link) && link.handled <= i < |log|
    requires link'.handled == link'.reached == i && AssemblyOk(link', log)
    requires link'.session.last.Some? && link'.session.last.value.mid == log[i].pdu.mid
    requires AnswerOk(completed, a, log, i, link'.session.last.value.response)
    requires link'.answers == link.answers || link'.answers == link.answers + [Answer(link'.session.last.value.response, i)]
    ensures LinkOk(completed, a, log, link')
  {
  }

  lemma {:induction false} TakenOk(completed: seq<Completion>, a: nat, log: Log, link: Link, i: nat,
                listen: seq<byte>, e: Server.Surroundings)
    requires LogOk(log) && LinkOk(completed, a, log, link) && link.reached <= i < |log| && e.preferredSize > 0
    requires Received(link, log, i, listen, e).completed.Some? ==> Done(completed, a, i)
    requires Judged(link, log, i, listen).Take? && log[i].Block? && WellCut(log[i])
    ensures LinkOk(completed, a, log, Serviced(link, log, i, listen, e))
  {
    TakenAssembly(completed, a, log, link, i, listen, e);
    TakenAnswer(completed, a, log, link, i, listen, e);
    HandledOk(completed, a, log, link, Serviced(link, log, i, listen, e), i);
  }

  lemma {:induction false} ReplayedOk(completed: seq<Completion>, a: nat, log: Log, link: Link, i: nat,
                   listen: seq<byte>, e: Server.Surroundings)
    requires LogOk(log) && LinkOk(completed, a, log, link) && link.reached <= i < |log|
    requires var v := Judged(link, log, i, listen); v.Replay? || v.Forget?
    ensures LinkOk(completed, a, log, Serviced(link, log, i, listen, e))
  {
  }

  lemma {:induction false} RejectedOk(completed: seq<Completion>, a: nat, log: Log, link: Link, i: nat,
                   listen: seq<byte>, e: Server.Surroundings)
    requires LogOk(log) && LinkOk(completed, a, log, link) && link.reached <= i < |log|
    requires Judged(link, log, i, listen).Reject? && log[i].Block? && WellCut(log[i])
    ensures LinkOk(completed, a, log, Serviced(link, log, i, listen, e))
  {
  }

  /** The verdict on anything a client sends: its blocks are never refused, never mistaken for resource
      discovery and never met a second time under a new message id. */
  lemma {:induction false} VerdictOnEntry(completed: seq<Completion>, a: nat, log: Log, link: Link, i: nat, listen: seq<byte>)
    requires LogOk(log) && LinkOk(completed, a, log, link) && link.reached <= i < |log|
    ensures var v := Judged(link, log, i, listen);
            if log[i].Rst? then v.Replay? || v.Forget?
            else WellCut(log[i]) && (v.Replay? || v.Reject? || v.Take?)
  {
    assert StepOk(Before(log, i), log[i]);
    NeverRepeats(completed, a, log, link, i, listen);
  }

  lemma {:induction false} ServicedOk(completed: seq<Completion>, completed': seq<Completion>, a: nat, log: Log, link: Link, i: nat,
                   listen: seq<byte>, e: Server.Surroundings)
    requires LogOk(log) && LinkOk(completed, a, log, link) && link.reached <= i < |log| && e.preferredSize > 0
    requires completed <= completed'
    requires Received(link, log, i, listen, e).completed.Some? ==> Done(completed', a, i)
    ensures LinkOk(completed', a, log, Serviced(link, log, i, listen, e))
  {
    LinkMonotone(completed, completed', a, log, link);
    VerdictOnEntry(completed, a, log, link, i, listen);
    match Judged(link, log, i, listen)
    case Take(_, _) => TakenOk(completed', a, log, link, i, listen, e);
    case Reject(_) => RejectedOk(completed', a, log, link, i, listen, e);
    case _ => ReplayedOk(completed', a, log, link, i, listen, e);
  }

  lemma {:induction false} DeliveriesStand(net: Net, net': Net)
    requires net.completed <= net'.completed && net.delivered == net'.delivered
    requires forall n :: 0 <= n < |net.delivered| ==> DeliveryOk(net, net.delivered[n])
    requires forall n :: 0 <= n < |net.completed| && CompletionOk(net, net.completed[n]) ==>
               CompletionOk(net', net.completed[n]) && Of(net', net.completed[n]) == Of(net, net.completed[n])
    ensures forall n :: 0 <= n < |net.delivered| ==> DeliveryOk(net', net.delivered[n])
  {
    forall m | 0 <= m < |net.delivered| ensures DeliveryOk(net', net.delivered[m]) {
      var d := net.delivered[m];
      var n :| 0 <= n < |net.completed| && CompletionOk(net, net.completed[n]) &&
        Of(net, net.completed[n]).record == d.record && Of(net, net.completed[n]).pdu.token == d.token;
      assert net'.completed[n] == net.completed[n];
    }
  }

  /** A record is completed by its last block, and is then held behind the leftover. */
  lemma {:induction false} CompletesWhole(completed: seq<Completion>, a: nat, log: Log, link: Link, i: nat,
                       listen: seq<byte>, e: Server.Surroundings)
    requires LogOk(log) && LinkOk(completed, a, log, link) && link.reached <= i < |log|
    requires Received(link, log, i, listen, e).completed.Some?
    ensures link.handled < i && Serviced(link, log, i, listen, e).handled == i
    ensures WellCut(log[i]) && !log[i].pdu.block1.value.more && Judged(link, log, i, listen).Take?
    ensures Received(link, log, i, listen, e).completed.value == Leftover(link, log, i, listen) + log[i].record
  {
    VerdictOnEntry(completed, a, log, link, i, listen);
    TakesNextPiece(completed, a, log, link, i, listen);
    CutPieces(log[i]);
  }

  lemma {:induction false} ServeCompletes(net: Net, listen: seq<byte>, a: nat, i: nat, e: Server.Surroundings)
    requires Inv(net) && Enabled(net, Deliver(a, i, e))
    requires Received(net.links[a], net.client.wire[a], i, listen, e).completed.Some?
    ensures net.links[a].handled < i
    ensures var net' := Serve(net, listen, a, i, e);
            net'.links[a].handled == i && CompletionOk(net', net'.completed[|net.completed|])
  {
    assert LogOk(net.client.wire[a]) && LinkOk(net.completed, a, net.client.wire[a], net.links[a]);
    CompletesWhole(net.completed, a, net.client.wire[a], net.links[a], i, listen, e);
  }

  lemma {:induction false} ServeKeepsLinks(net: Net, listen: seq<byte>, a: nat, i: nat, e: Server.Surroundings)
    requires Inv(net) && Enabled(net, Deliver(a, i, e))
    ensures var net' := Serve(net, listen, a, i, e);
            && net.links[a].handled <= net'.links[a].handled
            && forall b :: 0 <= b < |net'.links| ==> LinkOk(net'.completed, b, net'.client.wire[b], net'.links[b])
  {
    var net' := Serve(net, listen, a, i, e);
    var log, link := net.client.wire[a], net.links[a];
    assert LogOk(log) && LinkOk(net.completed, a, log, link);
    if Received(link, log, i, listen, e).completed.Some? {
      assert net'.completed[|net.completed|].link == a && net'.completed[|net.completed|].entry == i;
    }
    ServicedOk(net.completed, net'.completed, a, log, link, i, listen, e);
    forall b | 0 <= b < |net'.links| ensures LinkOk(net'.completed, b, net'.client.wire[b], net'.links[b]) {
      if b != a {
        LinkMonotone(net.completed, net'.completed, b, net.client.wire[b], net.links[b]);
      }
    }
  }

  lemma {:induction false} OldCompletionsStand(net: Net, listen: seq<byte>, a: nat, i: nat, e: Server.Surroundings)
    requires Inv(net) && Enabled(net, Deliver(a, i, e))
    requires net.links[a].handled <= Serve(net, listen, a, i, e).links[a].handled
    ensures var net' := Serve(net, listen, a, i, e);
            forall n :: 0 <= n < |net.completed| ==>
              CompletionOk(net', net.completed[n]) && Of(net', net.completed[n]) == Of(net, net.completed[n])
  {
    var net' := Serve(net, listen, a, i, e);
    forall n | 0 <= n < |net.completed| ensures CompletionOk(net', net.completed[n]) {
      assert CompletionOk(net, net.completed[n]);
    }
  }

  /** The entries that complete records on one link only ever count up. */
  predicate InOrder(completed: seq<Completion>) {
    forall m, n :: 0 <= m < n < |completed| && completed[m].link == completed[n].link ==>
      completed[m].entry < completed[n].entry
  }

  lemma {:induction false} OneMoreInOrder(net: Net, done: Completion)
    requires InOrder(net.completed) && done.link < |net.links| && net.links[done.link].handled < done.entry
    requires forall n :: 0 <= n < |net.completed| ==> CompletionOk(net, net.completed[n])
    ensures InOrder(net.completed + [done])
  {
    var completed := net.completed + [done];
    forall m, n | 0 <= m < n < |completed| && completed[m].link == completed[n].link
      ensures completed[m].entry < completed[n].entry
    {
      assert CompletionOk(net, completed[m]);
    }
  }

  lemma {:induction false} ServeKeepsCompletions(net: Net, listen: seq<byte>, a: nat, i: nat, e: Server.Surroundings)
    requires Inv(net) && Enabled(net, Deliver(a, i, e))
    requires net.links[a].handled <= Serve(net, listen, a, i, e).links[a].handled
    ensures var net' := Serve(net, listen, a, i, e);
            && (forall n :: 0 <= n < |net.completed| ==>
                  CompletionOk(net', net.completed[n]) && Of(net', net.completed[n]) == Of(net, net.completed[n]))
            && (forall n :: 0 <= n < |net'.completed| ==> CompletionOk(net', net'.completed[n]))
            && InOrder(net'.completed)
  {
    var net' := Serve(net, listen, a, i, e);
    OldCompletionsStand(net, listen, a, i, e);
    if Received(net.links[a], net.client.wire[a], i, listen, e).completed.Some? {
      ServeCompletes(net, listen, a, i, e);
      OneMoreInOrder(net, net'.completed[|net.completed|]);
    }
  }

  lemma {:induction false} ServeKeeps(net: Net, listen: seq<byte>, a: nat, i: nat, e: Server.Surroundings)
    requires Inv(net) && Enabled(net, Deliver(a, i, e))
    ensures Inv(Serve(net, listen, a, i, e))
  {
    ServeKeepsLinks(net, listen, a, i, e);
    ServeKeepsCompletions(net, listen, a, i, e);
    DeliveriesStand(net, Serve(net, listen, a, i, e));
  }

  // ---------------------------------------------------------------------------------------
  // The client's steps keep it.

  /** The block of this link that was acknowledged with `Continue` under the client's token and block
      number is the last one sent: the server has handled everything before the next block. */
  lemma {:induction false} AcknowledgedEntry(completed: seq<Completion>, a: nat, log: Log, link: Link, n: nat)
    requires LogOk(log) && LinkOk(completed, a, log, link) && n < |link.answers|
    requires log != [] && log[|log| - 1].Block? && WellCut(log[|log| - 1])
    requires var p, e := link.answers[n].pdu, log[|log| - 1];
             p.pduType == Acknowledgement && p.token == e.pdu.token && p.block1.Some? && p.block1.value.num == Num(e)
    ensures |log| - 1 <= link.handled
  {
    var answer := link.answers[n];
    assert AnswerOk(completed, a, log, answer.about, answer.pdu);
    assert SameAttempt(log, answer.about, |log| - 1);
  }

  /** The last entry of the open socket's log is the client's current block. */
  lemma {:induction false} LastEntry(net: Net) returns (e: Entry)
    requires Inv(net) && OnWire(net.client) && net.client.open && net.links != []
    requires net.client.queue != []
    ensures |net.client.wire| == |net.links|
    ensures var log := net.client.wire[|net.links| - 1];
            && LogOk(log) && log != [] && log[|log| - 1] == e
            && LinkOk(net.completed, |net.links| - 1, log, net.links[|net.links| - 1])
    ensures e.Block? && WellCut(e) && e.record == net.client.queue[0].record
    ensures e.pdu.token == net.client.token && Num(e) == net.client.curBlock
  {
    e := LiveEntry(net.client);
    LastLink(net);
    var log := net.client.wire[|net.links| - 1];
    BlocksAreCut(log, |log| - 1);
  }

  lemma {:induction false} LastLink(net: Net)
    requires Inv(net) && net.links != []
    ensures |net.client.wire| == |net.links|
    ensures var last := |net.links| - 1;
            LogOk(net.client.wire[last]) && LinkOk(net.completed, last, net.client.wire[last], net.links[last])
  {
  }

  lemma {:induction false} LiveEntry(c: Client) returns (e: Entry)
    requires OnWire(c) && c.open && c.queue != []
    ensures c.wire != [] && c.wire[|c.wire| - 1] != []
    ensures e == c.wire[|c.wire| - 1][|c.wire[|c.wire| - 1]| - 1]
    ensures e.Block? && e.record == c.queue[0].record && e.pdu.token == c.token
    ensures e.pdu.block1.Some? && Num(e) == c.curBlock
  {
    e := CurrentEntry(c);
    EntryFields(c, e);
  }

  lemma {:induction false} EntryFields(c: Client, e: Entry)
    requires Writable(c) && e == CurrentEntry(c)
    ensures e.Block? && e.record == c.queue[0].record && e.pdu.token == c.token
    ensures e.pdu.block1.Some? && Num(e) == c.curBlock
  {
  }

  lemma {:induction false} BlocksAreCut(log: Log, i: nat)
    requires LogOk(log) && i < |log| && log[i].Block?
    ensures WellCut(log[i])
  {
    assert StepOk(Before(log, i), log[i]);
  }

  lemma {:induction false} AdvanceMeans(c: Client, p: Pdu)
    requires JudgeAck(c, p) == Advance
    ensures p.pduType == Acknowledgement && p.token == c.token && p.block1.Some? && p.block1.value.num == c.curBlock
    ensures c.queue != []
  {
  }

  lemma {:induction false} AcknowledgedLast(net: Net, n: nat)
    requires Inv(net) && OnWire(net.client) && net.client.open && net.links != []
    requires n < |net.links[|net.links| - 1].answers|
    requires JudgeAck(net.client, net.links[|net.links| - 1].answers[n].pdu) == Advance
    ensures |net.client.wire| == |net.links|
    ensures |net.client.wire[|net.links| - 1]| - 1 <= net.links[|net.links| - 1].handled
  {
    var last := |net.links| - 1;
    AdvanceMeans(net.client, net.links[last].answers[n].pdu);
    var e := LastEntry(net);
    AcknowledgedEntry(net.completed, last, net.client.wire[last], net.links[last], n);
  }

  lemma {:induction false} LinkFollows(completed: seq<Completion>, a: nat, log: Log, log': Log, link: Link)
    requires log <= log' && LinkOk(completed, a, log, link)
    requires forall i :: |log| <= i < |log'| && Linked(log', i) ==> i - 1 <= link.handled
    ensures LinkOk(completed, a, log', link)
  {
    forall i | 0 <= i < |log'| && Linked(log', i) ensures i - 1 <= link.handled {
      if i < |log| {
        assert Linked(log, i);
      }
    }
    forall n | 0 <= n < |link.answers| ensures AnswerOk(completed, a, log', link.answers[n].about, link.answers[n].pdu) {
      assert AnswerOk(completed, a, log, link.answers[n].about, link.answers[n].pdu);
    }
  }

  lemma {:induction false} MoveKeepsLinks(net: Net, net': Net, advance: bool)
    requires Inv(net) && Extends(net.client.wire, net'.client.wire, advance)
    requires net'.completed == net.completed
    requires net'.links == Extended(net.links, |net'.client.wire|)
    requires advance ==> net.links != [] && |net.client.wire[|net.links| - 1]| - 1 <= net.links[|net.links| - 1].handled
    ensures |net'.links| == |net'.client.wire|
    ensures forall a :: 0 <= a < |net'.links| ==> LinkOk(net'.completed, a, net'.client.wire[a], net'.links[a])
  {
    var wire, wire' := net.client.wire, net'.client.wire;
    forall a | 0 <= a < |net'.links| ensures LinkOk(net'.completed, a, wire'[a], net'.links[a]) {
      if a < |wire| {
        assert net'.links[a] == net.links[a];
        assert LinkOk(net.completed, a, wire[a], net.links[a]);
        LinkFollows(net.completed, a, wire[a], wire'[a], net.links[a]);
      } else {
        assert net'.links[a] == NewLink;
      }
    }
  }

  lemma {:induction false} MoveKeepsCompletions(net: Net, net': Net, advance: bool)
    requires Inv(net) && Extends(net.client.wire, net'.client.wire, advance)
    requires net'.completed == net.completed
    requires net.links <= net'.links
    ensures forall n :: 0 <= n < |net.completed| ==>
              CompletionOk(net', net.completed[n]) && Of(net', net.completed[n]) == Of(net, net.completed[n])
  {
    forall n | 0 <= n < |net.completed|
      ensures CompletionOk(net', net.completed[n]) && Of(net', net.completed[n]) == Of(net, net.completed[n])
    {
      assert CompletionOk(net, net.completed[n]);
      assert net.client.wire[net.completed[n].link] <= net'.client.wire[net.completed[n].link];
    }
  }

  /** Of an attempt still being made, only the latest block can be its last. */
  lemma {:induction false} LastOfAttempt(log: Log, i: nat)
    requires LogOk(log) && i < |log| && SameAttempt(log, i, |log| - 1)
    requires WellCut(log[i]) && !log[i].pdu.block1.value.more
    ensures i == |log| - 1
  {
    if i < |log| - 1 {
      MoreFollow(log, i, |log| - 1);
    }
  }

  lemma {:induction false} FinishedBySuccess(c: Client, p: Pdu)
    requires JudgeAck(c, p) == Finish && p.pduClass == SUCCESS
    ensures p.code == CHANGED && p.token == c.token
  {
  }

  /** A `Changed` answer is about an entry whose record has been completed. */
  lemma {:induction false} ChangedIsDone(completed: seq<Completion>, a: nat, log: Log, link: Link, n: nat)
    returns (about: nat, m: nat)
    requires LinkOk(completed, a, log, link) && n < |link.answers|
    requires link.answers[n].pdu.pduClass == SUCCESS && link.answers[n].pdu.code == CHANGED
    ensures about < |log| && WellCut(log[about]) && log[about].pdu.token == link.answers[n].pdu.token
    ensures m < |completed| && completed[m].link == a && completed[m].entry == about
  {
    var answer := link.answers[n];
    assert AnswerOk(completed, a, log, answer.about, answer.pdu);
    about := answer.about;
    m :| 0 <= m < |completed| && completed[m].link == a && completed[m].entry == about;
  }

  /** A completed record in the attempt that a log ends with is the record of its last entry. */
  lemma {:induction false} CompletedLast(net: Net, log: Log, a: nat, about: nat, m: nat)
    requires m < |net.completed| && CompletionOk(net, net.completed[m])
    requires net.completed[m].link == a && net.completed[m].entry == about
    requires a < |net.client.wire| && log == net.client.wire[a] && LogOk(log) && about < |log|
    requires log[|log| - 1].Block? && log[about].Block? && log[about].pdu.token == log[|log| - 1].pdu.token
    ensures DeliveryOk(net, Delivery(log[|log| - 1].record, log[|log| - 1].pdu.token))
  {
    assert SameAttempt(log, about, |log| - 1);
    LastOfAttempt(log, about);
    assert Of(net, net.completed[m]) == log[|log| - 1];
  }

  lemma {:induction false} MoveKeepsDeliveries(net: Net, net': Net, advance: bool)
    requires Inv(net) && Extends(net.client.wire, net'.client.wire, advance)
    requires net'.completed == net.completed && net.links <= net'.links && net.delivered <= net'.delivered
    requires forall d :: d in net'.delivered[|net.delivered|..] ==> DeliveryOk(net, d)
    ensures forall n :: 0 <= n < |net'.delivered| ==> DeliveryOk(net', net'.delivered[n])
  {
    MoveKeepsCompletions(net, net', advance);
    forall k | 0 <= k < |net'.delivered| ensures DeliveryOk(net', net'.delivered[k]) {
      var d := net'.delivered[k];
      assert DeliveryOk(net, d) by {
        if k >= |net.delivered| {
          assert d == net'.delivered[|net.delivered|..][k - |net.delivered|];
        }
      }
      var m :| 0 <= m < |net.completed| && CompletionOk(net, net.completed[m]) &&
        Of(net, net.completed[m]).record == d.record && Of(net, net.completed[m]).pdu.token == d.token;
      assert CompletionOk(net', net'.completed[m]);
    }
  }

  /** The client's own part of the invariant. */
  lemma {:induction false} HandleKeepsClient(net: Net, ev: Event, w: World)
    requires Inv(net) && Sound(net.client) && FreshTokens(w, net.client.wire) && Parsable(ev)
    ensures var c' := Handle(net.client, ev, w);
            && (!c'.failed ==> Sound(c') && OnWire(c')) && WireOk(c'.wire)
            && Extends(net.client.wire, c'.wire, Advances(net.client, ev))
            && From(c', Moved(net, ev, w).submitted)
  {
    HandleKeepsSound(net.client, ev, w);
    HandleFrom(net.client, ev, w, net.submitted);
    if LateError(net.client, ev) {
      assert Handle(net.client, ev, w).wire == net.client.wire;
    } else {
      HandleKeepsWire(net.client, ev, w);
    }
  }

  lemma {:induction false} MoveKeeps(net: Net, ev: Event, w: World)
    requires Inv(net) && Sound(net.client) && FreshTokens(w, net.client.wire) && Parsable(ev)
    requires Advances(net.client, ev) ==>
               net.links != [] && |net.client.wire[|net.links| - 1]| - 1 <= net.links[|net.links| - 1].handled
    requires Succeeds(net.client, ev) ==> DeliveryOk(net, Delivery(net.client.queue[0].record, net.client.token))
    ensures Inv(Moved(net, ev, w))
  {
    var net', advance := Moved(net, ev, w), Advances(net.client, ev);
    HandleKeepsClient(net, ev, w);
    MoveKeepsLinks(net, net', advance);
    MoveKeepsCompletions(net, net', advance);
    MoveKeepsDeliveries(net, net', advance);
  }

  /** Reading an answer from a channel changes nothing the invariant speaks of. */
  lemma {:induction false} PositionIrrelevant(net: Net, n: nat)
    requires Inv(net) && net.links != []
    ensures Inv(Reached(net, n))
  {
    var net' := Reached(net, n);
    forall a | 0 <= a < |net'.links| ensures LinkOk(net'.completed, a, net'.client.wire[a], net'.links[a]) {
      assert LinkOk(net.completed, a, net.client.wire[a], net.links[a]);
    }
    forall m | 0 <= m < |net.completed| ensures CompletionOk(net', net.completed[m]) {
      assert CompletionOk(net, net.completed[m]);
    }
    DeliveriesStand(net, net');
  }

  lemma {:induction false} AnswerParses(net: Net, n: nat)
    requires Inv(net) && net.links != [] && n < |net.links[|net.links| - 1].answers|
    ensures var b := net.links[|net.links| - 1].answers[n].pdu.block1; b.Some? ==> b.value.size > 0
  {
    var last := |net.links| - 1;
    assert LinkOk(net.completed, last, net.client.wire[last], net.links[last]);
  }

  lemma {:induction false} CompletionStands(net: Net, m: nat)
    requires Inv(net) && m < |net.completed|
    ensures CompletionOk(net, net.completed[m])
  {
  }

  /** A `Changed` answer under the token that the open socket's log ends with comes from a completed record. */
  lemma {:induction false} ChangedIsOf(net: Net, a: nat, n: nat, e: Entry) returns (m: nat)
    requires a < |net.client.wire| && a < |net.links| && EndsInBlock(net.client.wire[a], e)
    requires LinkOk(net.completed, a, net.client.wire[a], net.links[a]) && n < |net.links[a].answers|
    requires var p := net.links[a].answers[n].pdu; p.pduClass == SUCCESS && p.code == CHANGED && p.token == e.pdu.token
    ensures m < |net.completed| && net.completed[m].link == a
    ensures CompletionOk(net, net.completed[m]) ==> DeliveryOk(net, Delivery(e.record, e.pdu.token))
  {
    var about;
    about, m := ChangedIsDone(net.completed, a, net.client.wire[a], net.links[a], n);
    if CompletionOk(net, net.completed[m]) {
      CompletedLast(net, net.client.wire[a], a, about, m);
    }
  }

  ghost predicate EndsInBlock(log: Log, e: Entry) {
    LogOk(log) && log != [] && log[|log| - 1] == e && e.Block?
  }

  /** A `Changed` answer the client acts on comes from a completed record, and that record is the one
      the client is sending. */
  lemma {:induction false} SuccessAllowed(net: Net, n: nat)
    requires Inv(net) && OnWire(net.client) && net.client.open && net.links != [] && net.client.queue != []
    requires n < |net.links[|net.links| - 1].answers|
    requires var p := net.links[|net.links| - 1].answers[n].pdu;
             p.pduClass == SUCCESS && p.code == CHANGED && p.token == net.client.token
    ensures DeliveryOk(net, Delivery(net.client.queue[0].record, net.client.token))
  {
    var e := LastEntry(net);
    var m := ChangedIsOf(net, |net.links| - 1, n, e);
    CompletionStands(net, m);
  }

  lemma {:induction false} AnswerAllows(net: Net, n: nat, ev: Event)
    requires Inv(net) && Sound(net.client) && net.client.open && net.links != []
    requires n < |net.links[|net.links| - 1].answers| && ev.Turn? && ev == AnswerEvent(net, n, ev.now)
    ensures Parsable(ev)
    ensures Advances(net.client, ev) ==> |net.client.wire[|net.links| - 1]| - 1 <= net.links[|net.links| - 1].handled
    ensures Succeeds(net.client, ev) ==> DeliveryOk(net, Delivery(net.client.queue[0].record, net.client.token))
  {
    AnswerParses(net, n);
    if Advances(net.client, ev) {
      AcknowledgedLast(net, n);
    }
    if Succeeds(net.client, ev) {
      FinishedBySuccess(net.client, ev.ready.value.pdu);
      SuccessAllowed(net, n);
    }
  }

  function Reached(net: Net, n: nat): Net
    requires net.links != []
  {
    net.(links := net.links[|net.links| - 1 := net.links[|net.links| - 1].(answered := n)])
  }

  lemma {:induction false} ReachedSame(net: Net, listen: seq<byte>, n: nat, now: int, w: World)
    requires Enabled(net, Answered(n, now, w))
    ensures net.links != [] && n < |Reached(net, n).links[|net.links| - 1].answers|
    ensures Sound(Reached(net, n).client) && |Reached(net, n).links| == |net.links|
    ensures Step(net, listen, Answered(n, now, w)) == Moved(Reached(net, n), AnswerEvent(Reached(net, n), n, now), w)
  {
  }

  lemma {:induction false} AnswerKeeps(net: Net, n: nat, now: int, w: World)
    requires Inv(net) && Enabled(net, Answered(n, now, w)) && net.links != []
    requires n < |Reached(net, n).links[|net.links| - 1].answers| && Sound(Reached(net, n).client)
    requires |Reached(net, n).links| == |net.links|
    ensures Inv(Moved(Reached(net, n), AnswerEvent(Reached(net, n), n, now), w))
  {
    PositionIrrelevant(net, n);
    AnswerAllows(Reached(net, n), n, AnswerEvent(Reached(net, n), n, now));
    MoveKeeps(Reached(net, n), AnswerEvent(Reached(net, n), n, now), w);
  }

  /** Every step keeps the invariant. */
  lemma {:induction false} StepKeeps(net: Net, listen: seq<byte>, act: Action)
    requires Inv(net) && Enabled(net, act)
    ensures Inv(Step(net, listen, act))
  {
    match act
    case Act(ev, w) => MoveKeeps(net, ev, w);
    case Answered(n, now, w) =>
      ReachedSame(net, listen, n, now, w);
      AnswerKeeps(net, n, now, w);
    case Deliver(a, i, e) => ServeKeeps(net, listen, a, i, e);
  }

  lemma {:induction false} RunKeeps(nets: seq<Net>, acts: seq<Action>, listen: seq<byte>, k: nat)
    requires IsRun(nets, acts, listen) && k < |nets|
    ensures Inv(nets[k])
  {
    if k > 0 {
      assert StepAt(nets, acts, listen, k - 1);
      RunKeeps(nets, acts, listen, k - 1);
      StepKeeps(nets[k - 1], listen, acts[k - 1]);
    }
  }

  // ---------------------------------------------------------------------------------------
  // What every run guarantees.

  /** Whatever was lost, repeated, restarted or given up: a record the server takes for complete is a
      submitted record, behind what its session still held when the record was begun. */
  lemma {:induction false} CompletedWasSubmitted(nets: seq<Net>, acts: seq<Action>, listen: seq<byte>, k: nat, n: nat)
    requires IsRun(nets, acts, listen) && k < |nets| && n < |nets[k].completed|
    ensures CompletionOk(nets[k], nets[k].completed[n])
    ensures Of(nets[k], nets[k].completed[n]).record in nets[k].submitted
  {
    RunKeeps(nets, acts, listen, k);
    assert CompletionOk(nets[k], nets[k].completed[n]);
  }

  /** A record leaves the queue as delivered only if the server completed it in that very attempt. */
  lemma {:induction false} DeliveredWasCompleted(nets: seq<Net>, acts: seq<Action>, listen: seq<byte>, k: nat, m: nat)
    requires IsRun(nets, acts, listen) && k < |nets| && m < |nets[k].delivered|
    ensures exists n :: 0 <= n < |nets[k].completed| && CompletionOk(nets[k], nets[k].completed[n]) &&
              Of(nets[k], nets[k].completed[n]).pdu.token == nets[k].delivered[m].token &&
              nets[k].completed[n].bytes == nets[k].completed[n].leftover + nets[k].delivered[m].record
  {
    RunKeeps(nets, acts, listen, k);
    assert DeliveryOk(nets[k], nets[k].delivered[m]);
  }

  lemma {:induction false} PostedIfRepliable(nets: seq<Net>, acts: seq<Action>, listen: seq<byte>, k: nat, n: nat)
    requires IsRun(nets, acts, listen) && k < |nets| && n < |nets[k].completed|
    requires forall m :: 0 <= m < k && acts[m].Deliver? ==> acts[m].e.replyToOk
    ensures nets[k].completed[n].posted
  {
    if k > 0 {
      assert StepAt(nets, acts, listen, k - 1);
      if n < |nets[k - 1].completed| {
        PostedIfRepliable(nets, acts, listen, k - 1, n);
      }
    }
  }

  /** If reply-tos name the sender, a record leaves the queue as delivered only if it was posted. */
  lemma {:induction false} DeliveredWasPosted(nets: seq<Net>, acts: seq<Action>, listen: seq<byte>, k: nat, m: nat) returns (n: nat)
    requires IsRun(nets, acts, listen) && k < |nets| && m < |nets[k].delivered|
    requires forall j :: 0 <= j < k && acts[j].Deliver? ==> acts[j].e.replyToOk
    ensures n < |nets[k].completed| && nets[k].completed[n].posted && CompletionOk(nets[k], nets[k].completed[n])
    ensures Of(nets[k], nets[k].completed[n]).pdu.token == nets[k].delivered[m].token
    ensures nets[k].completed[n].bytes == nets[k].completed[n].leftover + nets[k].delivered[m].record
  {
    DeliveredWasCompleted(nets, acts, listen, k, m);
    n :| 0 <= n < |nets[k].completed| && CompletionOk(nets[k], nets[k].completed[n]) &&
         Of(nets[k], nets[k].completed[n]).pdu.token == nets[k].delivered[m].token &&
         nets[k].completed[n].bytes == nets[k].completed[n].leftover + nets[k].delivered[m].record;
    PostedIfRepliable(nets, acts, listen, k, n);
  }

  /** Within one attempt a record is completed at most once. */
  lemma {:induction false} CompletedOncePerToken(nets: seq<Net>, acts: seq<Action>, listen: seq<byte>, k: nat, m: nat, n: nat)
    requires IsRun(nets, acts, listen) && k < |nets| && m < n < |nets[k].completed|
    ensures CompletionOk(nets[k], nets[k].completed[m]) && CompletionOk(nets[k], nets[k].completed[n])
    ensures Of(nets[k], nets[k].completed[m]).pdu.token != Of(nets[k], nets[k].completed[n]).pdu.token
  {
    RunKeeps(nets, acts, listen, k);
    var net, first, second := nets[k], nets[k].completed[m], nets[k].completed[n];
    assert CompletionOk(net, first) && CompletionOk(net, second);
    if first.link == second.link {
      var log := net.client.wire[first.link];
      if SameAttempt(log, first.entry, second.entry) {
        MoreFollow(log, first.entry, second.entry);
      }
    } else if first.link < second.link {
      assert Apart(net.client.wire[first.link], net.client.wire[second.link]);
    } else {
      assert Apart(net.client.wire[second.link], net.client.wire[first.link]);
    }
  }

  /** The session of this link is at block `e`, the last one sent, or exactly one past it. */
  lemma {:induction false} AtOrPast(completed: seq<Completion>, a: nat, log: Log, link: Link)
    requires LogOk(log) && LinkOk(completed, a, log, link) && log != []
    requires log[|log| - 1].Block? && WellCut(log[|log| - 1])
    requires link.session.assembly.Partial? && link.session.assembly.token == log[|log| - 1].pdu.token
    ensures var e, s := log[|log| - 1], link.session.assembly;
            || (s.count == Num(e) && |s.buf| == |link.leftover| + e.offset)
            || (s.count == Num(e) + 1 && |s.buf| == |link.leftover| + e.offset + |e.pdu.payload|)
  {
    CutPieces(log[link.handled]);
    CutPieces(log[|log| - 1]);
    if link.handled < |log| - 1 {
      assert SameAttempt(log, link.handled, |log| - 1);
      assert Linked(log, |log| - 1);
      MoreFollow(log, link.handled, |log| - 1);
    }
  }

  /** While the server assembles the record the client is sending, it is at the client's current block or
      exactly one past it, in blocks and in bytes, whatever block sizes have been agreed on the way. */
  lemma {:induction false} LockStep(nets: seq<Net>, acts: seq<Action>, listen: seq<byte>, k: nat)
    requires IsRun(nets, acts, listen) && k < |nets|
    requires !nets[k].client.failed && nets[k].client.open && nets[k].client.queue != []
    ensures nets[k].links != [] && Writable(nets[k].client)
    ensures var c, link := nets[k].client, nets[k].links[|nets[k].links| - 1];
            var s := link.session.assembly;
            s.Partial? && s.token == c.token ==>
              || (s.count == c.curBlock && |s.buf| == |link.leftover| + c.bytesSent)
              || (s.count == c.curBlock + 1 && |s.buf| == |link.leftover| + c.bytesSent + |BlockPdu(c).payload|)
  {
    RunKeeps(nets, acts, listen, k);
    var net := nets[k];
    var last := |net.links| - 1;
    var log, link := net.client.wire[last], net.links[last];
    assert LogOk(log) && LinkOk(net.completed, last, log, link);
    assert log[|log| - 1] == CurrentEntry(net.client);
    assert StepOk(Before(log, |log| - 1), log[|log| - 1]);
    if link.session.assembly.Partial? && link.session.assembly.token == net.client.token {
      AtOrPast(net.completed, last, log, link);
    }
  }

  lemma {:induction false} NextAtMost(completed: seq<Completion>, a: nat, log: Log, link: Link, i: nat)
    requires LogOk(log) && LinkOk(completed, a, log, link) && link.reached <= i < |log| && log[i].Block?
    requires link.session.assembly.Partial? && link.session.assembly.token == log[i].pdu.token
    ensures WellCut(log[i]) && Num(log[i]) <= link.session.assembly.count
  {
    assert StepOk(Before(log, i), log[i]);
    if link.handled < i {
      assert SameAttempt(log, link.handled, i);
    }
  }

  /** The session never meets a block of its record later than the one it expects. */
  lemma {:induction false} NeverAhead(nets: seq<Net>, acts: seq<Action>, listen: seq<byte>, k: nat, a: nat, i: nat)
    requires IsRun(nets, acts, listen) && k < |nets| && a < |nets[k].links|
    requires |nets[k].links| == |nets[k].client.wire|
    requires nets[k].links[a].reached <= i < |nets[k].client.wire[a]| && nets[k].client.wire[a][i].Block?
    requires var s := nets[k].links[a].session.assembly; s.Partial? && s.token == nets[k].client.wire[a][i].pdu.token
    ensures WellCut(nets[k].client.wire[a][i])
    ensures Num(nets[k].client.wire[a][i]) <= nets[k].links[a].session.assembly.count
  {
    RunKeeps(nets, acts, listen, k);
    NextAtMost(nets[k].completed, a, nets[k].client.wire[a], nets[k].links[a], i);
  }

  lemma {:induction false} MessageIdsCount(log: Log, i: nat, j: nat)
    requires LogOk(log) && i <= j < |log|
    ensures log[j].pdu.mid == (log[i].pdu.mid + (j - i)) % MESSAGE_IDS
  {
    assert StepOk(Before(log, j), log[j]);
    if i < j {
      MessageIdsCount(log, i, j - 1);
    }
  }

  lemma {:induction false} ReturnsToItself(mid: nat, d: nat)
    requires mid < MESSAGE_IDS
    ensures (mid + d) % MESSAGE_IDS == mid <==> d % MESSAGE_IDS == 0
  {
  }

  lemma {:induction false} RepeatOnLink(completed: seq<Completion>, a: nat, log: Log, link: Link, i: nat, listen: seq<byte>)
    requires LogOk(log) && LinkOk(completed, a, log, link) && link.reached <= i < |log| && Arrival(log[i]).Parsed?
    ensures Judged(link, log, i, listen).Replay? <==> link.handled >= 0 && (i - link.handled) % MESSAGE_IDS == 0
  {
    if link.handled >= 0 {
      MessageIdsCount(log, link.handled, i);
      assert StepOk(Before(log, link.handled), log[link.handled]);
      ReturnsToItself(log[link.handled].pdu.mid, i - link.handled);
    }
  }

  /** A PDU is answered from memory exactly when a multiple of 65536 PDUs lies between it and the one
      handled last: always for a repetition, never for the PDU sent next. */
  lemma {:induction false} RecognisedAsRepeat(nets: seq<Net>, acts: seq<Action>, listen: seq<byte>, k: nat, a: nat, i: nat)
    requires IsRun(nets, acts, listen) && k < |nets| && a < |nets[k].links|
    requires |nets[k].links| == |nets[k].client.wire|
    requires nets[k].links[a].reached <= i < |nets[k].client.wire[a]| && Arrival(nets[k].client.wire[a][i]).Parsed?
    ensures var link, log := nets[k].links[a], nets[k].client.wire[a];
            Judged(link, log, i, listen).Replay? <==>
              link.handled >= 0 && (i - link.handled) % MESSAGE_IDS == 0
  {
    RunKeeps(nets, acts, listen, k);
    RepeatOnLink(nets[k].completed, a, nets[k].client.wire[a], nets[k].links[a], i, listen);
  }

  /** In every run, a block lies where its number and size say, as section 2.2 of RFC 7959 has it, exactly if it is
      the first of its record or the block size has not been reduced. */
  lemma {:induction false} NumberedAsStandard(nets: seq<Net>, acts: seq<Action>, listen: seq<byte>, k: nat, a: nat, i: nat)
    requires IsRun(nets, acts, listen) && k < |nets| && a < |nets[k].client.wire| && i < |nets[k].client.wire[a]|
    requires nets[k].client.wire[a][i].Block?
    ensures var e := nets[k].client.wire[a][i];
            WellCut(e) && (e.offset == Num(e) * Size(e) <==> Num(e) == 0 || Size(e) == PAYLOAD_TX_SIZE)
  {
    RunKeeps(nets, acts, listen, k);
    NumbersAreCounts(nets[k].client.wire[a], i);
  }

  /** Neither the session nor any answer under way announces a maximum size. */
  predicate Unsized(link: Link) {
    Server.NoSize(link.session) && forall n :: 0 <= n < |link.answers| ==> link.answers[n].pdu.totalSize.None?
  }

  lemma {:induction false} ServicedUnsized(link: Link, log: Log, i: nat, listen: seq<byte>, e: Server.Surroundings)
    requires i < |log| && Unsized(link)
    ensures Unsized(Serviced(link, log, i, listen, e))
  {
    Server.SizeNeverAnnounced(link.session, Arrival(log[i]), listen, e);
  }

  lemma {:induction false} StepUnsized(net: Net, listen: seq<byte>, act: Action, a: nat)
    requires Enabled(net, act) && a < |Step(net, listen, act).links|
    requires a < |net.links| ==> Unsized(net.links[a])
    ensures Unsized(Step(net, listen, act).links[a])
  {
    if act.Deliver? && act.a == a {
      ServicedUnsized(net.links[a], net.client.wire[a], act.i, listen, act.e);
    }
  }

  /** In no run does a response announce the maximum size of a record. */
  lemma {:induction false} SizeNeverOnWire(nets: seq<Net>, acts: seq<Action>, listen: seq<byte>, k: nat, a: nat)
    requires IsRun(nets, acts, listen) && k < |nets| && a < |nets[k].links|
    ensures Unsized(nets[k].links[a])
  {
    if k > 0 {
      assert StepAt(nets, acts, listen, k - 1);
      if a < |nets[k - 1].links| {
        SizeNeverOnWire(nets, acts, listen, k - 1, a);
      }
      StepUnsized(nets[k - 1], listen, acts[k - 1], a);
    }
  }
}
