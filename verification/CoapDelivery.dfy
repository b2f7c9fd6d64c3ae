/** A record that is submitted arrives, although blocks and answers are lost on the way, as long as not too many copies
    of one of them are. */
module CoapDelivery {
  import opened CoapPdu
  import opened Options
  import opened CoapUri
  import opened CoapClient
  import opened CoapClientProofs
  import opened CoapWire
  import opened Network = CoapNetwork
  import opened CoapExchange
  import Server = CoapServer

  /** The state after one enabled action. */
  ghost predicate Follows(net: Net, listen: seq<byte>, act: Action, net': Net) {
    Enabled(net, act) && net' == Step(net, listen, act)
  }

  lemma {:induction false} RunGoesOn(nets: seq<Net>, acts: seq<Action>, listen: seq<byte>, act: Action, net': Net)
    requires IsRun(nets, acts, listen) && Follows(nets[|acts|], listen, act, net')
    ensures IsRun(nets + [net'], acts + [act], listen)
  {
    var nets', acts' := nets + [net'], acts + [act];
    forall k | 0 <= k < |acts'| ensures StepAt(nets', acts', listen, k) {
      if k < |acts| {
        assert StepAt(nets, acts, listen, k);
      }
    }
  }

  /** Blocks are delivered, answers are read, and the client runs out of time; nothing else happens. */
  predicate Exchanges(acts: seq<Action>, from: nat) {
    forall k :: from <= k < |acts| ==> acts[k].Deliver? || acts[k].Answered? || IsSilence(acts[k])
  }

  predicate IsSilence(act: Action) {
    act.Act? && act.ev.Turn? && act.ev.ready.None?
  }

  /** In a run the block being sent is the one logged last. */
  lemma {:induction false} WorksOnLast(nets: seq<Net>, acts: seq<Action>, listen: seq<byte>)
    requires IsRun(nets, acts, listen) && Placed(nets[|acts|])
    ensures var c := nets[|acts|].client; Writable(c) && EndsIn(c.wire, CurrentEntry(c))
  {
    RunOnWire(nets, acts, listen);
    LastShown(nets[|acts|].client);
  }

  // ---------------------------------------------------------------------------------------
  // Losses.

  /** `d` is `c` after it has sent copies of its block. */
  predicate Copied(c: Client, d: Client) {
    && d == c.(retransmissions := d.retransmissions, reconnects := d.reconnects, ackTimeoutMs := d.ackTimeoutMs,
               ackDeadline := d.ackDeadline)
    && Sound(d)
  }

  /** The deadline for the acknowledgement passes, and a copy is sent. */
  lemma {:induction false} CopySent(c: Client, w: World)
    requires Sound(c) && c.open && Writable(c) && EndsIn(c.wire, CurrentEntry(c)) && c.ackDeadline.Some?
    requires !c.encrypted && c.retransmissions + 1 < MAX_RETRANSMIT && w(0).sendOk
    ensures var d := Handle(c, Turn(None, c.ackDeadline.value), w);
            Copied(c, d) && d.retransmissions == c.retransmissions + 1
  {
    var late := Late(c).(ackTimeoutMs := 2 * c.ackTimeoutMs);
    assert Handle(c, Turn(None, c.ackDeadline.value), w) == OnNoAck(c, w) == SendOrRetry(late, w, 0) == SendBlock(late, w(0));
    SameEntry(c, late);
  }

  function Silence(net: Net, w: World): Action
    requires net.client.ackDeadline.Some?
  {
    Act(Turn(None, net.client.ackDeadline.value), w)
  }

  lemma {:induction false} SilentTurn(net: Net, listen: seq<byte>, w: World)
    requires Placed(net) && Writable(net.client) && EndsIn(net.client.wire, CurrentEntry(net.client))
    requires !net.client.encrypted && net.client.retransmissions + 1 < MAX_RETRANSMIT
    requires w(0).sendOk && FreshTokens(w, net.client.wire)
    ensures net.client.ackDeadline.Some? && Enabled(net, Silence(net, w))
    ensures var net' := Step(net, listen, Silence(net, w));
            && net' == net.(client := net'.client) && Copied(net.client, net'.client)
            && net'.client.retransmissions == net.client.retransmissions + 1
  {
    CopySent(net.client, w);
  }

  lemma {:induction false} CopiedExpects(s: Server.Session, c: Client, d: Client, listen: seq<byte>)
    requires Copied(c, d) && Expects(s, c, listen)
    ensures Expects(s, d, listen)
  {
  }

  lemma {:induction false} CopiedPlaced(net: Net, d: Client)
    requires Placed(net) && Copied(net.client, d)
    ensures Placed(net.(client := d))
  {
  }

  lemma {:induction false} CopiedAtWork(net: Net, d: Client, listen: seq<byte>)
    requires AtWork(net, listen) && Copied(net.client, d)
    ensures AtWork(net.(client := d), listen)
  {
    CopiedPlaced(net, d);
    CopiedExpects(net.links[Last(net)].session, net.client, d, listen);
  }

  /** `net'` is `net` but for copies that have been sent. */
  predicate CopiesOnly(net: Net, net': Net, n: nat) {
    && net' == net.(client := net'.client) && Copied(net.client, net'.client)
    && net'.client.retransmissions == net.client.retransmissions + n
  }

  /** The current block is lost `n` times. */
  lemma {:induction false} BlocksLost(nets: seq<Net>, acts: seq<Action>, listen: seq<byte>, w: World, n: nat)
    returns (nets': seq<Net>, acts': seq<Action>)
    requires IsRun(nets, acts, listen) && AtWork(nets[|acts|], listen) && FreshTokens(w, nets[|acts|].client.wire) && w(0).sendOk
    requires n > 0 ==> !nets[|acts|].client.encrypted
    requires nets[|acts|].client.retransmissions + n < MAX_RETRANSMIT
    ensures IsRun(nets', acts', listen) && nets <= nets' && acts <= acts' && Exchanges(acts', |acts|)
    ensures CopiesOnly(nets[|acts|], nets'[|acts'|], n) && AtWork(nets'[|acts'|], listen)
    decreases n
  {
    nets', acts' := nets, acts;
    if n > 0 {
      WorksOnLast(nets, acts, listen);
      SilentTurn(nets[|acts|], listen, w);
      var act := Silence(nets[|acts|], w);
      var net' := Step(nets[|acts|], listen, act);
      CopiedAtWork(nets[|acts|], net'.client, listen);
      RunGoesOn(nets, acts, listen, act, net');
      nets', acts' := BlocksLost(nets + [net'], acts + [act], listen, w, n - 1);
    }
  }

  function LastPdu(net: Net): Pdu
    requires HasAnswer(net)
  {
    net.links[Last(net)].answers[|net.links[Last(net)].answers| - 1].pdu
  }

  /** The block has been answered, and the answer has been saved for the next copy. */
  predicate Pending(net: Net) {
    && HasAnswer(net)
    && net.links[Last(net)].session.last == Some(Server.Saved(net.client.mid, LastPdu(net)))
  }

  /** `net'` is `net` but for copies that have been sent and answered again. */
  predicate AnsweredAgain(net: Net, net': Net, n: nat) {
    && HasAnswer(net) && HasAnswer(net') && |net'.links| == |net.links|
    && net'.links[Last(net)].session == net.links[Last(net)].session && LastPdu(net') == LastPdu(net)
    && Copied(net.client, net'.client) && net'.client.retransmissions == net.client.retransmissions + n
    && net'.delivered == net.delivered && net'.completed == net.completed
  }

  lemma {:induction false} AnsweredAgainTwice(a: Net, b: Net, c: Net, n: nat)
    requires n > 0 && AnsweredAgain(a, b, 1) && AnsweredAgain(b, c, n - 1)
    ensures AnsweredAgain(a, c, n)
  {
  }

  lemma {:induction false} CopiedSendable(c: Client, d: Client, listen: seq<byte>)
    requires Sendable(c, listen) && Copied(c, d)
    ensures Sendable(d, listen)
  {
  }

  lemma {:induction false} StillPending(net: Net, net': Net, n: nat)
    requires Pending(net) && AnsweredAgain(net, net', n)
    ensures Pending(net')
  {
  }

  /** The copy is delivered: it is answered with what has been saved. */
  lemma {:induction false} CopyServed(net: Net, net': Net, i: nat, o: Server.Outcome, r: Pdu)
    requires HasAnswer(net) && Serves(net, net', Last(net), i, o) && i < |net.client.wire[Last(net)]| && r == LastPdu(net)
    requires o == Server.Outcome(net.links[Last(net)].session, Some(r), None, false)
    ensures AnsweredAgain(net, net', 0)
  {
    ServedHasAnswer(net, net', i, o);
  }

  lemma {:induction false} CopyDelivered(net: Net, listen: seq<byte>, e: Server.Surroundings)
    requires HasAnswer(net) && Willing(e)
    requires Newest(net.links[Last(net)], net.client.wire[Last(net)], listen, e) ==
               Server.Outcome(net.links[Last(net)].session, Some(LastPdu(net)), None, false)
    ensures Enabled(net, NewestBlock(net, e)) && AnsweredAgain(net, Step(net, listen, NewestBlock(net, e)), 0)
  {
    var link, log := net.links[Last(net)], net.client.wire[Last(net)];
    BlockServed(net, listen, e);
    CopyServed(net, Step(net, listen, NewestBlock(net, e)), |log| - 1, Newest(link, log, listen, e), LastPdu(net));
  }

  lemma {:induction false} CopiedPending(net: Net, d: Client)
    requires Pending(net) && Copied(net.client, d)
    ensures Pending(net.(client := d))
  {
    CopiedHasAnswer(net, d);
  }

  lemma {:induction false} CopiedHasAnswer(net: Net, d: Client)
    requires HasAnswer(net) && Copied(net.client, d)
    ensures HasAnswer(net.(client := d)) && LastPdu(net.(client := d)) == LastPdu(net)
    ensures Last(net.(client := d)) == Last(net) && d.mid == net.client.mid
  {
    CopiedPlaced(net, d);
  }

  lemma {:induction false} CopyThenAnswer(net: Net, d: Client, net': Net)
    requires HasAnswer(net) && Copied(net.client, d) && d.retransmissions == net.client.retransmissions + 1
    requires HasAnswer(net.(client := d)) && AnsweredAgain(net.(client := d), net', 0)
    ensures AnsweredAgain(net, net', 1)
  {
  }

  lemma {:induction false} CopySentInRun(nets: seq<Net>, acts: seq<Action>, listen: seq<byte>, w: World)
    returns (mid: Net, act: Action)
    requires IsRun(nets, acts, listen) && Pending(nets[|acts|]) && Sendable(nets[|acts|].client, listen)
    requires FreshTokens(w, nets[|acts|].client.wire) && w(0).sendOk && !nets[|acts|].client.encrypted
    requires nets[|acts|].client.retransmissions + 1 < MAX_RETRANSMIT
    ensures IsRun(nets + [mid], acts + [act], listen) && IsSilence(act)
    ensures mid == nets[|acts|].(client := mid.client) && Copied(nets[|acts|].client, mid.client) && Pending(mid)
    ensures mid.client.retransmissions == nets[|acts|].client.retransmissions + 1 && Sendable(mid.client, listen)
  {
    var net := nets[|acts|];
    WorksOnLast(nets, acts, listen);
    SilentTurn(net, listen, w);
    act := Silence(net, w);
    mid := Step(net, listen, act);
    CopiedPending(net, mid.client);
    CopiedSendable(net.client, mid.client, listen);
    RunGoesOn(nets, acts, listen, act, mid);
  }

  lemma {:induction false} CopyAnsweredInRun(nets: seq<Net>, acts: seq<Action>, listen: seq<byte>, e: Server.Surroundings)
    returns (net': Net, act: Action)
    requires IsRun(nets, acts, listen) && Pending(nets[|acts|]) && Sendable(nets[|acts|].client, listen) && Willing(e)
    ensures IsRun(nets + [net'], acts + [act], listen) && act.Deliver? && AnsweredAgain(nets[|acts|], net', 0)
  {
    WorksOnLast(nets, acts, listen);
    var link, log := nets[|acts|].links[Last(nets[|acts|])], nets[|acts|].client.wire[Last(nets[|acts|])];
    ReceivedAgain(nets[|acts|].client, log, link, LastPdu(nets[|acts|]), listen, e);
    CopyDelivered(nets[|acts|], listen, e);
    act := NewestBlock(nets[|acts|], e);
    net' := Step(nets[|acts|], listen, act);
    RunGoesOn(nets, acts, listen, act, net');
  }

  /** The answer is lost once: the client sends a copy, and the server answers that. */
  lemma {:induction false} AnswerLost(nets: seq<Net>, acts: seq<Action>, listen: seq<byte>, e: Server.Surroundings, w: World)
    returns (nets': seq<Net>, acts': seq<Action>)
    requires IsRun(nets, acts, listen) && Pending(nets[|acts|]) && Sendable(nets[|acts|].client, listen) && Willing(e)
    requires FreshTokens(w, nets[|acts|].client.wire) && w(0).sendOk && !nets[|acts|].client.encrypted
    requires nets[|acts|].client.retransmissions + 1 < MAX_RETRANSMIT
    ensures IsRun(nets', acts', listen) && nets <= nets' && acts <= acts' && Exchanges(acts', |acts|)
    ensures AnsweredAgain(nets[|acts|], nets'[|acts'|], 1)
  {
    var mid, act := CopySentInRun(nets, acts, listen, w);
    var net', again := CopyAnsweredInRun(nets + [mid], acts + [act], listen, e);
    CopyThenAnswer(nets[|acts|], mid.client, net');
    nets', acts' := (nets + [mid]) + [net'], (acts + [act]) + [again];
  }

  /** The answer to the current block is lost `n` times. */
  lemma {:induction false} AnswersLost(nets: seq<Net>, acts: seq<Action>, listen: seq<byte>, e: Server.Surroundings, w: World, n: nat)
    returns (nets': seq<Net>, acts': seq<Action>)
    requires IsRun(nets, acts, listen) && Pending(nets[|acts|]) && Sendable(nets[|acts|].client, listen) && Willing(e)
    requires FreshTokens(w, nets[|acts|].client.wire) && w(0).sendOk && (n > 0 ==> !nets[|acts|].client.encrypted)
    requires nets[|acts|].client.retransmissions + n < MAX_RETRANSMIT
    ensures IsRun(nets', acts', listen) && nets <= nets' && acts <= acts' && Exchanges(acts', |acts|)
    ensures AnsweredAgain(nets[|acts|], nets'[|acts'|], n) && Pending(nets'[|acts'|]) && Sendable(nets'[|acts'|].client, listen)
    decreases n
  {
    nets', acts' := nets, acts;
    if n > 0 {
      nets', acts' := AnswerLost(nets, acts, listen, e, w);
      var net, once := nets[|acts|], nets'[|acts'|];
      StillPending(net, once, 1);
      CopiedSendable(net.client, once.client, listen);
      nets', acts' := AnswersLost(nets', acts', listen, e, w, n - 1);
      AnsweredAgainTwice(net, once, nets'[|acts'|], n);
    }
  }

  // ---------------------------------------------------------------------------------------
  // Whole records.

  lemma {:induction false} RecordsSaved(c: Client, link: Link, link': Link, i: nat, o: Server.Outcome)
    requires Records(link, link', i, o) && Saves(c, o)
    ensures link'.session.last == Some(Server.Saved(c.mid, link'.answers[|link'.answers| - 1].pdu))
  {
  }

  lemma {:induction false} ServedPends(net: Net, net': Net, i: nat, o: Server.Outcome)
    requires Placed(net) && HasAnswer(net')
    requires net'.client == net.client && |net'.links| == |net.links|
    requires Records(net.links[Last(net)], net'.links[Last(net)], i, o) && Saves(net.client, o)
    ensures Pending(net')
  {
    RecordsSaved(net.client, net.links[Last(net)], net'.links[Last(net)], i, o);
  }

  /** The current block is delivered and answered. */
  lemma {:induction false} BlockPends(net: Net, listen: seq<byte>, e: Server.Surroundings)
    requires AtWork(net, listen) && EndsIn(net.client.wire, CurrentEntry(net.client)) && Willing(e)
    ensures Enabled(net, NewestBlock(net, e)) && Pending(Step(net, listen, NewestBlock(net, e)))
    ensures Step(net, listen, NewestBlock(net, e)).client == net.client
  {
    var link, log := net.links[Last(net)], net.client.wire[Last(net)];
    ReceivedIsSaved(net.client, log, link, listen, e);
    BlockServed(net, listen, e);
    var half := Step(net, listen, NewestBlock(net, e));
    ServedHasAnswer(net, half, |log| - 1, Newest(link, log, listen, e));
    ServedPends(net, half, |log| - 1, Newest(link, log, listen, e));
  }

  lemma {:induction false} StillAsks(net: Net, net': Net, n: nat)
    requires AnsweredAgain(net, net', n)
    ensures Asks(net) ==> Asks(net')
    ensures Reports(net) ==> Reports(net')
  {
    CopyJudgesSame(net.client, net'.client, net.links[Last(net)].session, LastPdu(net));
  }

  lemma {:induction false} CopyJudgesSame(c: Client, d: Client, s: Server.Session, p: Pdu)
    requires Copied(c, d)
    ensures JudgeAck(d, p) == JudgeAck(c, p) && (Invites(c, s, p) ==> Invites(d, s, p))
  {
  }

  /** How often a block and its answer are lost. */
  datatype Loss = Loss(blocks: nat, answers: nat)

  /** Few enough copies are lost to go on, and none if the session would be given up instead. */
  predicate Bearable(lost: Loss, encrypted: bool) {
    lost.blocks + lost.answers < MAX_RETRANSMIT && (encrypted ==> lost == Loss(0, 0))
  }

  /** Nothing has been reported, and the same record is being sent. */
  predicate SameSoFar(net: Net, net': Net) {
    && net'.client.queue == net.client.queue && net'.client.token == net.client.token
    && net'.client.bytesSent == net.client.bytesSent && net'.client.encrypted == net.client.encrypted
    && net'.client.blockSize == net.client.blockSize && net'.client.wire == net.client.wire
    && net'.delivered == net.delivered
  }

  lemma {:induction false} UnderWayLater(net: Net, net1: Net, net': Net, listen: seq<byte>, w: World)
    requires Writable(net.client) && Writable(net1.client) && SameSoFar(net, net1) && net1.completed == net.completed
    requires UnderWay(net1, net', listen, w)
    ensures UnderWay(net, net', listen, w)
  {
  }

  lemma {:induction false} BlockDelivered(nets: seq<Net>, acts: seq<Action>, listen: seq<byte>, e: Server.Surroundings)
    returns (half: Net, block: Action)
    requires IsRun(nets, acts, listen) && AtWork(nets[|acts|], listen) && Willing(e)
    ensures block == NewestBlock(nets[|acts|], e) && Follows(nets[|acts|], listen, block, half) && block.Deliver?
    ensures IsRun(nets + [half], acts + [block], listen) && Pending(half) && half.client == nets[|acts|].client
  {
    WorksOnLast(nets, acts, listen);
    BlockPends(nets[|acts|], listen, e);
    block := NewestBlock(nets[|acts|], e);
    half := Step(nets[|acts|], listen, block);
    RunGoesOn(nets, acts, listen, block, half);
  }

  /** The current block has got through, and its answer is about to be read. */
  lemma {:induction false} BlockThrough(nets: seq<Net>, acts: seq<Action>, listen: seq<byte>, e: Server.Surroundings,
                                        w: World, lost: Loss)
    returns (nets1: seq<Net>, acts1: seq<Action>, nets': seq<Net>, acts': seq<Action>)
    requires IsRun(nets, acts, listen) && AtWork(nets[|acts|], listen) && Willing(e)
    requires FreshTokens(w, nets[|acts|].client.wire) && w(0).sendOk
    requires nets[|acts|].client.retransmissions == 0 && Bearable(lost, nets[|acts|].client.encrypted)
    ensures IsRun(nets1, acts1, listen) && CopiesOnly(nets[|acts|], nets1[|acts1|], lost.blocks) && AtWork(nets1[|acts1|], listen)
    ensures Enabled(nets1[|acts1|], NewestBlock(nets1[|acts1|], e))
    ensures var half := Step(nets1[|acts1|], listen, NewestBlock(nets1[|acts1|], e));
            && IsRun(nets', acts', listen) && nets <= nets' && acts <= acts' && Exchanges(acts', |acts|)
            && AnsweredAgain(half, nets'[|acts'|], lost.answers) && Pending(nets'[|acts'|]) && Sendable(nets'[|acts'|].client, listen)
  {
    nets1, acts1 := BlocksLost(nets, acts, listen, w, lost.blocks);
    var half, block := BlockDelivered(nets1, acts1, listen, e);
    nets', acts' := AnswersLost(nets1 + [half], acts1 + [block], listen, e, w, lost.answers);
  }

  lemma {:induction false} MiddlePends(net: Net, listen: seq<byte>, e: Server.Surroundings, a: Answers)
    requires AtWork(net, listen) && EndsIn(net.client.wire, CurrentEntry(net.client)) && Willing(e) && !OnLastBlock(net.client)
    ensures Enabled(net, NewestBlock(net, e))
    ensures var half := Step(net, listen, NewestBlock(net, e));
            && HasAnswer(half) && Asks(half) && half.client == net.client
            && half.delivered == net.delivered && half.completed == net.completed
  {
    ReceivedInvites(net.client, net.client.wire[Last(net)], net.links[Last(net)], listen, e, a);
    MiddleBlock(net, listen, e);
  }

  lemma {:induction false} LastPends(net: Net, listen: seq<byte>, e: Server.Surroundings, a: Answers)
    requires AtWork(net, listen) && EndsIn(net.client.wire, CurrentEntry(net.client)) && Willing(e) && OnLastBlock(net.client)
    ensures Enabled(net, NewestBlock(net, e)) && Concluded(net, Step(net, listen, NewestBlock(net, e)))
  {
    ReceivedIsFinal(net.client, net.client.wire[Last(net)], net.links[Last(net)], listen, e, a);
    LastBlock(net, listen, e);
  }

  lemma {:induction false} SameThroughout(net: Net, net1: Net, half: Net, net2: Net, m: nat, n: nat)
    requires CopiesOnly(net, net1, m) && half.client == net1.client && half.delivered == net1.delivered
    requires AnsweredAgain(half, net2, n)
    ensures SameSoFar(net, net2) && net1.completed == net.completed && net2.completed == half.completed
  {
  }

  lemma {:induction false} InvitationReadInRun(nets: seq<Net>, acts: seq<Action>, listen: seq<byte>, now: int, w: World)
    returns (net': Net, act: Action)
    requires IsRun(nets, acts, listen) && HasAnswer(nets[|acts|]) && Asks(nets[|acts|]) && Sendable(nets[|acts|].client, listen)
    requires FreshTokens(w, nets[|acts|].client.wire) && w(0).sendOk
    ensures IsRun(nets + [net'], acts + [act], listen) && act.Answered?
    ensures Writable(nets[|acts|].client) && UnderWay(nets[|acts|], net', listen, w)
  {
    WorksOnLast(nets, acts, listen);
    InvitationRead(nets[|acts|], listen, now, w);
    act := NewestAnswer(nets[|acts|], now, w);
    net' := Step(nets[|acts|], listen, act);
    RunGoesOn(nets, acts, listen, act, net');
  }

  lemma {:induction false} ReportReadInRun(nets: seq<Net>, acts: seq<Action>, listen: seq<byte>, now: int, w: World)
    returns (net': Net, act: Action)
    requires IsRun(nets, acts, listen) && HasAnswer(nets[|acts|]) && Reports(nets[|acts|])
    requires FreshTokens(w, nets[|acts|].client.wire)
    ensures IsRun(nets + [net'], acts + [act], listen) && act.Answered?
    ensures net'.client == Start(nets[|acts|].client, Next, w, 1) && net'.completed == nets[|acts|].completed
    ensures var c := nets[|acts|].client; net'.delivered == nets[|acts|].delivered + [Delivery(c.queue[0].record, c.token)]
  {
    LastAnswer(nets[|acts|], listen, now, w);
    act := NewestAnswer(nets[|acts|], now, w);
    net' := Step(nets[|acts|], listen, act);
    RunGoesOn(nets, acts, listen, act, net');
  }

  /** The current block, which is not the last, and its answer, whatever is lost of them. */
  lemma {:induction false} MiddleRound(nets: seq<Net>, acts: seq<Action>, listen: seq<byte>, e: Server.Surroundings,
                                       now: int, w: World, lost: Loss)
    returns (nets': seq<Net>, acts': seq<Action>)
    requires IsRun(nets, acts, listen) && AtWork(nets[|acts|], listen) && Willing(e)
    requires FreshTokens(w, nets[|acts|].client.wire) && w(0).sendOk && !OnLastBlock(nets[|acts|].client)
    requires nets[|acts|].client.retransmissions == 0 && Bearable(lost, nets[|acts|].client.encrypted)
    ensures IsRun(nets', acts', listen) && nets <= nets' && acts <= acts' && Exchanges(acts', |acts|)
    ensures UnderWay(nets[|acts|], nets'[|acts'|], listen, w)
  {
    var net := nets[|acts|];
    var nets1, acts1, nets2, acts2 := BlockThrough(nets, acts, listen, e, w, lost);
    var net1, net2 := nets1[|acts1|], nets2[|acts2|];
    var half := Step(net1, listen, NewestBlock(net1, e));
    WorksOnLast(nets1, acts1, listen);
    MiddlePends(net1, listen, e, w(0));
    StillAsks(half, net2, lost.answers);
    SameThroughout(net, net1, half, net2, lost.blocks, lost.answers);
    var net', answer := InvitationReadInRun(nets2, acts2, listen, now, w);
    UnderWayLater(net, net2, net', listen, w);
    nets', acts' := nets2 + [net'], acts2 + [answer];
  }

  /** The record that `c` was sending has been completed, posted and reported, once, and `c` goes on to the next. */
  predicate Arrived(net: Net, net': Net, c: Client, w: World)
    requires c.queue != []
  {
    && net'.client == Start(c, Next, w, 1)
    && net'.delivered == net.delivered + [Delivery(c.queue[0].record, c.token)]
    && |net'.completed| == |net.completed| + 1 && net.completed <= net'.completed
    && net'.completed[|net.completed|].bytes == c.queue[0].record && net'.completed[|net.completed|].posted
  }

  lemma {:induction false} ArrivedLater(net: Net, net1: Net, half: Net, net2: Net, net': Net, w: World)
    requires net.client.queue != [] && SameSoFar(net, net2) && net1.completed == net.completed && net1.delivered == net.delivered
    requires net1.client.queue == net.client.queue && net2.completed == half.completed && Concluded(net1, half)
    requires net'.client == Start(net2.client, Next, w, 1) && net'.completed == net2.completed
    requires net'.delivered == net2.delivered + [Delivery(net2.client.queue[0].record, net2.client.token)]
    ensures Arrived(net, net', net2.client, w)
  {
  }

  /** The last block and its answer. */
  lemma {:induction false} LastRound(nets: seq<Net>, acts: seq<Action>, listen: seq<byte>, e: Server.Surroundings,
                                     now: int, w: World, lost: Loss)
    returns (nets': seq<Net>, acts': seq<Action>, last: Client)
    requires IsRun(nets, acts, listen) && AtWork(nets[|acts|], listen) && Willing(e)
    requires FreshTokens(w, nets[|acts|].client.wire) && w(0).sendOk && OnLastBlock(nets[|acts|].client)
    requires nets[|acts|].client.retransmissions == 0 && Bearable(lost, nets[|acts|].client.encrypted)
    ensures IsRun(nets', acts', listen) && nets <= nets' && acts <= acts' && Exchanges(acts', |acts|)
    ensures last.queue == nets[|acts|].client.queue && last.token == nets[|acts|].client.token
    ensures last.queue != [] && Arrived(nets[|acts|], nets'[|acts'|], last, w)
  {
    var net := nets[|acts|];
    var nets1, acts1, nets2, acts2 := BlockThrough(nets, acts, listen, e, w, lost);
    var net1, net2 := nets1[|acts1|], nets2[|acts2|];
    var half := Step(net1, listen, NewestBlock(net1, e));
    WorksOnLast(nets1, acts1, listen);
    LastPends(net1, listen, e, w(0));
    StillAsks(half, net2, lost.answers);
    SameThroughout(net, net1, half, net2, lost.blocks, lost.answers);
    var net', answer := ReportReadInRun(nets2, acts2, listen, now, w);
    ArrivedLater(net, net1, half, net2, net', w);
    nets', acts', last := nets2 + [net'], acts2 + [answer], net2.client;
  }

  /** A record of any length, once it is being sent to a session that is ready for it, arrives, whichever of its blocks
      and answers are lost, if no block has to be sent more than four times: it is completed exactly as it is, posted
      once, and removed from the queue as delivered. `lost(n)` is what is lost of block n and its answers. */
  lemma {:induction false} Transfer(nets: seq<Net>, acts: seq<Action>, listen: seq<byte>, e: Server.Surroundings,
                                    now: int, w: World, lost: nat -> Loss)
    returns (nets': seq<Net>, acts': seq<Action>, last: Client)
    requires IsRun(nets, acts, listen) && AtWork(nets[|acts|], listen) && Willing(e)
    requires FreshTokens(w, nets[|acts|].client.wire) && w(0).sendOk
    requires nets[|acts|].client.retransmissions == 0
    requires forall n: nat :: Bearable(lost(n), nets[|acts|].client.encrypted)
    ensures IsRun(nets', acts', listen) && nets <= nets' && acts <= acts' && Exchanges(acts', |acts|)
    ensures last.queue == nets[|acts|].client.queue && last.token == nets[|acts|].client.token
    ensures last.queue != [] && Arrived(nets[|acts|], nets'[|acts'|], last, w)
    decreases Remaining(nets[|acts|].client)
  {
    var n := nets[|acts|].client.curBlock;
    if OnLastBlock(nets[|acts|].client) {
      nets', acts', last := LastRound(nets, acts, listen, e, now, w, lost(n));
    } else {
      nets', acts' := MiddleRound(nets, acts, listen, e, now, w, lost(n));
      nets', acts', last := Transfer(nets', acts', listen, e, now, w, lost);
    }
  }

  // ---------------------------------------------------------------------------------------
  // From the submission on.

  /** The client has begun to send its record over a socket it has just opened. */
  predicate Opened(c: Client, c': Client, a: Answers)
    requires c.queue != []
  {
    && c'.open && c'.queue == c.queue && c'.token == a.token && Some(c'.uriQuery) == a.uriQuery
    && c'.mid < MESSAGE_IDS && c'.curBlock == 0 && c'.bytesSent == 0 && c'.blockSize == PAYLOAD_TX_SIZE
    && Writable(c') && c'.wire == c.wire + [[CurrentEntry(c')]]
    && c'.retransmissions == 0 && c'.encrypted == c.queue[0].encrypted
  }

  lemma {:induction false} FirstEntry(wire: Wire, e: Entry)
    ensures Logged(wire + [[]], e) == wire + [[e]]
  {
    var wire': Wire := wire + [[]];
    assert wire'[..|wire|] == wire && wire'[|wire|] + [e] == [e];
  }

  lemma {:induction false} FirstOut(c: Client, w: World, k: nat)
    requires c.queue != [] && c.open && w(k).sendOk && w(k).uriQuery.Some?
    ensures var c' := SendFirst(c, w, k);
            && c'.open && c'.queue == c.queue && c'.token == w(k).token && Some(c'.uriQuery) == w(k).uriQuery
            && c'.mid < MESSAGE_IDS && c'.curBlock == 0 && c'.bytesSent == 0 && c'.blockSize == PAYLOAD_TX_SIZE
            && Writable(c') && c'.wire == Logged(c.wire, CurrentEntry(c'))
            && c'.retransmissions == c.retransmissions && c'.encrypted == c.encrypted
  {
    var first := First(c, w(k)).(uriQuery := w(k).uriQuery.value);
    assert SendFirst(c, w, k) == SendOrRetry(first, w, k);
    assert SendOrRetry(first, w, k) == SendBlock(first, w(k));
    SameEntry(first, SendBlock(first, w(k)));
  }

  lemma {:induction false} BeginOpens(c: Client, w: World, k: nat)
    requires c.queue != [] && !c.open
    requires w(k).address.Some? && w(k).connectOk && w(k).sendOk && w(k).uriQuery.Some?
    ensures Opened(c, Begin(c, w, k), w(k))
  {
    var ready := Connected(Addressed(Ready(c, w(k)), w(k)));
    assert Begin(c, w, k) == SendFirst(ready, w, k);
    FirstOut(ready, w, k);
    FirstEntry(c.wire, CurrentEntry(Begin(c, w, k)));
  }

  lemma {:induction false} OneStays(item: Item, now: int)
    ensures Unexpired([item], now) == [item]
  {
    assert [item][..1] == [item] && [item][1..] == [];
    assert Fresh([], now) == [];
  }

  /** A closed client with nothing to send begins to send the record submitted to it, if all goes well. */
  lemma {:induction false} SubmissionOpens(c: Client, item: Item, w: World)
    requires Sound(c) && c.queue == [] && !c.open
    requires w(1).address.Some? && w(1).connectOk && w(1).sendOk && w(1).uriQuery.Some?
    ensures Opened(c.(queue := [item]), Handle(c, Submit(item), w), w(1))
  {
    var grown := c.(queue := [item]);
    assert Unexpired([], w(0).now) + [item] == [item];
    OneStays(item, w(1).now);
    assert Handle(c, Submit(item), w) == Start(grown, Current, w, 1);
    BeginOpens(Cleared(grown, Current, w(1)), w, 1);
  }

  lemma {:induction false} TokenUsedOnce(wire: Wire, e: Entry, w: World)
    requires FreshTokens(w, wire) && forall k: nat :: w(k).token != e.pdu.token
    ensures FreshTokens(w, wire + [[e]])
  {
  }

  /** A session just opened is ready for the first block of any record that it can hold. */
  lemma {:induction false} NewExpects(c: Client, listen: seq<byte>)
    requires Sound(c) && c.open && Writable(c) && |c.token| == 4 && c.blockSize > 0 && c.curBlock == 0 && c.bytesSent == 0
    requires |c.queue[0].record| <= MAX_USP_MSG_LEN && JoinedPath(None, c.queue[0].path) == Some(listen)
    requires ParseUriQuery(c.uriQuery).Some?
    ensures Expects(Server.NewSession, c, listen)
  {
  }

  lemma {:induction false} SubmissionAtWork(net: Net, listen: seq<byte>, item: Item, w: World)
    requires Inv(net) && Sound(net.client) && net.client.queue == [] && !net.client.open && |w(1).token| == 4
    requires Opened(net.client.(queue := [item]), Handle(net.client, Submit(item), w), w(1))
    requires Sound(Handle(net.client, Submit(item), w))
    requires |item.record| <= MAX_USP_MSG_LEN && JoinedPath(None, item.path) == Some(listen)
    requires w(1).uriQuery.Some? && ParseUriQuery(w(1).uriQuery.value).Some?
    ensures AtWork(Moved(net, Submit(item), w), listen)
  {
    NewExpects(Handle(net.client, Submit(item), w), listen);
  }

  /** A record of any length that the session can hold, submitted to a client that is at rest, arrives if the host is
      found, the socket opens, and no block has to be sent more than four times, whatever is lost. It is completed as it
      is, posted once, and removed from the queue as delivered. */
  lemma {:induction false} EveryRecordArrives(nets: seq<Net>, acts: seq<Action>, listen: seq<byte>, item: Item,
                                              e: Server.Surroundings, now: int, w: World, w': World, lost: nat -> Loss)
    returns (nets': seq<Net>, acts': seq<Action>)
    requires IsRun(nets, acts, listen) && Willing(e)
    requires var c := nets[|acts|].client; Sound(c) && c.queue == [] && !c.open && FreshTokens(w, c.wire) && FreshTokens(w', c.wire)
    requires |item.record| <= MAX_USP_MSG_LEN && JoinedPath(None, item.path) == Some(listen)
    requires w(1).address.Some? && w(1).connectOk && w(1).sendOk && w'(0).sendOk
    requires w(1).uriQuery.Some? && ParseUriQuery(w(1).uriQuery.value).Some?
    requires forall k: nat :: w'(k).token != w(1).token
    requires forall n: nat :: Bearable(lost(n), item.encrypted)
    ensures IsRun(nets', acts', listen) && nets <= nets' && acts + [Act(Submit(item), w)] <= acts'
    ensures Exchanges(acts', |acts| + 1)
    ensures var net, net' := nets[|acts|], nets'[|acts'|];
            && net'.client.queue == [] && net'.delivered == net.delivered + [Delivery(item.record, w(1).token)]
            && |net'.completed| == |net.completed| + 1 && net.completed <= net'.completed
            && net'.completed[|net.completed|].bytes == item.record && net'.completed[|net.completed|].posted
  {
    var net := nets[|acts|];
    RunKeeps(nets, acts, listen, |acts|);
    SubmissionOpens(net.client, item, w);
    HandleKeepsSound(net.client, Submit(item), w);
    SubmissionAtWork(net, listen, item, w);
    var net1 := Moved(net, Submit(item), w);
    assert Follows(net, listen, Act(Submit(item), w), net1);
    RunGoesOn(nets, acts, listen, Act(Submit(item), w), net1);
    TokenUsedOnce(net.client.wire, CurrentEntry(net1.client), w');
    var last;
    nets', acts', last := Transfer(nets + [net1], acts + [Act(Submit(item), w)], listen, e, now, w', lost);
    assert Unexpired([], w'(1).now) == [];
  }
}
