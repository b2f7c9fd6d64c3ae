/** No record is mixed with another unless the client gives one up or the server keeps one whose sender it does
    not accept: conditions on the two ends and their surroundings alone. */
module CoapUnmixed {
  import opened CoapPdu
  import opened Options
  import opened CoapClient
  import opened CoapClientProofs
  import opened CoapWire
  import opened CoapAttempts
  import opened Network = CoapNetwork
  import opened CoapIntegrity
  import Server = CoapServer

  /** A response upon which the client goes on to its next record. */
  predicate Final(p: Pdu) {
    p.pduClass != SUCCESS || p.code == CHANGED
  }

  /** A session in the middle of a record has nothing of another record ahead. */
  ghost predicate SameAhead(log: Log, link: Link) {
    link.session.assembly.Partial? ==>
      forall i :: 0 <= i < |log| && link.handled < i && log[i].Block? ==> log[i].pdu.token == link.session.assembly.token
  }

  /** A record that was answered finally is no longer being assembled. */
  ghost predicate FinalIsDone(log: Log, link: Link) {
    && (link.session.last.Some? && Final(link.session.last.value.response) ==> link.session.assembly.Idle?)
    && (forall n :: 0 <= n < |link.answers| && link.answers[n].about < |log| && Final(link.answers[n].pdu) ==>
          link.session.assembly.Idle? || log[link.answers[n].about].pdu.token != link.session.assembly.token)
  }

  /** Of the blocks not yet handled only the last can begin a record. */
  ghost predicate LastBegins(log: Log, link: Link) {
    forall i, j :: 0 <= i < j < |log| && link.handled < i && log[j].Block? ==> Linked(log, i)
  }

  ghost predicate Calm(log: Log, link: Link) {
    SameAhead(log, link) && FinalIsDone(log, link) && LastBegins(log, link)
  }

  /** Nothing is assembled, and nothing that could begin a record is ahead. */
  ghost predicate AtRest(log: Log, link: Link) {
    link.session.assembly.Idle? && forall i :: 0 <= i < |log| && link.handled < i ==> Linked(log, i)
  }

  lemma {:induction false} OpeningUnlinked(log: Log, i: nat)
    requires LogOk(log) && i < |log| && log[i].Block? && WellCut(log[i]) && Num(log[i]) == 0
    ensures !Linked(log, i)
    ensures forall j :: 0 <= j < i && log[j].Block? ==> log[j].pdu.token != log[i].pdu.token
  {
    forall j | 0 <= j < i && log[j].Block? ensures log[j].pdu.token != log[i].pdu.token {
      if log[j].pdu.token == log[i].pdu.token {
        assert SameAttempt(log, j, i);
      }
    }
  }

  /** A block that begins a record finds its session idle. */
  lemma {:induction false} OpensOnIdle(completed: seq<Completion>, a: nat, log: Log, link: Link, i: nat, listen: seq<byte>)
    requires LogOk(log) && LinkOk(completed, a, log, link) && Calm(log, link) && link.reached <= i < |log|
    requires var v := Judged(link, log, i, listen); v.Take? && v.opening
    ensures log[i].Block? && WellCut(log[i]) && link.handled < i && !Linked(log, i)
    ensures link.session.assembly.Idle? && !Mixes(link, log, i, listen)
    ensures forall j :: i < j < |log| ==> !log[j].Block?
    ensures forall j :: 0 <= j < i && log[j].Block? ==> log[j].pdu.token != log[i].pdu.token
  {
    VerdictOnEntry(completed, a, log, link, i, listen);
    TakesNextPiece(completed, a, log, link, i, listen);
    Server.TakenBlock(link.session, log[i].pdu, listen);
    OpeningUnlinked(log, i);
  }

  /** What a delivery answers, and what it leaves in the session. */
  lemma {:induction false} AnswersWhatIsLeft(completed: seq<Completion>, a: nat, log: Log, link: Link, i: nat,
                                             listen: seq<byte>, e: Server.Surroundings)
    requires LogOk(log) && LinkOk(completed, a, log, link) && link.reached <= i < |log| && e.replyToOk
    ensures var v, link' := Judged(link, log, i, listen), Serviced(link, log, i, listen, e);
            && (link'.session.assembly.Partial? ==>
                  if v.Replay? then link'.session == link.session && link'.handled == link.handled
                  else
                    && v.Take? && log[i].Block? && link.handled < i == link'.handled
                    && link'.session.assembly.token == log[i].pdu.token
                    && link'.session.last.Some? && !Final(link'.session.last.value.response)
                    && (!v.opening ==> link.session.assembly.Partial? && link.session.assembly.token == log[i].pdu.token))
            && link.answers <= link'.answers
            && (|link'.answers| > |link.answers| && link'.session.assembly.Partial? ==>
                  && |link'.answers| == |link.answers| + 1 && link'.session.last.Some?
                  && link'.answers[|link.answers|].pdu == link'.session.last.value.response
                  && link'.answers[|link.answers|].about == link'.handled)
  {
    VerdictOnEntry(completed, a, log, link, i, listen);
    if Judged(link, log, i, listen).Take? {
      TakesNextPiece(completed, a, log, link, i, listen);
      Server.TakenBlock(link.session, log[i].pdu, listen);
    }
  }

  // ---------------------------------------------------------------------------------------
  // Deliveries keep it.

  lemma {:induction false} ReplayedCalm(completed: seq<Completion>, a: nat, log: Log, link: Link, link': Link)
    requires LinkOk(completed, a, log, link) && Calm(log, link)
    requires link'.session == link.session && link'.handled == link.handled && link.answers <= link'.answers
    requires |link'.answers| > |link.answers| && link'.session.assembly.Partial? ==>
               && |link'.answers| == |link.answers| + 1 && link'.session.last.Some?
               && link'.answers[|link.answers|].pdu == link'.session.last.value.response
    ensures Calm(log, link')
  {
  }

  lemma {:induction false} IdleCalm(log: Log, link: Link, link': Link)
    requires Calm(log, link) && link'.session.assembly.Idle? && link.handled <= link'.handled
    ensures Calm(log, link')
  {
  }

  /** The session has taken the block at position i, and more are to come. */
  lemma {:induction false} TakenCalm(completed: seq<Completion>, a: nat, log: Log, link: Link, i: nat, link': Link)
    requires LinkOk(completed, a, log, link) && Calm(log, link) && link.handled < i < |log| && log[i].Block?
    requires link'.handled == i && link'.session.assembly.Partial? && link'.session.assembly.token == log[i].pdu.token
    requires link'.session.last.Some? && !Final(link'.session.last.value.response) && link.answers <= link'.answers
    requires |link'.answers| > |link.answers| ==>
               |link'.answers| == |link.answers| + 1 && link'.answers[|link.answers|].pdu == link'.session.last.value.response
    requires || (link.session.assembly.Partial? && link.session.assembly.token == log[i].pdu.token)
             || ((forall j :: i < j < |log| ==> !log[j].Block?) &&
                 (forall j :: 0 <= j < i && log[j].Block? ==> log[j].pdu.token != log[i].pdu.token))
    ensures Calm(log, link')
  {
    forall n | 0 <= n < |link'.answers| && link'.answers[n].about < |log| && Final(link'.answers[n].pdu)
      ensures log[link'.answers[n].about].pdu.token != link'.session.assembly.token
    {
      assert link'.answers[n] == link.answers[n];
      assert AnswerOk(completed, a, log, link.answers[n].about, link.answers[n].pdu);
    }
  }

  lemma {:induction false} ServicedCalm(completed: seq<Completion>, a: nat, log: Log, link: Link, i: nat,
                                        listen: seq<byte>, e: Server.Surroundings)
    requires LogOk(log) && LinkOk(completed, a, log, link) && Calm(log, link) && link.reached <= i < |log| && e.replyToOk
    ensures Calm(log, Serviced(link, log, i, listen, e)) && !Mixes(link, log, i, listen)
  {
    var link' := Serviced(link, log, i, listen, e);
    AnswersWhatIsLeft(completed, a, log, link, i, listen, e);
    if Judged(link, log, i, listen).Take? && Judged(link, log, i, listen).opening {
      OpensOnIdle(completed, a, log, link, i, listen);
    }
    if link'.session.assembly.Idle? {
      IdleCalm(log, link, link');
    } else if Judged(link, log, i, listen).Replay? {
      ReplayedCalm(completed, a, log, link, link');
    } else {
      TakenCalm(completed, a, log, link, i, link');
    }
  }

  lemma {:induction false} ServicedRests(completed: seq<Completion>, a: nat, log: Log, link: Link, i: nat,
                                         listen: seq<byte>, e: Server.Surroundings)
    requires LogOk(log) && LinkOk(completed, a, log, link) && Calm(log, link) && link.reached <= i < |log| && e.replyToOk
    requires AtRest(log, link)
    ensures AtRest(log, Serviced(link, log, i, listen, e))
  {
    AnswersWhatIsLeft(completed, a, log, link, i, listen, e);
    if Judged(link, log, i, listen).Take? && Judged(link, log, i, listen).opening {
      OpensOnIdle(completed, a, log, link, i, listen);
    }
  }

  // ---------------------------------------------------------------------------------------
  // The client's events keep it.

  /** The log has grown by a block that began a record only if the session was at rest. */
  lemma {:induction false} GrowsCalm(completed: seq<Completion>, a: nat, log: Log, log': Log, link: Link, switch: bool)
    requires LinkOk(completed, a, log, link) && LinkOk(completed, a, log', link) && Calm(log, link)
    requires GrowsBy(log, log', switch) && (switch ==> AtRest(log, link))
    ensures Calm(log', link)
  {
    forall i: nat | i < |log| ensures Linked(log', i) == Linked(log, i) {
    }
  }

  /** The open socket's log ends with a block under the client's token. */
  lemma {:induction false} LastToken(net: Net)
    requires Inv(net) && Sound(net.client) && OnWire(net.client) && net.client.open && net.links != []
    requires net.client.queue != []
    ensures |net.client.wire| == |net.links|
    ensures EndsWith(net.completed, |net.links| - 1, net.client.wire[|net.links| - 1], net.links[|net.links| - 1], net.client.token)
  {
    var e := LastEntry(net);
  }

  ghost predicate EndsWith(completed: seq<Completion>, a: nat, log: Log, link: Link, token: seq<byte>) {
    LogOk(log) && LinkOk(completed, a, log, link) && log != [] && log[|log| - 1].Block? && log[|log| - 1].pdu.token == token
  }

  /** When a response ends a record, the session that answered is done with it, and only a block of that record
      may still be ahead. */
  lemma {:induction false} FinishedRests(c: Client, completed: seq<Completion>, a: nat, log: Log, link: Link, n: nat)
    requires EndsWith(completed, a, log, link, c.token) && Calm(log, link) && n < |link.answers|
    requires JudgeAck(c, link.answers[n].pdu) == Finish
    ensures AtRest(log, link)
  {
    FinishMeans(c, link.answers[n].pdu);
    FinalRests(completed, a, log, link, n);
  }

  /** The session at the far end of the latest socket. */
  ghost predicate CalmLast(net: Net)
    requires net.links != []
  {
    |net.links| == |net.client.wire| && Calm(net.client.wire[|net.links| - 1], net.links[|net.links| - 1])
  }

  ghost predicate RestLast(net: Net)
    requires net.links != [] && |net.links| == |net.client.wire|
  {
    AtRest(net.client.wire[|net.links| - 1], net.links[|net.links| - 1])
  }

  lemma {:induction false} FinishMeans(c: Client, p: Pdu)
    requires JudgeAck(c, p) == Finish
    ensures Final(p) && p.token == c.token && (c.queue == [] ==> p.pduClass != SUCCESS)
  {
  }

  lemma {:induction false} FinalRests(completed: seq<Completion>, a: nat, log: Log, link: Link, n: nat)
    requires LogOk(log) && LinkOk(completed, a, log, link) && Calm(log, link) && n < |link.answers|
    requires log != [] && log[|log| - 1].Block?
    requires Final(link.answers[n].pdu) && link.answers[n].pdu.token == log[|log| - 1].pdu.token
    ensures AtRest(log, link)
  {
    var last, about := |log| - 1, link.answers[n].about;
    assert AnswerOk(completed, a, log, about, link.answers[n].pdu);
    if about < last {
      assert SameAttempt(log, about, last);
    }
  }

  /** Connected with nothing to send. */
  predicate Lingers(c: Client) {
    !c.failed && c.open && c.queue == []
  }

  ghost predicate CalmNet(net: Net) {
    && |net.links| == |net.client.wire|
    && (forall a :: 0 <= a < |net.links| ==> Calm(net.client.wire[a], net.links[a]))
    && (Lingers(net.client) && net.links != [] ==> RestLast(net))
  }

  /** The client may go on to another record only if the session at the far end is at rest. */
  ghost predicate RestsIfSwitching(net: Net, ev: Event) {
    MaySwitch(net.client, ev) ==>
      |net.links| == |net.client.wire| > 0 && RestLast(net)
  }

  lemma {:induction false} LogCalm(net: Net, net': Net, ev: Event, a: nat)
    requires Inv(net) && Inv(net') && CalmNet(net) && RestsIfSwitching(net, ev)
    requires net'.completed == net.completed && net'.links == Extended(net.links, |net'.client.wire|)
    requires Grows(net.client.wire, net'.client.wire, MaySwitch(net.client, ev)) && a < |net'.links|
    ensures Calm(net'.client.wire[a], net'.links[a])
  {
    assert LinkOk(net'.completed, a, net'.client.wire[a], net'.links[a]);
    if a < |net.links| {
      assert LinkOk(net.completed, a, net.client.wire[a], net.links[a]);
      if a == |net.links| - 1 {
        GrowsCalm(net.completed, a, net.client.wire[a], net'.client.wire[a], net.links[a], MaySwitch(net.client, ev));
      }
    }
  }

  lemma {:induction false} LogsCalm(net: Net, net': Net, ev: Event)
    requires Inv(net) && Inv(net') && CalmNet(net) && RestsIfSwitching(net, ev)
    requires net'.completed == net.completed && net'.links == Extended(net.links, |net'.client.wire|)
    requires Grows(net.client.wire, net'.client.wire, MaySwitch(net.client, ev))
    ensures |net'.links| == |net'.client.wire|
    ensures forall a :: 0 <= a < |net'.links| ==> Calm(net'.client.wire[a], net'.links[a])
  {
    forall a | 0 <= a < |net'.links| ensures Calm(net'.client.wire[a], net'.links[a]) {
      LogCalm(net, net', ev, a);
    }
  }

  lemma {:induction false} LastStaysAtRest(net: Net, net': Net, ev: Event)
    requires CalmNet(net) && RestsIfSwitching(net, ev) && !net.client.failed && !GivesUp(net.client, ev)
    requires HandledWell(net.client, ev, net'.client) && net'.links == Extended(net.links, |net'.client.wire|)
    requires |net'.links| == |net'.client.wire|
    ensures Lingers(net'.client) && net'.links != [] ==> RestLast(net')
  {
  }

  lemma {:induction false} MoveCalm(net: Net, ev: Event, w: World)
    requires Sound(net.client) && Inv(net) && Inv(Moved(net, ev, w)) && Parsable(ev) && CalmNet(net)
    requires !GivesUp(net.client, ev) && (Finishes(net.client, ev) && net.client.queue != [] ==> RestsIfSwitching(net, ev))
    ensures CalmNet(Moved(net, ev, w))
  {
    HandleKeepsSound(net.client, ev, w);
    if LateError(net.client, ev) {
      FailedCalm(net, ev, w);
    } else {
      HandleWell(net.client, ev, w);
      SwitchesAtRest(net, ev);
      LogsCalm(net, Moved(net, ev, w), ev);
      LastStaysAtRest(net, Moved(net, ev, w), ev);
    }
  }

  lemma {:induction false} FailedCalm(net: Net, ev: Event, w: World)
    requires Sound(net.client) && CalmNet(net) && LateError(net.client, ev)
    ensures CalmNet(Moved(net, ev, w))
  {
    assert Handle(net.client, ev, w) == net.client.(failed := true);
  }

  lemma {:induction false} SwitchesAtRest(net: Net, ev: Event)
    requires Inv(net) && Sound(net.client) && CalmNet(net) && !LateError(net.client, ev)
    requires !GivesUp(net.client, ev) && (Finishes(net.client, ev) && net.client.queue != [] ==> RestsIfSwitching(net, ev))
    ensures RestsIfSwitching(net, ev)
  {
    if Finishes(net.client, ev) {
      FinishMeans(net.client, ev.ready.value.pdu);
    }
  }

  // ---------------------------------------------------------------------------------------
  // Runs.

  /** The client does not give a record up, the server accepts the sender. */
  predicate Gentle(net: Net, act: Action) {
    match act
    case Act(ev, _) => !GivesUp(net.client, ev)
    case Answered(_, _, _) => true
    case Deliver(_, _, e) => e.replyToOk
  }

  lemma {:induction false} DeliverCalm(net: Net, listen: seq<byte>, act: Action)
    requires Inv(net) && Enabled(net, act) && act.Deliver? && act.e.replyToOk && CalmNet(net)
    ensures CalmNet(Serve(net, listen, act.a, act.i, act.e)) && !MixingAction(net, listen, act)
  {
    var a, log, link := act.a, net.client.wire[act.a], net.links[act.a];
    assert LogOk(log) && LinkOk(net.completed, a, log, link);
    ServicedCalm(net.completed, a, log, link, act.i, listen, act.e);
    if AtRest(log, link) {
      ServicedRests(net.completed, a, log, link, act.i, listen, act.e);
    }
    OneLinkCalm(net, Serve(net, listen, act.a, act.i, act.e), a);
  }

  /** Only link a has changed. */
  lemma {:induction false} OneLinkCalm(net: Net, net': Net, a: nat)
    requires CalmNet(net) && a < |net.links| && net'.client == net.client
    requires |net'.links| == |net.links| && net'.links == net.links[a := net'.links[a]]
    requires Calm(net.client.wire[a], net'.links[a])
    requires AtRest(net.client.wire[a], net.links[a]) ==> AtRest(net.client.wire[a], net'.links[a])
    ensures CalmNet(net')
  {
  }

  lemma {:induction false} ReachedCalm(net: Net, n: nat)
    requires Inv(net) && net.links != [] && CalmNet(net)
    ensures CalmNet(Reached(net, n)) && CalmLast(Reached(net, n)) && Inv(Reached(net, n))
  {
    PositionIrrelevant(net, n);
    assert LinkOk(net.completed, |net.links| - 1, net.client.wire[|net.links| - 1], net.links[|net.links| - 1]);
    ReadingCalm(net.client.wire[|net.links| - 1], net.links[|net.links| - 1], n);
    OneLinkCalm(net, Reached(net, n), |net.links| - 1);
  }

  lemma {:induction false} ReadingCalm(log: Log, link: Link, n: nat)
    ensures Calm(log, link) ==> Calm(log, link.(answered := n))
    ensures AtRest(log, link) ==> AtRest(log, link.(answered := n))
  {
  }

  lemma {:induction false} AnsweredCalm(before: Net, n: nat, ev: Event, w: World)
    requires Inv(before) && before.links != [] && CalmNet(before) && CalmLast(before)
    requires Sound(before.client) && before.client.open && n < |before.links[|before.links| - 1].answers|
    requires ev.Turn? && ev == AnswerEvent(before, n, ev.now)
    requires Inv(Moved(before, ev, w))
    ensures CalmNet(Moved(before, ev, w))
  {
    AnswerParses(before, n);
    if Finishes(before.client, ev) && before.client.queue != [] {
      LastToken(before);
      var last := |before.links| - 1;
      FinishedRests(before.client, before.completed, last, before.client.wire[last], before.links[last], n);
    }
    MoveCalm(before, ev, w);
  }

  lemma {:induction false} AnswerStepCalm(net: Net, listen: seq<byte>, act: Action)
    requires Inv(net) && act.Answered? && Enabled(net, act) && CalmNet(net)
    requires Inv(Step(net, listen, act))
    ensures CalmNet(Step(net, listen, act))
  {
    ReachedSame(net, listen, act.n, act.now, act.w);
    ReachedCalm(net, act.n);
    AnsweredCalm(Reached(net, act.n), act.n, AnswerEvent(Reached(net, act.n), act.n, act.now), act.w);
  }

  lemma {:induction false} StepCalm(net: Net, listen: seq<byte>, act: Action)
    requires Inv(net) && Enabled(net, act) && Gentle(net, act) && CalmNet(net)
    ensures CalmNet(Step(net, listen, act)) && !MixingAction(net, listen, act)
  {
    StepKeeps(net, listen, act);
    match act
    case Act(ev, w) => MoveCalm(net, ev, w);
    case Answered(_, _, _) => AnswerStepCalm(net, listen, act);
    case Deliver(_, _, _) => DeliverCalm(net, listen, act);
  }

  lemma {:induction false} RunCalm(nets: seq<Net>, acts: seq<Action>, listen: seq<byte>, k: nat)
    requires IsRun(nets, acts, listen) && k < |nets|
    requires forall m :: 0 <= m < k ==> Gentle(nets[m], acts[m])
    ensures CalmNet(nets[k])
  {
    if k > 0 {
      RunCalm(nets, acts, listen, k - 1);
      RunKeeps(nets, acts, listen, k - 1);
      assert StepAt(nets, acts, listen, k - 1);
      StepCalm(nets[k - 1], listen, acts[k - 1]);
    }
  }

  /** If the client never gives a record up after retransmitting it in vain, and the server accepts every sender, then
      whatever is lost, repeated, refused or sent anew over other sockets, no record is ever begun on top of another,
      and every record the server completes is posted, byte for byte as it was submitted. */
  lemma {:induction false} IntactUnlessGivenUp(nets: seq<Net>, acts: seq<Action>, listen: seq<byte>, k: nat)
    requires IsRun(nets, acts, listen) && k < |nets|
    requires forall m :: 0 <= m < k ==> Gentle(nets[m], acts[m])
    ensures forall m :: 0 <= m < k ==> !MixingAction(nets[m], listen, acts[m])
    ensures forall n :: 0 <= n < |nets[k].completed| ==> Intact(nets[k], n) && nets[k].completed[n].posted
  {
    forall m | 0 <= m < k ensures !MixingAction(nets[m], listen, acts[m]) {
      RunCalm(nets, acts, listen, m);
      RunKeeps(nets, acts, listen, m);
      assert StepAt(nets, acts, listen, m);
      StepCalm(nets[m], listen, acts[m]);
    }
    forall n: nat | n < |nets[k].completed| ensures Intact(nets[k], n) && nets[k].completed[n].posted {
      var m := Integrity(nets, acts, listen, k, n);
      PostedIfRepliable(nets, acts, listen, k, n);
    }
  }

  /** Under the same conditions success means delivered: a record leaves the queue because of a `Changed` response only
      if the server has posted exactly this record, in that very attempt. */
  lemma {:induction false} DeliveredIntact(nets: seq<Net>, acts: seq<Action>, listen: seq<byte>, k: nat, d: nat) returns (n: nat)
    requires IsRun(nets, acts, listen) && k < |nets| && d < |nets[k].delivered|
    requires forall m :: 0 <= m < k ==> Gentle(nets[m], acts[m])
    ensures Intact(nets[k], n) && nets[k].completed[n].posted
    ensures nets[k].completed[n].bytes == nets[k].delivered[d].record
    ensures Of(nets[k], nets[k].completed[n]).pdu.token == nets[k].delivered[d].token
  {
    RunKeeps(nets, acts, listen, k);
    IntactUnlessGivenUp(nets, acts, listen, k);
    n := CompletionOf(nets[k], nets[k].delivered[d]);
  }

  lemma {:induction false} CompletionOf(net: Net, d: Delivery) returns (n: nat)
    requires DeliveryOk(net, d)
    ensures n < |net.completed| && CompletionOk(net, net.completed[n])
    ensures Of(net, net.completed[n]).record == d.record && Of(net, net.completed[n]).pdu.token == d.token
  {
    n :| 0 <= n < |net.completed| && CompletionOk(net, net.completed[n]) &&
         Of(net, net.completed[n]).record == d.record && Of(net, net.completed[n]).pdu.token == d.token;
  }
}
