/** How two records come to be mixed: a run in which a record given up half-way is found in front of the next. */
module CoapMixing {
  import opened CoapPdu
  import opened Options
  import opened CoapUri
  import opened CoapClient
  import opened CoapClientProofs
  import opened CoapWire
  import opened Network = CoapNetwork
  import Server = CoapServer

  /** Two records for the same peer; the first needs more than one block, the second does not. */
  datatype Setup = Setup(
    client: Client, first: Item, second: Item, listen: seq<byte>,
    address: Address, query: seq<byte>, token1: seq<byte>, token2: seq<byte>)

  predicate Fitting(s: Setup) {
    && Initial(s.client)
    && |s.first.record| > PAYLOAD_TX_SIZE && |s.second.record| <= PAYLOAD_TX_SIZE
    && s.first.record != s.second.record
    && s.second.port == s.first.port && s.second.encrypted == s.first.encrypted == false && !s.second.resetSession
    && s.second.expiry >= 0
    && JoinedPath(None, s.first.path) == Some(s.listen) == JoinedPath(None, s.second.path)
    && ParseUriQuery(s.query).Some?
    && |s.token1| == 4 && |s.token2| == 4 && s.token1 != s.token2
  }

  /** Time stands still, timeouts are immediate, and every call succeeds. */
  function Calls(s: Setup, token: seq<byte>): World {
    k => Answers(0, 0, token, Some(s.address), true, Some(s.query), true)
  }

  /** The server unpacks whatever it has assembled. */
  const AllWell: Server.Surroundings := Server.Surroundings(1024, true, true, true, [], [])

  predicate SendsFirst(s: Setup, c: Client) {
    && c.open && !c.failed && c.mid < MESSAGE_IDS
    && c.peer == Some(s.address) && c.peerPort == Some(s.first.port) && !c.encrypted
    && c.queue != [] && c.queue[0] == s.first
    && c.token == s.token1 && c.uriQuery == s.query
    && c.curBlock == 0 && c.blockSize == PAYLOAD_TX_SIZE && c.bytesSent == 0
    && c.ackTimeoutMs == 0 && c.ackDeadline == Some(0) && c.reconnectAt.None? && c.lingerUntil.None?
    && c.wire == [[CurrentEntry(c)]]
  }

  lemma {:induction false} FirstSubmitted(s: Setup)
    requires Fitting(s)
    ensures Sound(s.client)
    ensures var c := Handle(s.client, Submit(s.first), Calls(s, s.token1));
            SendsFirst(s, c) && c.queue == [s.first] && c.retransmissions == 0
  {
    var w := Calls(s, s.token1);
    var grown := s.client.(queue := [s.first]);
    assert Unexpired([], 0) + [s.first] == [s.first];
    var idle := Cleared(grown, Current, w(1));
    assert Unexpired([s.first], 0) == [s.first];
    assert Start(grown, Current, w, 1) == Begin(idle, w, 1);
    var ready := Ready(idle, w(1));
    var c := Connected(Addressed(ready, w(1)));
    assert Begin(idle, w, 1) == SendFirst(c, w, 1);
    FirstSent(c, w, 1);
    Opened(s, idle, c, w);
  }

  lemma {:induction false} FirstSent(c: Client, w: World, k: nat)
    requires c.queue != [] && w(k).uriQuery.Some? && w(k).sendOk
    ensures var next := First(c, w(k)).(uriQuery := w(k).uriQuery.value);
            SendFirst(c, w, k) == SendBlock(next, w(k)) && CurrentEntry(SendBlock(next, w(k))) == CurrentEntry(next)
  {
    var next := First(c, w(k)).(uriQuery := w(k).uriQuery.value);
    assert SendFirst(c, w, k) == SendOrRetry(next, w, k) == SendBlock(next, w(k));
  }

  lemma {:induction false} Opened(s: Setup, idle: Client, c: Client, w: World)
    requires idle.queue == [s.first] && idle.wire == [] && !idle.failed && !idle.open
    requires idle.reconnectAt.None? && idle.lingerUntil.None? && idle.mid < MESSAGE_IDS && !s.first.encrypted
    requires w(1) == Answers(0, 0, s.token1, Some(s.address), true, Some(s.query), true)
    requires c == Connected(Addressed(Ready(idle, w(1)), w(1)))
    ensures var next := First(c, w(1)).(uriQuery := s.query);
            SendsFirst(s, SendBlock(next, w(1))) && SendBlock(next, w(1)).queue == [s.first] &&
            SendBlock(next, w(1)).retransmissions == 0
  {
    var next := First(c, w(1)).(uriQuery := s.query);
    LoggedFirst(CurrentEntry(next));
    SameEntry(SendBlock(next, w(1)), next);
  }

  lemma {:induction false} LoggedFirst(e: Entry)
    ensures Logged([[]], e) == [[e]]
  {
    var log: Log := [];
    assert log + [e] == [e];
    var wire: Wire := [log];
    assert wire[..0] + [[e]] == [[e]];
    assert wire == [[]];
  }

  lemma {:induction false} LoggedNext(log: Log, e: Entry)
    requires log != [] && log[|log| - 1] != e
    ensures Logged([log], e) == [log + [e]]
  {
    assert [log][..0] + [log + [e]] == [log + [e]];
  }

  lemma {:induction false} SecondSubmitted(s: Setup, c: Client)
    requires Fitting(s) && SendsFirst(s, c) && c.queue == [s.first] && Sound(c)
    ensures var c' := Handle(c, Submit(s.second), Calls(s, s.token2));
            SendsFirst(s, c') && c' == c.(queue := [s.first, s.second])
  {
    assert Unexpired([s.first], 0) + [s.second] == [s.first, s.second];
    assert CurrentEntry(c.(queue := [s.first, s.second])) == CurrentEntry(c);
  }

  lemma {:induction false} TimedOut(s: Setup, c: Client)
    requires Fitting(s) && SendsFirst(s, c) && c.queue == [s.first, s.second] && Sound(c) && c.retransmissions < 3
    ensures var c' := Handle(c, Turn(None, 0), Calls(s, s.token2));
            SendsFirst(s, c') && c'.queue == c.queue && c'.retransmissions == c.retransmissions + 1 && c'.mid == c.mid
            && c'.wire == c.wire
  {
    var late := Late(c).(ackTimeoutMs := 0);
    assert CurrentEntry(late) == CurrentEntry(c);
    assert Logged(c.wire, CurrentEntry(late)) == c.wire;
    assert SendOrRetry(late, Calls(s, s.token2), 0) == SendBlock(late, Calls(s, s.token2)(0));
    assert CurrentEntry(SendBlock(late, Calls(s, s.token2)(0))) == CurrentEntry(c);
  }

  lemma {:induction false} GivenUp(s: Setup, c: Client)
    requires Fitting(s) && SendsFirst(s, c) && c.queue == [s.first, s.second] && Sound(c) && c.retransmissions == 3
    ensures var c' := Handle(c, Turn(None, 0), Calls(s, s.token2));
            && c'.open && !c'.failed && c'.queue == [s.second] && |c'.wire| == 1
            && c'.token == s.token2 && c'.mid == NextMessageId(c.mid) && c'.uriQuery == s.query
            && c'.curBlock == 0 && c'.blockSize == PAYLOAD_TX_SIZE && c'.bytesSent == 0
            && c'.wire == [c.wire[0] + [CurrentEntry(c')]]
  {
    var w := Calls(s, s.token2);
    var late := Late(c);
    var idle := Cleared(late, Next, w(1));
    assert Unexpired([s.second], 0) == [s.second];
    assert c.queue[1..] == [s.second];
    var ready := Ready(idle, w(1));
    assert Start(late, Next, w, 1) == Begin(idle, w, 1);
    assert SamePeer(idle, s.second, s.address);
    assert Begin(idle, w, 1) == SendFirst(ready, w, 1);
    var next := First(ready, w(1)).(uriQuery := s.query);
    FirstSent(ready, w, 1);
    assert c.wire[0][0] != CurrentEntry(next) by {
      assert c.wire[0][0].pdu.token == s.token1 && CurrentEntry(next).pdu.token == s.token2;
    }
    LoggedNext(c.wire[0], CurrentEntry(next));
    assert c.wire == [c.wire[0]];
    SameEntry(SendBlock(next, w(1)), next);
  }

  // ---------------------------------------------------------------------------------------
  // The server's side.

  /** The first block of a record, as far as the server looks at it. */
  predicate OpensRecord(p: Pdu, listen: seq<byte>, mid: nat, token: seq<byte>, more: bool, payload: seq<byte>) {
    && p.pduType == Confirmable && p.pduClass == REQUEST && p.code == POST && p.mid == mid
    && p.token == token != [] && p.uriPath == Some(listen) && p.uriQuery.Some? && p.replyTo.Some?
    && p.contentFormat == Some(OCTET_STREAM) && (p.totalSize.Some? ==> p.totalSize.value <= MAX_USP_MSG_LEN)
    && p.block1 == Some(Block1(0, more, PAYLOAD_TX_SIZE)) && p.payload == payload
    && (more ==> |payload| == PAYLOAD_TX_SIZE)
  }

  lemma {:induction false} OpensWith(s: Setup, c: Client, item: Item)
    requires c.queue != [] && c.queue[0] == item && c.uriQuery == s.query && ParseUriQuery(s.query).Some?
    requires c.curBlock == 0 && c.blockSize == PAYLOAD_TX_SIZE && c.bytesSent == 0
    requires JoinedPath(None, item.path) == Some(s.listen) && c.token != []
    ensures var n := Min(PAYLOAD_TX_SIZE, |item.record|);
            OpensRecord(BlockPdu(c), s.listen, c.mid, c.token, |item.record| > PAYLOAD_TX_SIZE, item.record[..n])
  {
    var n := Min(PAYLOAD_TX_SIZE, |item.record|);
    assert item.record[0..][..n] == item.record[..n];
  }

  lemma {:induction false} OpeningTaken(session: Server.Session, p: Pdu, listen: seq<byte>, mid: nat, token: seq<byte>, more: bool, payload: seq<byte>)
    requires OpensRecord(p, listen, mid, token, more, payload)
    requires session.last.Some? ==> session.last.value.mid != mid
    requires session.assembly.Partial? ==> session.assembly.token != token
    requires |Server.Held(session.assembly)| + |payload| <= MAX_USP_MSG_LEN
    ensures Server.Judge(session, p, listen) == Server.Take(true, more)
    ensures var o := Server.Receive(session, p, listen, AllWell);
            if more then
              && o.session.assembly == Server.Partial(token, 1, PAYLOAD_TX_SIZE, Server.Held(session.assembly) + payload)
              && o.session.last.Some? && o.session.last.value.mid == mid && o.completed.None?
            else o.completed == Some(Server.Held(session.assembly) + payload) && o.posted
  {
  }

  lemma {:induction false} FirstBlockTaken(s: Setup, c: Client)
    requires Fitting(s) && SendsFirst(s, c)
    ensures var after := Serviced(NewLink, c.wire[0], 0, s.listen, AllWell);
            && after.session.assembly == Server.Partial(s.token1, 1, PAYLOAD_TX_SIZE, s.first.record[..PAYLOAD_TX_SIZE])
            && after.session.last.Some? && after.session.last.value.mid == c.mid
            && after.reached == 0
            && Network.Received(NewLink, c.wire[0], 0, s.listen, AllWell).completed.None?
  {
    OpensWith(s, c, s.first);
    FreshLinkTakes(BlockPdu(c), s.listen, c.wire[0], c.mid, s.token1, s.first.record[..PAYLOAD_TX_SIZE]);
  }

  lemma {:induction false} FreshLinkTakes(p: Pdu, listen: seq<byte>, log: Log, mid: nat, token: seq<byte>, payload: seq<byte>)
    requires OpensRecord(p, listen, mid, token, true, payload) && log != [] && log[0].Block? && log[0].pdu == p
    ensures var after := Serviced(NewLink, log, 0, listen, AllWell);
            && after.session.assembly == Server.Partial(token, 1, PAYLOAD_TX_SIZE, payload)
            && after.session.last.Some? && after.session.last.value.mid == mid
            && after.reached == 0
            && Network.Received(NewLink, log, 0, listen, AllWell).completed.None?
  {
    OpeningTaken(Server.NewSession, p, listen, mid, token, true, payload);
    assert [] + payload == payload;
  }

  /** The second record arrives while the session still holds a block of the first. */
  lemma {:induction false} SecondTakenOnTop(s: Setup, c: Client, log: Log, link: Link, mid: nat)
    requires Fitting(s) && c.queue == [s.second] && c.token == s.token2 && c.uriQuery == s.query
    requires c.curBlock == 0 && c.blockSize == PAYLOAD_TX_SIZE && c.bytesSent == 0
    requires |log| == 2 && log[1] == CurrentEntry(c) && c.mid != mid
    requires link.session.last.Some? && link.session.last.value.mid == mid
    requires link.session.assembly == Server.Partial(s.token1, 1, PAYLOAD_TX_SIZE, s.first.record[..PAYLOAD_TX_SIZE])
    ensures var o := Network.Received(link, log, 1, s.listen, AllWell);
            && o.completed == Some(s.first.record[..PAYLOAD_TX_SIZE] + s.second.record) && o.posted
            && Leftover(link, log, 1, s.listen) == s.first.record[..PAYLOAD_TX_SIZE]
  {
    OpensWith(s, c, s.second);
    assert s.second.record[..|s.second.record|] == s.second.record;
    TakenOnTop(BlockPdu(c), s.listen, log, link, c.mid, s.token1, s.token2, s.first.record[..PAYLOAD_TX_SIZE], s.second.record);
  }

  lemma {:induction false} TakenOnTop(p: Pdu, listen: seq<byte>, log: Log, link: Link, mid: nat,
                                      token1: seq<byte>, token2: seq<byte>, held: seq<byte>, record: seq<byte>)
    requires OpensRecord(p, listen, mid, token2, false, record) && token1 != token2
    requires |log| == 2 && log[1].Block? && log[1].pdu == p && |held| + |record| <= MAX_USP_MSG_LEN
    requires link.session.last.Some? && link.session.last.value.mid != mid
    requires link.session.assembly == Server.Partial(token1, 1, PAYLOAD_TX_SIZE, held)
    ensures var o := Network.Received(link, log, 1, listen, AllWell);
            o.completed == Some(held + record) && o.posted && Leftover(link, log, 1, listen) == held
  {
    assert Arrival(log[1]) == Parsed(p);
    OpeningTaken(link.session, p, listen, mid, token2, false, record);
  }

  // ---------------------------------------------------------------------------------------
  // The run.

  function At(client: Client, link: Link, s: Setup): Net {
    Net(client, [link], [], [], {s.first.record, s.second.record})
  }

  ghost predicate Leads(net: Net, act: Action, net': Net, listen: seq<byte>) {
    Enabled(net, act) && Step(net, listen, act) == net'
  }

  ghost predicate Reachable(net: Net, listen: seq<byte>) {
    exists nets: seq<Net>, acts: seq<Action> :: IsRun(nets, acts, listen) && nets[|nets| - 1] == net
  }

  lemma {:induction false} ReachableStart(net: Net, listen: seq<byte>)
    requires Start'(net)
    ensures Reachable(net, listen)
  {
    assert IsRun([net], [], listen);
  }

  lemma {:induction false} RunGrows(nets: seq<Net>, acts: seq<Action>, listen: seq<byte>, act: Action, next: Net)
    requires IsRun(nets, acts, listen) && Leads(nets[|nets| - 1], act, next, listen)
    ensures IsRun(nets + [next], acts + [act], listen)
  {
    var nets', acts' := nets + [next], acts + [act];
    forall k: nat | k < |acts'| ensures StepAt(nets', acts', listen, k) {
      if k < |acts| {
        assert StepAt(nets, acts, listen, k);
        assert nets'[k] == nets[k] && nets'[k + 1] == nets[k + 1] && acts'[k] == acts[k];
      }
    }
  }

  lemma {:induction false} ReachableNext(net: Net, act: Action, next: Net, listen: seq<byte>)
    requires Reachable(net, listen) && Leads(net, act, next, listen)
    ensures Reachable(next, listen)
  {
    var nets, acts :| IsRun(nets, acts, listen) && nets[|nets| - 1] == net;
    RunGrows(nets, acts, listen, act, next);
    assert (nets + [next])[|nets + [next]| - 1] == next;
  }

  lemma {:induction false} ClientMoves(net: Net, ev: Event, w: World, listen: seq<byte>)
    requires Sound(net.client) && net.client.queue != [] && FreshTokens(w, net.client.wire)
    requires ev.Submit? || (ev.ready.None? && |Handle(net.client, ev, w).wire| == |net.links|)
    ensures Leads(net, Act(ev, w), Moved(net, ev, w), listen)
    ensures Sound(Handle(net.client, ev, w))
  {
    HandleKeepsSound(net.client, ev, w);
  }

  lemma {:induction false} OnlyOneToken(s: Setup, c: Client)
    requires Fitting(s) && SendsFirst(s, c)
    ensures FreshTokens(Calls(s, s.token2), c.wire)
  {
    assert CurrentEntry(c).pdu.token == s.token1;
  }

  /** A timeout of the first record leaves everything but the count of retransmissions as it is. */
  lemma {:induction false} TimeoutStep(s: Setup, c: Client, link: Link) returns (c': Client)
    requires Fitting(s) && SendsFirst(s, c) && c.queue == [s.first, s.second] && Sound(c) && c.retransmissions < 3
    requires Reachable(At(c, link, s), s.listen)
    ensures SendsFirst(s, c') && c'.queue == [s.first, s.second] && Sound(c') && c'.mid == c.mid
    ensures c'.retransmissions == c.retransmissions + 1
    ensures Reachable(At(c', link, s), s.listen)
  {
    var w := Calls(s, s.token2);
    c' := Handle(c, Turn(None, 0), w);
    TimedOut(s, c);
    OnlyOneToken(s, c);
    ClientMoves(At(c, link, s), Turn(None, 0), w, s.listen);
    ReachableNext(At(c, link, s), Act(Turn(None, 0), w), At(c', link, s), s.listen);
  }

  lemma {:induction false} ThreeTimeouts(s: Setup, c: Client, link: Link) returns (c': Client)
    requires Fitting(s) && SendsFirst(s, c) && c.queue == [s.first, s.second] && Sound(c) && c.retransmissions == 0
    requires Reachable(At(c, link, s), s.listen)
    ensures SendsFirst(s, c') && c'.queue == [s.first, s.second] && Sound(c') && c'.mid == c.mid && c'.retransmissions == 3
    ensures Reachable(At(c', link, s), s.listen)
  {
    c' := TimeoutStep(s, c, link);
    c' := TimeoutStep(s, c', link);
    c' := TimeoutStep(s, c', link);
  }

  lemma {:induction false} Begins(s: Setup) returns (c: Client)
    requires Fitting(s)
    ensures SendsFirst(s, c) && c.queue == [s.first] && c.retransmissions == 0 && Sound(c)
    ensures Reachable(Net(c, [NewLink], [], [], {s.first.record}), s.listen)
  {
    var w := Calls(s, s.token1);
    var start := Net(s.client, [], [], [], {});
    c := Handle(s.client, Submit(s.first), w);
    FirstSubmitted(s);
    HandleKeepsSound(s.client, Submit(s.first), w);
    assert Extended([], 1) == [NewLink];
    assert {} + {s.first.record} == {s.first.record};
    ReachableStart(start, s.listen);
    ReachableNext(start, Act(Submit(s.first), w), Net(c, [NewLink], [], [], {s.first.record}), s.listen);
  }

  predicate HoldsFirst(s: Setup, link: Link, mid: nat)
    requires Fitting(s)
  {
    && link.session.assembly == Server.Partial(s.token1, 1, PAYLOAD_TX_SIZE, s.first.record[..PAYLOAD_TX_SIZE])
    && link.session.last.Some? && link.session.last.value.mid == mid && link.reached == 0
  }

  lemma {:induction false} BothQueued(s: Setup, c: Client) returns (c': Client)
    requires Fitting(s) && SendsFirst(s, c) && c.queue == [s.first] && Sound(c)
    requires Reachable(Net(c, [NewLink], [], [], {s.first.record}), s.listen)
    ensures SendsFirst(s, c') && c' == c.(queue := [s.first, s.second]) && Sound(c')
    ensures Reachable(At(c', NewLink, s), s.listen)
  {
    var net, w := Net(c, [NewLink], [], [], {s.first.record}), Calls(s, s.token2);
    c' := Handle(c, Submit(s.second), w);
    SecondSubmitted(s, c);
    OnlyOneToken(s, c);
    ClientMoves(net, Submit(s.second), w, s.listen);
    assert {s.first.record} + {s.second.record} == {s.first.record, s.second.record};
    ReachableNext(net, Act(Submit(s.second), w), At(c', NewLink, s), s.listen);
  }

  /** The first block reaches the server. */
  lemma {:induction false} FirstArrives(s: Setup, c: Client) returns (link: Link)
    requires Fitting(s) && SendsFirst(s, c) && Reachable(At(c, NewLink, s), s.listen)
    ensures HoldsFirst(s, link, c.mid) && Reachable(At(c, link, s), s.listen)
  {
    link := Serviced(NewLink, c.wire[0], 0, s.listen, AllWell);
    FirstBlockTaken(s, c);
    assert [NewLink][0 := link] == [link];
    ReachableNext(At(c, NewLink, s), Deliver(0, 0, AllWell), At(c, link, s), s.listen);
  }

  predicate SendsSecond(s: Setup, c: Client) {
    && c.queue == [s.second] && c.token == s.token2 && c.uriQuery == s.query
    && c.curBlock == 0 && c.blockSize == PAYLOAD_TX_SIZE && c.bytesSent == 0
    && |c.wire| == 1 && |c.wire[0]| == 2 && c.wire[0][1] == CurrentEntry(c)
  }

  lemma {:induction false} NextDiffers(mid: nat)
    requires mid < MESSAGE_IDS
    ensures NextMessageId(mid) != mid
  {
  }

  /** The client gives up the first record and sends the second over the same socket. */
  lemma {:induction false} Switches(s: Setup, c: Client, link: Link) returns (c': Client)
    requires Fitting(s) && SendsFirst(s, c) && c.queue == [s.first, s.second] && Sound(c) && c.retransmissions == 3
    requires Reachable(At(c, link, s), s.listen)
    ensures SendsSecond(s, c') && c'.mid != c.mid
    ensures Reachable(At(c', link, s), s.listen)
  {
    NextDiffers(c.mid);
    var w := Calls(s, s.token2);
    c' := Handle(c, Turn(None, 0), w);
    GivenUp(s, c);
    OnlyOneToken(s, c);
    ClientMoves(At(c, link, s), Turn(None, 0), w, s.listen);
    ReachableNext(At(c, link, s), Act(Turn(None, 0), w), At(c', link, s), s.listen);
  }

  predicate Mixed(s: Setup, net: Net)
    requires Fitting(s)
  {
    && net.submitted == {s.first.record, s.second.record}
    && net.completed == [Completion(0, 1, s.first.record[..PAYLOAD_TX_SIZE],
                                    s.first.record[..PAYLOAD_TX_SIZE] + s.second.record, true)]
  }

  lemma {:induction false} Mixes(s: Setup, c: Client, link: Link, mid: nat) returns (last: Net)
    requires Fitting(s) && SendsSecond(s, c) && HoldsFirst(s, link, mid) && c.mid != mid
    requires Reachable(At(c, link, s), s.listen)
    ensures Reachable(last, s.listen) && Mixed(s, last)
  {
    SecondTakenOnTop(s, c, c.wire[0], link, mid);
    last := Serve(At(c, link, s), s.listen, 0, 1, AllWell);
    ReachableNext(At(c, link, s), Deliver(0, 1, AllWell), last, s.listen);
  }

  /** The server holds the first block of the first record, and the client has waited for it three times. */
  lemma {:induction false} Stalls(s: Setup) returns (c: Client, link: Link)
    requires Fitting(s)
    ensures SendsFirst(s, c) && c.queue == [s.first, s.second] && Sound(c) && c.retransmissions == 3
    ensures HoldsFirst(s, link, c.mid) && Reachable(At(c, link, s), s.listen)
  {
    var c1 := Begins(s);
    var c2 := BothQueued(s, c1);
    link := FirstArrives(s, c2);
    c := ThreeTimeouts(s, c2, link);
  }

  /** Whenever a record of more than one block is followed by a short one for the same peer, there is a run in
      which the server posts the short record behind the first block of the other: the acknowledgement of that
      block was lost until the client gave up, and the new token did not clear what the server held. */
  lemma {:induction false} MixedRun(s: Setup) returns (last: Net)
    requires Fitting(s)
    ensures Reachable(last, s.listen) && Mixed(s, last)
  {
    var c, link := Stalls(s);
    var c' := Switches(s, c, link);
    last := Mixes(s, c', link, c.mid);
  }
}
