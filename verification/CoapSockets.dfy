/** Over which socket a record is sent: one that leads to the address its host had when the attempt began, to its
    port, encrypted exactly if it asks for that, and a new one if it asks for that. */
module CoapSockets {
  import opened CoapPdu
  import opened Options
  import opened CoapClient
  import opened CoapClientProofs
  import opened CoapWire
  import opened CoapNetwork
  import Server = CoapServer

  predicate Leads(e: Endpoint, g: Goal) {
    g.address.Some? && e == Endpoint(g.address, Some(g.port), g.encrypted)
  }

  /** Every block was handed to a socket that leads where its record has to go. */
  predicate AllLead(wire: Wire, sockets: seq<Endpoint>) {
    && |wire| == |sockets|
    && forall a, i :: 0 <= a < |wire| && 0 <= i < |wire[a]| && wire[a][i].Block? ==> Leads(sockets[a], wire[a][i].goal)
  }

  /** An attempt to send a record that asks for a new socket begins the log of its socket. */
  predicate AllAnew(wire: Wire) {
    forall a, i {:trigger Linked(wire[a], i)} | 0 <= a < |wire| && 0 < i < |wire[a]| ::
      wire[a][i].Block? && wire[a][i].goal.anew ==> Linked(wire[a], i)
  }

  /** What the client knows of its peer is where its socket leads. */
  predicate Bound(c: Client) {
    c.open ==> c.wire != [] && |c.sockets| == |c.wire| &&
               c.sockets[|c.sockets| - 1] == Endpoint(c.peer, c.peerPort, c.encrypted)
  }

  /** The peer is the one that the record to be sent has to go to. */
  predicate Aimed(c: Client)
    requires c.queue != []
  {
    c.target.Some? && c.peer == c.target && c.peerPort == Some(c.queue[0].port) && c.encrypted == c.queue[0].encrypted
  }

  predicate Recorded(c: Client) {
    AllLead(c.wire, c.sockets) && AllAnew(c.wire) && Bound(c)
  }

  predicate Directed(c: Client) {
    Recorded(c) && (c.open && c.queue != [] ==> Aimed(c))
  }

  lemma {:induction false} BlockRecorded(wire: Wire, sockets: seq<Endpoint>, e: Entry)
    requires AllLead(wire, sockets) && AllAnew(wire) && wire != []
    requires e.Block? ==>
               && Leads(sockets[|wire| - 1], e.goal)
               && (e.goal.anew ==> var log := wire[|wire| - 1]; log == [] || Linked(log + [e], |log|))
    ensures AllLead(Logged(wire, e), sockets) && AllAnew(Logged(wire, e))
  {
    var wire': Wire := Logged(wire, e);
    if wire' != wire {
      forall a, i | 0 <= a < |wire'| && 0 < i < |wire'[a]| && wire'[a][i].Block? && wire'[a][i].goal.anew
        ensures Linked(wire'[a], i)
      {
        if i < |wire[a]| {
          assert Linked(wire[a], i) == Linked(wire'[a], i);
        }
      }
    }
  }

  lemma {:induction false} StartDirected(c: Client, mode: Mode, w: World, k: nat)
    requires Recorded(c) && c.queue != []
    ensures Directed(Start(c, mode, w, k))
    decreases |c.queue|, if mode == Next then 0 else 2, 0
  {
    var idle := Cleared(c, mode, w(k));
    if idle.queue != [] {
      BeginDirected(idle, w, k);
    }
  }

  lemma {:induction false} BeginDirected(c: Client, w: World, k: nat)
    requires Recorded(c) && c.queue != []
    ensures Directed(Begin(c, w, k))
    decreases |c.queue|, 1, 3
  {
    if w(k).address.None? {
      RetryDirected(c, false, w, k + 1);
    } else {
      var ready := Ready(c, w(k));
      if ready.open {
        SendFirstDirected(ready, w, k);
      } else if !w(k).connectOk {
        RetryDirected(Addressed(ready, w(k)), false, w, k + 1);
      } else {
        ConnectedRecorded(Addressed(ready, w(k)));
        SendFirstDirected(Connected(Addressed(ready, w(k))), w, k);
      }
    }
  }

  lemma {:induction false} ConnectedRecorded(c: Client)
    requires AllLead(c.wire, c.sockets) && AllAnew(c.wire)
    ensures Recorded(Connected(c)) && Connected(c).wire[|c.wire|] == []
  {
    var wire: Wire := Connected(c).wire;
    forall a, i | 0 <= a < |wire| && 0 < i < |wire[a]| && wire[a][i].Block? && wire[a][i].goal.anew
      ensures Linked(wire[a], i)
    {
      assert Linked(c.wire[a], i);
    }
  }

  lemma {:induction false} SendFirstDirected(c: Client, w: World, k: nat)
    requires Recorded(c) && c.queue != [] && c.open && Aimed(c)
    requires c.queue[0].resetSession ==> c.wire[|c.wire| - 1] == []
    ensures Directed(SendFirst(c, w, k))
    decreases |c.queue|, 1, 2
  {
    if w(k).uriQuery.None? {
      RetryDirected(First(c, w(k)), false, w, k + 1);
    } else {
      var first := First(c, w(k)).(uriQuery := w(k).uriQuery.value);
      if w(k).sendOk {
        FirstDirected(c, first, w(k));
      } else {
        RetryDirected(SendBlock(first, w(k)), false, w, k + 1);
      }
    }
  }

  lemma {:induction false} FirstLeads(c: Client, first: Client)
    requires Bound(c) && c.open && c.queue != [] && Aimed(c) && Writable(first) && first.queue == c.queue && first.target == c.target
    ensures c.wire != [] && |c.sockets| == |c.wire| && Leads(c.sockets[|c.wire| - 1], CurrentEntry(first).goal)
    ensures CurrentEntry(first).goal.anew == c.queue[0].resetSession
  {
  }

  lemma {:induction false} FirstDirected(c: Client, first: Client, a: Answers)
    requires Recorded(c) && c.queue != [] && c.open && Aimed(c) && a.sendOk
    requires c.queue[0].resetSession ==> c.wire[|c.wire| - 1] == []
    requires first == First(c, a).(uriQuery := first.uriQuery)
    ensures Directed(SendBlock(first, a))
  {
    FirstLeads(c, first);
    BlockRecorded(c.wire, c.sockets, CurrentEntry(first));
  }

  lemma {:induction false} RetryDirected(c: Client, zeroDelay: bool, w: World, k: nat)
    requires AllLead(c.wire, c.sockets) && AllAnew(c.wire)
    requires c.queue == [] ==> c.reconnects == 0
    ensures Directed(RetryLater(c, zeroDelay, w, k))
    decreases |c.queue|, 1, 0
  {
    var s := Stopped(c).(reconnects := c.reconnects + 1);
    if s.reconnects >= MAX_RECONNECTS {
      StartDirected(s, Next, w, k);
    }
  }

  /** An attempt that succeeds at once goes to the address that has just been looked up, over a socket that it opens
      unless the open one leads there already and the record does not ask for a new one. */
  lemma {:induction false} GoesWhereLookedUp(c: Client, w: World, k: nat)
    requires c.queue != [] && w(k).address.Some? && w(k).connectOk && w(k).uriQuery.Some? && w(k).sendOk
    requires c.open ==> c.wire != []
    ensures var c' := Begin(c, w, k);
            && c'.open && c'.queue == c.queue && c'.token == w(k).token && c'.curBlock == 0 && c'.target == w(k).address
            && var there := c.peer == w(k).address && c.peerPort == Some(c.queue[0].port) && c.encrypted == c.queue[0].encrypted;
               |c'.wire| == |c.wire| + (if c.open && there && !c.queue[0].resetSession then 0 else 1)
  {
    var ready := Ready(c, w(k));
    var open := if ready.open then ready else Connected(Addressed(ready, w(k)));
    assert Begin(c, w, k) == SendFirst(open, w, k);
    var first := First(open, w(k)).(uriQuery := w(k).uriQuery.value);
    assert SendFirst(open, w, k) == SendOrRetry(first, w, k) == SendBlock(first, w(k));
  }

  // ---------------------------------------------------------------------------------------
  // Events.

  lemma {:induction false} SubmitDirected(c: Client, item: Item, w: World)
    requires Sound(c) && Directed(c)
    ensures Directed(Enqueue(c, item, w))
  {
    if !Queued(c, item.record) && c.queue == [] {
      StartDirected(c.(queue := Unexpired(c.queue, w(0).now) + [item]), Current, w, 1);
    }
  }

  lemma {:induction false} QuietDirected(c: Client, now: int, w: World)
    requires Sound(c) && OnWire(c) && Directed(c)
    ensures Directed(Poll(c, None, now, w))
  {
    if AckOverdue(c, now) {
      NoAckDirected(c, w);
    } else if !LingerOver(c, now) && ReconnectDue(c, now) {
      StartDirected(c, Again, w, 0);
    }
  }

  lemma {:induction false} ResendDirected(c: Client, w: World)
    requires Sound(c) && OnWire(c) && Directed(c) && c.open && c.queue != []
    ensures Directed(SendOrRetry(Late(c).(ackTimeoutMs := 2 * c.ackTimeoutMs), w, 0))
  {
    var late := Late(c).(ackTimeoutMs := 2 * c.ackTimeoutMs);
    if w(0).sendOk {
      ResendKeeps(c, late, w(0));
    } else {
      RetryDirected(SendBlock(late, w(0)), false, w, 1);
    }
  }

  lemma {:induction false} NoAckDirected(c: Client, w: World)
    requires Sound(c) && OnWire(c) && Directed(c) && c.open && c.queue != []
    ensures Directed(OnNoAck(c, w))
  {
    if c.retransmissions + 1 >= MAX_RETRANSMIT {
      StartDirected(Late(c), Next, w, 1);
    } else if c.encrypted {
      RetryDirected(Late(c), true, w, 1);
    } else {
      ResendDirected(c, w);
    }
  }

  lemma {:induction false} SameGoal(c: Client, next: Client)
    requires Writable(c) && Writable(next) && next.queue == c.queue && next.target == c.target && next.token == c.token
    ensures CurrentEntry(next).goal == CurrentEntry(c).goal && CurrentEntry(next).pdu.token == CurrentEntry(c).pdu.token
  {
  }

  lemma {:induction false} NextLinked(wire: Wire, e: Entry, next: Entry)
    requires EndsIn(wire, e) && e.Block? && next.Block? && next.pdu.token == e.pdu.token
    ensures var log := wire[|wire| - 1]; Linked(log + [next], |log|)
  {
  }

  /** The client has not moved, and what it has logged leads right. */
  lemma {:induction false} LoggedDirected(c: Client, c': Client)
    requires Directed(c) && c.open && c'.open && |c'.wire| == |c.wire| && c'.sockets == c.sockets && c'.queue == c.queue
    requires c'.peer == c.peer && c'.peerPort == c.peerPort && c'.encrypted == c.encrypted && c'.target == c.target
    requires AllLead(c'.wire, c.sockets) && AllAnew(c'.wire)
    ensures Directed(c')
  {
  }

  lemma {:induction false} CurrentLeads(c: Client)
    requires Directed(c) && c.open && Writable(c)
    ensures c.wire != [] && |c.sockets| == |c.wire| && Leads(c.sockets[|c.wire| - 1], CurrentEntry(c).goal)
  {
  }

  lemma {:induction false} NextRecorded(wire: Wire, sockets: seq<Endpoint>, e: Entry, next: Entry)
    requires AllLead(wire, sockets) && AllAnew(wire) && EndsIn(wire, e) && e.Block? && next.Block?
    requires next.goal == e.goal && next.pdu.token == e.pdu.token && Leads(sockets[|wire| - 1], e.goal)
    ensures AllLead(Logged(wire, next), sockets) && AllAnew(Logged(wire, next)) && |Logged(wire, next)| == |wire|
  {
    NextLinked(wire, e, next);
    BlockRecorded(wire, sockets, next);
  }

  lemma {:induction false} NextDirected(c: Client, next: Client, a: Answers)
    requires Directed(c) && c.open && Writable(c) && Writable(next) && EndsIn(c.wire, CurrentEntry(c)) && a.sendOk
    requires next.queue == c.queue && next.target == c.target && next.token == c.token && next.open
    requires next.wire == c.wire && next.sockets == c.sockets
    requires next.peer == c.peer && next.peerPort == c.peerPort && next.encrypted == c.encrypted
    ensures Directed(SendBlock(next, a))
  {
    SameGoal(c, next);
    CurrentLeads(c);
    NextRecorded(c.wire, c.sockets, CurrentEntry(c), CurrentEntry(next));
    LoggedDirected(c, SendBlock(next, a));
  }

  lemma {:induction false} AdvanceDirected(c: Client, p: Pdu, w: World)
    requires Sound(c) && OnWire(c) && Directed(c) && c.open && JudgeAck(c, p) == Advance
    ensures Directed(SendOrRetry(Advanced(c, p, w(0)), w, 0))
  {
    var next := Advanced(c, p, w(0));
    LastShown(c);
    if w(0).sendOk {
      NextDirected(c, next, w(0));
    } else {
      RetryDirected(SendBlock(next, w(0)), false, w, 1);
    }
  }

  lemma {:induction false} RefusalDirected(c: Client, token: seq<byte>, w: World)
    requires Sound(c) && Directed(c) && c.open
    ensures Directed(RetryLater(AfterRst(c, token, w(0)), false, w, 1))
  {
    BlockRecorded(c.wire, c.sockets, Rst(Bare(Reset, REQUEST, 0, NextMessageId(c.mid), token)));
    RetryDirected(AfterRst(c, token, w(0)), false, w, 1);
  }

  lemma {:induction false} ReadingDirected(c: Client, r: Reading, w: World)
    requires Sound(c) && OnWire(c) && Directed(c) && c.open
    requires Parsable(Turn(Some(r), 0)) && !LateError(c, Turn(Some(r), 0))
    ensures Directed(OnReading(c, r, w))
  {
    match r
    case ConnectionLost =>
      if c.queue != [] {
        RetryDirected(c, false, w, 0);
      }
    case NothingToRead =>
    case Received(p) =>
      match JudgeAck(c, p) {
        case Ignore =>
        case Restart => RetryDirected(c, false, w, 1);
        case RefuseAndRestart => RefusalDirected(c, p.token, w);
        case Finish => StartDirected(c, Next, w, 1);
        case Advance => AdvanceDirected(c, p, w);
      }
    case Unreadable(token, flags) =>
      if SendRst in flags || ErrInAck(flags) {
        RefusalDirected(c, token, w);
      }
  }

  /** After every event a client that sends a record does so over a socket that leads to the address its host had
      when the attempt began, to the record's port, and encrypted exactly if the record asks for that; every block
      logged so far went the right way, and every attempt that asks for a new socket began one. */
  lemma {:induction false} HandleKeepsDirected(c: Client, ev: Event, w: World)
    requires Sound(c) && OnWire(c) && Directed(c) && Parsable(ev) && !LateError(c, ev)
    ensures Directed(Handle(c, ev, w))
  {
    match ev
    case Submit(item) => SubmitDirected(c, item, w);
    case Turn(ready, now) =>
      if c.open && ready.Some? {
        ReadingDirected(c, ready.value, w);
      } else {
        assert Poll(c, ready, now, w) == Poll(c, None, now, w);
        QuietDirected(c, now, w);
      }
  }

  // ---------------------------------------------------------------------------------------
  // Runs.

  lemma {:induction false} MoveDirected(net: Net, ev: Event, w: World)
    requires Inv(net) && Sound(net.client) && Directed(net.client) && Parsable(ev)
    ensures Directed(Moved(net, ev, w).client)
  {
    HandleKeepsSound(net.client, ev, w);
    if !LateError(net.client, ev) {
      HandleKeepsDirected(net.client, ev, w);
    }
  }

  lemma {:induction false} StepDirected(net: Net, listen: seq<byte>, act: Action)
    requires Inv(net) && Enabled(net, act) && Directed(net.client)
    ensures Directed(Step(net, listen, act).client)
  {
    match act
    case Act(ev, w) => MoveDirected(net, ev, w);
    case Answered(n, now, w) =>
      ReachedSame(net, listen, n, now, w);
      PositionIrrelevant(net, n);
      AnswerParses(Reached(net, n), n);
      MoveDirected(Reached(net, n), AnswerEvent(Reached(net, n), n, now), w);
    case Deliver(_, _, _) =>
  }

  lemma {:induction false} RunDirected(nets: seq<Net>, acts: seq<Action>, listen: seq<byte>, k: nat)
    requires IsRun(nets, acts, listen) && k < |nets|
    ensures Directed(nets[k].client)
  {
    if k > 0 {
      assert StepAt(nets, acts, listen, k - 1);
      RunDirected(nets, acts, listen, k - 1);
      RunKeeps(nets, acts, listen, k - 1);
      StepDirected(nets[k - 1], listen, acts[k - 1]);
    }
  }

  /** In every run, whatever was looked up, connected, lost and tried again: each block was handed to a socket that
      leads to the address its host had when the attempt began and to its port, encrypted exactly if the record asks
      for that; and the first block of a record that asks for a new socket was the first thing its socket carried. */
  lemma {:induction false} BlocksGoRight(nets: seq<Net>, acts: seq<Action>, listen: seq<byte>, k: nat, a: nat, i: nat)
    requires IsRun(nets, acts, listen) && k < |nets| && a < |nets[k].client.wire| && i < |nets[k].client.wire[a]|
    requires nets[k].client.wire[a][i].Block?
    ensures var c, e := nets[k].client, nets[k].client.wire[a][i];
            && a < |c.sockets| && e.goal.address.Some?
            && c.sockets[a] == Endpoint(e.goal.address, Some(e.goal.port), e.goal.encrypted)
            && WellCut(e) && (e.goal.anew && Num(e) == 0 ==> i == 0)
  {
    RunDirected(nets, acts, listen, k);
    RunKeeps(nets, acts, listen, k);
    FirstOfSocket(nets[k].client.wire, a, i);
  }

  lemma {:induction false} FirstOfSocket(wire: Wire, a: nat, i: nat)
    requires WireOk(wire) && AllAnew(wire) && a < |wire| && i < |wire[a]| && wire[a][i].Block?
    ensures WellCut(wire[a][i])
    ensures wire[a][i].goal.anew && Num(wire[a][i]) == 0 ==> i == 0
  {
    assert StepOk(Before(wire[a], i), wire[a][i]);
    if i > 0 && Num(wire[a][i]) == 0 {
      assert !Linked(wire[a], i);
    }
  }
}
