/** What an event adds to the logs of the sockets: at most one entry to the open one, which opens a new attempt only
    if the client has done with the record before. */
module CoapAttempts {
  import opened CoapPdu
  import opened Options
  import opened CoapClient
  import opened CoapClientProofs
  import opened CoapWire

  /** The logs there were are as they were, and each new one holds one entry at most. */
  predicate Leaves(wire: Wire, wire': Wire) {
    wire <= wire' && forall a :: |wire| <= a < |wire'| ==> |wire'[a]| <= 1
  }

  /** At most one entry has been added: a RST, the next block of the attempt that the log ended with or, if
      `switch` allows it, the first block of another attempt. */
  predicate GrowsBy(log: Log, log': Log, switch: bool) {
    || log' == log
    || (|log'| == |log| + 1 && log' == log + [log'[|log|]] && (switch || log'[|log|].Rst? || Linked(log', |log|)))
  }

  /** Of the logs there were only the last one may have grown. */
  predicate Grows(wire: Wire, wire': Wire, switch: bool) {
    && |wire| <= |wire'|
    && (forall a :: 0 <= a < |wire| - 1 ==> wire'[a] == wire[a])
    && (wire != [] ==> GrowsBy(wire[|wire| - 1], wire'[|wire| - 1], switch))
    && (forall a :: |wire| <= a < |wire'| ==> |wire'[a]| <= 1)
  }

  /** A client that has no socket, or has just given its socket up, leaves the old logs alone; and once it is
      connected it has something to send. */
  predicate Departs(wire: Wire, c': Client) {
    Leaves(wire, c'.wire) && (c'.open ==> c'.queue != [])
  }

  lemma {:induction false} LeavesTwice(w0: Wire, w1: Wire, w2: Wire, switch: bool)
    requires Grows(w0, w1, switch) && Leaves(w1, w2)
    ensures Grows(w0, w2, switch)
  {
    forall a | |w0| <= a < |w2| ensures |w2[a]| <= 1 {
      if a < |w1| {
        assert w2[a] == w1[a];
      }
    }
  }

  /** A log for a new socket, and at most one entry in it. */
  lemma {:induction false} NewLogOnly(wire: Wire, wire': Wire)
    requires Grows(wire + [[]], wire', true)
    ensures Leaves(wire, wire')
  {
    var w1 := wire + [[]];
    assert w1[|w1| - 1] == [];
    forall a | 0 <= a < |wire| ensures wire'[a] == wire[a] {
      assert w1[a] == wire[a];
    }
  }

  lemma {:induction false} LoggedOnce(wire: Wire, e: Entry)
    requires wire != []
    ensures Grows(wire, Logged(wire, e), true)
  {
  }

  lemma {:induction false} StartDeparts(c: Client, mode: Mode, w: World, k: nat)
    requires !c.open
    ensures Departs(c.wire, Start(c, mode, w, k))
    decreases |c.queue|, if mode == Next then 0 else 2, 0
  {
    if mode != Next || c.queue != [] {
      var idle := Cleared(c, mode, w(k));
      if idle.queue != [] {
        BeginDeparts(idle, w, k);
      }
    }
  }

  lemma {:induction false} BeginDeparts(c: Client, w: World, k: nat)
    requires !c.open && c.queue != []
    ensures Departs(c.wire, Begin(c, w, k))
    decreases |c.queue|, 1, 3
  {
    if w(k).address.None? {
      RetryDeparts(c, false, w, k + 1);
    } else {
      var ready := Ready(c, w(k));
      if !w(k).connectOk {
        RetryDeparts(Addressed(ready, w(k)), false, w, k + 1);
      } else {
        var connected := Connected(Addressed(ready, w(k)));
        SendFirstGrows(connected, w, k);
        NewLogOnly(c.wire, SendFirst(connected, w, k).wire);
      }
    }
  }

  lemma {:induction false} SendFirstGrows(c: Client, w: World, k: nat)
    requires c.open && c.queue != [] && c.wire != []
    ensures var c' := SendFirst(c, w, k); Grows(c.wire, c'.wire, true) && (c'.open ==> c'.queue != [])
    decreases |c.queue|, 1, 2
  {
    if w(k).uriQuery.None? {
      RetryDeparts(First(c, w(k)), false, w, k + 1);
    } else {
      var first := First(c, w(k)).(uriQuery := w(k).uriQuery.value);
      if w(k).sendOk {
        LoggedOnce(c.wire, CurrentEntry(first));
      } else {
        RetryDeparts(SendBlock(first, w(k)), false, w, k + 1);
      }
    }
  }

  lemma {:induction false} RetryDeparts(c: Client, zeroDelay: bool, w: World, k: nat)
    ensures Departs(c.wire, RetryLater(c, zeroDelay, w, k))
    decreases |c.queue|, 1, 0
  {
    var s := Stopped(c).(reconnects := c.reconnects + 1);
    if s.reconnects >= MAX_RECONNECTS {
      StartDeparts(s, Next, w, k);
    }
  }

  /** A client that moves on to its next record, perhaps over the socket it has. */
  lemma {:induction false} StartGrows(c: Client, mode: Mode, w: World, k: nat)
    requires c.open && c.wire != [] && c.queue != []
    ensures var c' := Start(c, mode, w, k);
            Grows(c.wire, c'.wire, true) && (c'.open && c'.queue == [] ==> c'.wire == c.wire)
  {
    var idle := Cleared(c, mode, w(k));
    if idle.queue != [] {
      BeginGrows(idle, w, k);
    }
  }

  lemma {:induction false} BeginGrows(c: Client, w: World, k: nat)
    requires c.open && c.queue != [] && c.wire != []
    ensures var c' := Begin(c, w, k); Grows(c.wire, c'.wire, true) && (c'.open ==> c'.queue != [])
  {
    if w(k).address.None? {
      RetryDeparts(c, false, w, k + 1);
    } else {
      var ready := Ready(c, w(k));
      if ready.open {
        SendFirstGrows(ready, w, k);
      } else if !w(k).connectOk {
        RetryDeparts(Addressed(ready, w(k)), false, w, k + 1);
      } else {
        var connected := Connected(Addressed(ready, w(k)));
        SendFirstGrows(connected, w, k);
        NewLogOnly(c.wire, SendFirst(connected, w, k).wire);
      }
    }
  }

  // ---------------------------------------------------------------------------------------
  // Events.

  /** The client moves on because of a response: an error, or the report that the record was received. */
  predicate Finishes(c: Client, ev: Event) {
    && c.open && ev.Turn? && ev.ready.Some? && ev.ready.value.Received?
    && JudgeAck(c, ev.ready.value.pdu) == Finish
  }

  /** The client gives its record up because it has been retransmitted in vain. The socket stays open. */
  predicate GivesUp(c: Client, ev: Event) {
    && ev.Turn? && ev.ready.None? && AckOverdue(c, ev.now) && c.retransmissions + 1 >= MAX_RETRANSMIT
  }

  /** The client may begin a record on the socket it has used for another one. */
  predicate MaySwitch(c: Client, ev: Event) {
    Finishes(c, ev) || GivesUp(c, ev) || (c.open && c.queue == [] && ev.Submit?)
  }

  /** What an event does to the logs. A client that ends up connected with nothing to send has added nothing, and
      was so before or has just finished its last record. */
  predicate HandledWell(c: Client, ev: Event, c': Client) {
    && Grows(c.wire, c'.wire, MaySwitch(c, ev))
    && (!c.open ==> Leaves(c.wire, c'.wire))
    && (c'.open && c'.queue == [] ==>
          c.open && c'.wire == c.wire && (c.queue == [] || Finishes(c, ev) || GivesUp(c, ev)))
  }

  lemma {:induction false} NothingAdded(c: Client, ev: Event, c': Client)
    requires c'.wire == c.wire && c'.queue == c.queue && (c'.open ==> c.open)
    ensures HandledWell(c, ev, c')
  {
  }

  lemma {:induction false} DepartsWell(c: Client, ev: Event, c': Client)
    requires Departs(c.wire, c')
    ensures HandledWell(c, ev, c')
  {
  }

  lemma {:induction false} SubmitWell(c: Client, item: Item, w: World)
    requires Sound(c) && OnWire(c)
    ensures HandledWell(c, Submit(item), Enqueue(c, item, w))
  {
    var grown := c.(queue := Unexpired(c.queue, w(0).now) + [item]);
    if Queued(c, item.record) {
      NothingAdded(c, Submit(item), c);
    } else if c.queue != [] {
    } else if c.open {
      var idle := Cleared(grown, Current, w(1));
      BeginGrows(idle, w, 1);
    } else {
      StartDeparts(grown, Current, w, 1);
      DepartsWell(c, Submit(item), Enqueue(c, item, w));
    }
  }

  lemma {:induction false} QuietWell(c: Client, now: int, w: World)
    requires Sound(c) && OnWire(c)
    ensures HandledWell(c, Turn(None, now), Poll(c, None, now, w))
  {
    var ev := Turn(None, now);
    if AckOverdue(c, now) {
      NoAckWell(c, now, w);
    } else if LingerOver(c, now) {
      NothingAdded(c, ev, Stopped(c));
    } else if ReconnectDue(c, now) {
      StartDeparts(c, Again, w, 0);
      DepartsWell(c, ev, Start(c, Again, w, 0));
    } else {
      NothingAdded(c, ev, c);
    }
  }

  lemma {:induction false} NoAckWell(c: Client, now: int, w: World)
    requires Sound(c) && OnWire(c) && AckOverdue(c, now)
    ensures c.queue != [] && HandledWell(c, Turn(None, now), OnNoAck(c, w))
  {
    if c.retransmissions + 1 >= MAX_RETRANSMIT {
      StartGrows(Late(c), Next, w, 1);
    } else if c.encrypted {
      RetryDeparts(Late(c), true, w, 1);
      DepartsWell(c, Turn(None, now), OnNoAck(c, w));
    } else {
      RetransmitWell(c, Turn(None, now), w);
    }
  }

  /** Retransmitting a block does not log it again. */
  lemma {:induction false} RetransmitsSame(c: Client, late: Client, a: Answers)
    requires Writable(c) && Writable(late) && CurrentEntry(late) == CurrentEntry(c) && late.wire == c.wire && a.sendOk
    requires c.wire != [] && c.wire[|c.wire| - 1] != []
    requires c.wire[|c.wire| - 1][|c.wire[|c.wire| - 1]| - 1] == CurrentEntry(c)
    ensures SendBlock(late, a).wire == c.wire
  {
  }

  lemma {:induction false} RetransmitWell(c: Client, ev: Event, w: World)
    requires Sound(c) && OnWire(c) && c.open && c.queue != []
    ensures HandledWell(c, ev, SendOrRetry(Late(c).(ackTimeoutMs := 2 * c.ackTimeoutMs), w, 0))
  {
    var late := Late(c).(ackTimeoutMs := 2 * c.ackTimeoutMs);
    SameEntry(c, late);
    if w(0).sendOk {
      RetransmitsSame(c, late, w(0));
      NothingAdded(c, ev, SendBlock(late, w(0)));
    } else {
      RetryDeparts(SendBlock(late, w(0)), false, w, 1);
      DepartsWell(c, ev, RetryLater(SendBlock(late, w(0)), false, w, 1));
    }
  }

  lemma {:induction false} NextWritable(c: Client, p: Pdu, a: Answers)
    requires Sound(c) && c.open && JudgeAck(c, p) == Advance
    ensures Writable(c) && Writable(Advanced(c, p, a))
    ensures CurrentEntry(Advanced(c, p, a)).pdu.token == CurrentEntry(c).pdu.token
  {
  }

  lemma {:induction false} AdvanceWell(c: Client, ev: Event, p: Pdu, w: World)
    requires Sound(c) && OnWire(c) && c.open && JudgeAck(c, p) == Advance
    ensures HandledWell(c, ev, SendOrRetry(Advanced(c, p, w(0)), w, 0))
  {
    var next := Advanced(c, p, w(0));
    NextWritable(c, p, w(0));
    if w(0).sendOk {
      LastShown(c);
      NextAdded(c, ev, next, w(0));
    } else {
      RetryDeparts(SendBlock(next, w(0)), false, w, 1);
      DepartsWell(c, ev, RetryLater(SendBlock(next, w(0)), false, w, 1));
    }
  }

  lemma {:induction false} EndOfLog(wire: Wire, e: Entry)
    requires EndsIn(wire, e)
    ensures wire != [] && wire[|wire| - 1] != [] && wire[|wire| - 1][|wire[|wire| - 1]| - 1] == e
  {
  }

  lemma {:induction false} NextAdded(c: Client, ev: Event, next: Client, a: Answers)
    requires c.open && Writable(c) && EndsIn(c.wire, CurrentEntry(c)) && Writable(next) && next.wire == c.wire && a.sendOk
    requires CurrentEntry(next).pdu.token == CurrentEntry(c).pdu.token
    ensures HandledWell(c, ev, SendBlock(next, a))
  {
    var e, e' := CurrentEntry(c), CurrentEntry(next);
    EndOfLog(c.wire, e);
    NextIsLinked(c.wire, e, e');
    AddedWell(c, ev, SendBlock(next, a));
  }

  lemma {:induction false} AddedWell(c: Client, ev: Event, c': Client)
    requires c.open && Grows(c.wire, c'.wire, false) && c'.queue != []
    ensures HandledWell(c, ev, c')
  {
  }

  lemma {:induction false} NextIsLinked(wire: Wire, e: Entry, next: Entry)
    requires wire != [] && wire[|wire| - 1] != [] && wire[|wire| - 1][|wire[|wire| - 1]| - 1] == e
    requires e.Block? && next.Block? && next.pdu.token == e.pdu.token
    ensures Grows(wire, Logged(wire, next), false)
  {
  }

  lemma {:induction false} RefusalWell(c: Client, ev: Event, token: seq<byte>, w: World)
    requires OnWire(c) && c.open
    ensures HandledWell(c, ev, RetryLater(AfterRst(c, token, w(0)), false, w, 1))
  {
    var rst := AfterRst(c, token, w(0));
    RetryDeparts(rst, false, w, 1);
    RstGrows(c.wire, Rst(Bare(Reset, REQUEST, 0, NextMessageId(c.mid), token)));
    LeavesTwice(c.wire, rst.wire, RetryLater(rst, false, w, 1).wire, MaySwitch(c, ev));
  }

  lemma {:induction false} RstGrows(wire: Wire, e: Entry)
    requires wire != [] && e.Rst?
    ensures Grows(wire, Logged(wire, e), false) && Grows(wire, Logged(wire, e), true)
    ensures Grows(wire, wire, false) && Grows(wire, wire, true)
  {
  }

  lemma {:induction false} ReadingWell(c: Client, r: Reading, now: int, w: World)
    requires Sound(c) && OnWire(c) && c.open
    requires Parsable(Turn(Some(r), now)) && !LateError(c, Turn(Some(r), now))
    ensures HandledWell(c, Turn(Some(r), now), OnReading(c, r, w))
  {
    var ev := Turn(Some(r), now);
    match r
    case ConnectionLost =>
      if c.queue == [] {
        NothingAdded(c, ev, Stopped(c));
      } else {
        RetryDeparts(c, false, w, 0);
        DepartsWell(c, ev, OnReading(c, r, w));
      }
    case NothingToRead => NothingAdded(c, ev, c);
    case Received(p) =>
      match JudgeAck(c, p) {
        case Ignore => NothingAdded(c, ev, c);
        case Restart =>
          RetryDeparts(c, false, w, 1);
          DepartsWell(c, ev, OnPdu(c, p, w));
        case RefuseAndRestart => RefusalWell(c, ev, p.token, w);
        case Finish => StartGrows(c, Next, w, 1);
        case Advance => AdvanceWell(c, ev, p, w);
      }
    case Unreadable(token, flags) =>
      if SendRst in flags || ErrInAck(flags) {
        RefusalWell(c, ev, token, w);
      } else {
        NothingAdded(c, ev, c);
      }
  }

  lemma {:induction false} HandleWell(c: Client, ev: Event, w: World)
    requires Sound(c) && OnWire(c) && Parsable(ev) && !LateError(c, ev)
    ensures HandledWell(c, ev, Handle(c, ev, w))
  {
    match ev
    case Submit(item) => SubmitWell(c, item, w);
    case Turn(ready, now) =>
      if c.open && ready.Some? {
        ReadingWell(c, ready.value, now, w);
      } else {
        assert Poll(c, ready, now, w) == Poll(c, None, now, w);
        QuietWell(c, now, w);
      }
  }
}
