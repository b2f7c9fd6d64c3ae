/** What every event keeps true of a client: exactly one timer while records are queued, a log that
    a receiver can follow, and progress towards an empty queue. */
module CoapClientProofs {
  import opened CoapPdu
  import opened Options
  import opened CoapClient

  // ---------------------------------------------------------------------------------------
  // Timers.

  lemma {:induction false} StartSound(c: Client, mode: Mode, w: World, k: nat)
    requires !c.failed && c.mid < MESSAGE_IDS && c.queue != []
    ensures Sound(Start(c, mode, w, k))
    decreases |c.queue|, if mode == Next then 0 else 2, 0
  {
    var idle := Cleared(c, mode, w(k));
    if idle.queue != [] {
      BeginSound(idle, w, k);
    }
  }

  lemma {:induction false} BeginSound(c: Client, w: World, k: nat)
    requires !c.failed && c.queue != [] && c.reconnectAt.None? && c.lingerUntil.None?
    ensures Sound(Begin(c, w, k))
    decreases |c.queue|, 1, 3
  {
    if w(k).address.None? {
      RetrySound(c, false, w, k + 1);
    } else {
      var ready := Ready(c, w(k));
      if ready.open {
        SendFirstSound(ready, w, k);
      } else if !w(k).connectOk {
        RetrySound(Addressed(ready, w(k)), false, w, k + 1);
      } else {
        SendFirstSound(Connected(Addressed(ready, w(k))), w, k);
      }
    }
  }

  lemma {:induction false} SendFirstSound(c: Client, w: World, k: nat)
    requires c.queue != [] && c.open && !c.failed
    requires c.reconnectAt.None? && c.lingerUntil.None?
    ensures Sound(SendFirst(c, w, k))
    decreases |c.queue|, 1, 2
  {
    if w(k).uriQuery.None? {
      RetrySound(First(c, w(k)), false, w, k + 1);
    } else {
      SendOrRetrySound(First(c, w(k)).(uriQuery := w(k).uriQuery.value), w, k);
    }
  }

  lemma {:induction false} SendOrRetrySound(c: Client, w: World, k: nat)
    requires Writable(c) && c.open && !c.failed && c.mid < MESSAGE_IDS
    requires c.bytesSent < |c.queue[0].record| || c.bytesSent == 0
    requires c.blockSize > 0 && c.reconnectAt.None? && c.lingerUntil.None?
    ensures Sound(SendOrRetry(c, w, k))
    decreases |c.queue|, 1, 1
  {
    if !w(k).sendOk {
      RetrySound(SendBlock(c, w(k)), false, w, k + 1);
    }
  }

  lemma {:induction false} RetrySound(c: Client, zeroDelay: bool, w: World, k: nat)
    requires !c.failed
    requires c.queue == [] ==> c.reconnects == 0
    ensures Sound(RetryLater(c, zeroDelay, w, k))
    decreases |c.queue|, 1, 0
  {
    var s := Stopped(c).(reconnects := c.reconnects + 1);
    if s.reconnects >= MAX_RECONNECTS {
      StartSound(s, Next, w, k);
    }
  }

  /** The one PDU that makes the client fail: an error response for the record it sent last,
      arriving after the queue has become empty. */
  predicate LateError(c: Client, ev: Event) {
    && c.queue == [] && c.open
    && ev.Turn? && ev.ready.Some? && ev.ready.value.Received?
    && var p := ev.ready.value.pdu;
       p.pduType == Acknowledgement && p.token == c.token && p.mid == c.mid && p.pduClass != SUCCESS
  }

  /** Parsed block options never announce an empty block. */
  predicate Parsable(ev: Event) {
    ev.Turn? && ev.ready.Some? && ev.ready.value.Received? ==>
      var b := ev.ready.value.pdu.block1; b.Some? ==> b.value.size > 0
  }

  /** Between events a client with queued records waits for exactly one thing, an acknowledgement
      over its socket or the time to reconnect, and a client without records waits for neither.
      This survives every event except one, which terminates the agent. */
  lemma {:induction false} HandleKeepsSound(c: Client, ev: Event, w: World)
    requires Sound(c) && Parsable(ev)
    ensures Handle(c, ev, w).failed <==> LateError(c, ev)
    ensures !LateError(c, ev) ==> Sound(Handle(c, ev, w))
  {
    match ev
    case Submit(item) =>
      if !Queued(c, item.record) {
        var grown := c.(queue := Unexpired(c.queue, w(0).now) + [item]);
        if c.queue == [] {
          StartSound(grown, Current, w, 1);
        }
      }
    case Turn(ready, now) =>
      if c.open && ready.Some? {
        ReadingKeepsSound(c, ready.value, w);
      } else if AckOverdue(c, now) {
        NoAckKeepsSound(c, w);
      } else if ReconnectDue(c, now) {
        StartSound(c, Again, w, 0);
      }
  }

  lemma {:induction false} ReadingKeepsSound(c: Client, r: Reading, w: World)
    requires Sound(c) && c.open && Parsable(Turn(Some(r), 0))
    ensures OnReading(c, r, w).failed <==> LateError(c, Turn(Some(r), 0))
    ensures !LateError(c, Turn(Some(r), 0)) ==> Sound(OnReading(c, r, w))
  {
    match r
    case ConnectionLost =>
      if c.queue != [] {
        RetrySound(c, false, w, 0);
      }
    case NothingToRead =>
    case Received(p) =>
      match JudgeAck(c, p) {
        case Ignore =>
        case Restart => RetrySound(c, false, w, 1);
        case RefuseAndRestart => RetrySound(AfterRst(c, p.token, w(0)), false, w, 1);
        case Finish =>
          if c.queue != [] {
            StartSound(c, Next, w, 1);
          }
        case Advance =>
          SendOrRetrySound(Advanced(c, p, w(0)), w, 0);
      }
    case Unreadable(token, flags) =>
      if SendRst in flags || ErrInAck(flags) {
        RetrySound(AfterRst(c, token, w(0)), false, w, 1);
      }
  }

  lemma {:induction false} NoAckKeepsSound(c: Client, w: World)
    requires Sound(c) && c.open && c.ackDeadline.Some?
    ensures Sound(OnNoAck(c, w))
  {
    if c.retransmissions + 1 >= MAX_RETRANSMIT {
      StartSound(Late(c), Next, w, 1);
    } else if c.encrypted {
      RetrySound(Late(c), true, w, 1);
    } else {
      SendOrRetrySound(Late(c).(ackTimeoutMs := 2 * c.ackTimeoutMs), w, 0);
    }
  }

  /** A response that reports an error is fatal the second time it arrives, when the record it
      refused was the last one queued. */
  lemma {:induction false} DuplicateErrorIsFatal(c: Client, p: Pdu, w: World, w': World)
    requires Sound(c) && c.open && |c.queue| == 1
    requires p.pduType == Acknowledgement && p.token == c.token && p.mid == c.mid && p.pduClass != SUCCESS
    ensures var c' := OnPdu(c, p, w);
            Sound(c') && c'.queue == [] && OnPdu(c', p, w').failed
  {
    assert JudgeAck(c, p) == Finish;
    var c' := OnPdu(c, p, w);
    assert c' == Start(c, Next, w, 1);
    assert Unexpired(c.queue[1..], w(1).now) == [];
  }

  // ---------------------------------------------------------------------------------------
  // Progress.

  function ReconnectsLeft(c: Client): nat {
    if c.reconnects >= MAX_RECONNECTS then 0 else MAX_RECONNECTS - c.reconnects
  }

  function RetransmissionsLeft(c: Client): nat {
    if c.retransmissions >= MAX_RETRANSMIT then 0 else MAX_RETRANSMIT - c.retransmissions
  }

  function BytesLeft(c: Client): nat {
    if Writable(c) then Remaining(c) else 0
  }

  /** Lexicographic descent: records queued, reconnections left, waiting to reconnect, bytes left,
      retransmissions left. */
  predicate Below(c': Client, c: Client) {
    || |c'.queue| < |c.queue|
    || (|c'.queue| == |c.queue| &&
        (|| ReconnectsLeft(c') < ReconnectsLeft(c)
         || (ReconnectsLeft(c') == ReconnectsLeft(c) &&
             (|| (c'.open && !c.open)
              || (c'.open == c.open &&
                  (|| BytesLeft(c') < BytesLeft(c)
                   || (BytesLeft(c') == BytesLeft(c) && RetransmissionsLeft(c') < RetransmissionsLeft(c))))))))
  }

  /** One more reconnection attempt has been used up for the same record, or the record is gone. */
  predicate Spent(c': Client, c: Client) {
    || |c'.queue| < |c.queue|
    || (|c'.queue| == |c.queue| && c'.reconnects == c.reconnects + 1 && c'.reconnects < MAX_RECONNECTS)
  }

  predicate Underway(c': Client, c: Client) {
    Spent(c', c) || (|c'.queue| == |c.queue| && c'.open && c'.reconnects == c.reconnects)
  }

  lemma {:induction false} StartShrinks(c: Client, mode: Mode, w: World, k: nat)
    requires c.queue != []
    ensures mode == Next ==> |Start(c, mode, w, k).queue| < |c.queue|
    ensures mode == Again ==> Underway(Start(c, mode, w, k), c)
    decreases |c.queue|, if mode == Next then 0 else 2, 0
  {
    var idle := Cleared(c, mode, w(k));
    if idle.queue != [] {
      BeginShrinks(idle, w, k);
    }
  }

  lemma {:induction false} BeginShrinks(c: Client, w: World, k: nat)
    requires c.queue != []
    ensures Underway(Begin(c, w, k), c)
    decreases |c.queue|, 1, 3
  {
    if w(k).address.None? {
      RetryShrinks(c, false, w, k + 1);
    } else {
      var ready := Ready(c, w(k));
      if ready.open {
        SendFirstShrinks(ready, w, k);
      } else if !w(k).connectOk {
        RetryShrinks(Addressed(ready, w(k)), false, w, k + 1);
      } else {
        SendFirstShrinks(Connected(Addressed(ready, w(k))), w, k);
      }
    }
  }

  lemma {:induction false} SendFirstShrinks(c: Client, w: World, k: nat)
    requires c.queue != [] && c.open
    ensures Underway(SendFirst(c, w, k), c)
    decreases |c.queue|, 1, 2
  {
    if w(k).uriQuery.None? {
      RetryShrinks(First(c, w(k)), false, w, k + 1);
    } else {
      SendOrRetryShrinks(First(c, w(k)).(uriQuery := w(k).uriQuery.value), w, k);
    }
  }

  lemma {:induction false} SendOrRetryShrinks(c: Client, w: World, k: nat)
    requires Writable(c)
    ensures var c' := SendOrRetry(c, w, k);
            c' == SendBlock(c, w(k)) || Spent(c', c)
    decreases |c.queue|, 1, 1
  {
    if !w(k).sendOk {
      RetryShrinks(SendBlock(c, w(k)), false, w, k + 1);
    }
  }

  lemma {:induction false} RetryShrinks(c: Client, zeroDelay: bool, w: World, k: nat)
    requires c.queue != []
    ensures Spent(RetryLater(c, zeroDelay, w, k), c)
    decreases |c.queue|, 1, 0
  {
    var s := Stopped(c).(reconnects := c.reconnects + 1);
    if s.reconnects >= MAX_RECONNECTS {
      StartShrinks(s, Next, w, k);
    }
  }

  /** While records are queued, a turn of the polling loop either changes nothing at all or brings
      the client strictly closer to an empty queue. */
  lemma {:induction false} TurnDescends(c: Client, ready: Option<Reading>, now: int, w: World)
    requires Sound(c) && c.queue != [] && Parsable(Turn(ready, now))
    ensures var c' := Poll(c, ready, now, w); c' == c || Below(c', c)
  {
    if c.open && ready.Some? {
      match ready.value
      case ConnectionLost => RetryShrinks(c, false, w, 0);
      case NothingToRead =>
      case Received(p) =>
        match JudgeAck(c, p) {
          case Ignore =>
          case Restart => RetryShrinks(c, false, w, 1);
          case RefuseAndRestart => RetryShrinks(AfterRst(c, p.token, w(0)), false, w, 1);
          case Finish => StartShrinks(c, Next, w, 1);
          case Advance => SendOrRetryShrinks(Advanced(c, p, w(0)), w, 0);
        }
      case Unreadable(token, flags) =>
        if SendRst in flags || ErrInAck(flags) {
          RetryShrinks(AfterRst(c, token, w(0)), false, w, 1);
        }
    } else if AckOverdue(c, now) {
      NoAckDescends(c, w);
    } else if ReconnectDue(c, now) {
      StartShrinks(c, Again, w, 0);
    }
  }

  lemma {:induction false} NoAckDescends(c: Client, w: World)
    requires Sound(c) && c.queue != [] && c.open
    ensures Below(OnNoAck(c, w), c)
  {
    if c.retransmissions + 1 >= MAX_RETRANSMIT {
      StartShrinks(Late(c), Next, w, 1);
    } else if c.encrypted {
      RetryShrinks(Late(c), true, w, 1);
    } else {
      SendOrRetryShrinks(Late(c).(ackTimeoutMs := 2 * c.ackTimeoutMs), w, 0);
    }
  }

  /** A client with records has exactly one deadline. A turn with nothing to read changes nothing before it, and
      brings the client strictly closer to an empty queue from then on. */
  lemma {:induction false} NeverStuck(c: Client, now: int, w: World)
    requires Sound(c) && c.queue != []
    ensures if c.open then c.ackDeadline.Some? && c.reconnectAt.None? && c.lingerUntil.None?
            else c.reconnectAt.Some? && c.ackDeadline.None? && c.lingerUntil.None?
    ensures var c' := Poll(c, None, now, w);
            if now < (if c.open then c.ackDeadline.value else c.reconnectAt.value) then c' == c else Below(c', c)
  {
    if c.open {
      assert Sending(c);
      NoAckDescends(c, w);
    } else {
      assert Waiting(c);
      StartShrinks(c, Again, w, 0);
    }
  }

  /** What happens in one turn, as a function of the state it finds. */
  datatype Happening = Happening(ready: Option<Reading>, now: int, w: World)

  /** Surroundings under which every turn has an effect: something that matters has arrived, or the
      deadline has passed. By `NeverStuck` letting enough time pass is always one such choice. */
  ghost predicate Effective(env: Client -> Happening) {
    forall c :: Sound(c) && c.queue != [] ==>
      var h := env(c);
      Parsable(Turn(h.ready, h.now)) && Poll(c, h.ready, h.now, h.w) != c
  }

  /** Whatever the network and the peer do, the queue is empty after finitely many effective turns. */
  ghost function Drained(c: Client, env: Client -> Happening): (c': Client)
    requires Sound(c) && Effective(env)
    ensures c'.queue == [] && Sound(c')
    decreases |c.queue|, ReconnectsLeft(c), !c.open, BytesLeft(c), RetransmissionsLeft(c)
  {
    if c.queue == [] then c
    else
      var h := env(c);
      HandleKeepsSound(c, Turn(h.ready, h.now), h.w);
      TurnDescends(c, h.ready, h.now, h.w);
      Drained(Poll(c, h.ready, h.now, h.w), env)
  }

  /** Waiting long enough is effective, so a client cut off from its peer still empties its queue. */
  lemma {:induction false} SilenceIsEffective(w: World)
    ensures Effective((c: Client) =>
              Happening(None, if c.open then (if c.ackDeadline.Some? then c.ackDeadline.value else 0)
                              else if c.reconnectAt.Some? then c.reconnectAt.value else 0, w))
  {
    var env := (c: Client) =>
      Happening(None, if c.open then (if c.ackDeadline.Some? then c.ackDeadline.value else 0)
                      else if c.reconnectAt.Some? then c.reconnectAt.value else 0, w);
    forall c | Sound(c) && c.queue != []
      ensures var h := env(c); Poll(c, h.ready, h.now, h.w) != c
    {
      var h := env(c);
      NeverStuck(c, h.now, w);
    }
  }

  // ---------------------------------------------------------------------------------------
  // Block sizes: the writer terminates the agent on a size that has no encoding.

  predicate SizeOk(c: Client) {
    c.open && c.queue != [] ==> IsBlockSize(c.blockSize)
  }

  lemma {:induction false} StartSize(c: Client, mode: Mode, w: World, k: nat)
    requires mode == Next ==> c.queue != []
    ensures SizeOk(Start(c, mode, w, k))
    decreases |c.queue|, if mode == Next then 0 else 2, 0
  {
    var idle := Cleared(c, mode, w(k));
    if idle.queue != [] {
      BeginSize(idle, w, k);
    }
  }

  lemma {:induction false} BeginSize(c: Client, w: World, k: nat)
    requires c.queue != []
    ensures SizeOk(Begin(c, w, k))
    decreases |c.queue|, 1, 3
  {
    if w(k).address.None? {
      RetrySize(c, false, w, k + 1);
    } else {
      var ready := Ready(c, w(k));
      if ready.open {
        SendFirstSize(ready, w, k);
      } else if !w(k).connectOk {
        RetrySize(Addressed(ready, w(k)), false, w, k + 1);
      } else {
        SendFirstSize(Connected(Addressed(ready, w(k))), w, k);
      }
    }
  }

  lemma {:induction false} SendFirstSize(c: Client, w: World, k: nat)
    requires c.queue != []
    ensures SizeOk(SendFirst(c, w, k))
    decreases |c.queue|, 1, 2
  {
    if w(k).uriQuery.None? {
      RetrySize(First(c, w(k)), false, w, k + 1);
    } else {
      SendSize(First(c, w(k)).(uriQuery := w(k).uriQuery.value), w, k);
    }
  }

  lemma {:induction false} SendSize(c: Client, w: World, k: nat)
    requires Writable(c) && IsBlockSize(c.blockSize)
    ensures SizeOk(SendOrRetry(c, w, k))
    decreases |c.queue|, 1, 1
  {
    if !w(k).sendOk {
      RetrySize(SendBlock(c, w(k)), false, w, k + 1);
    }
  }

  lemma {:induction false} RetrySize(c: Client, zeroDelay: bool, w: World, k: nat)
    requires c.queue != []
    ensures SizeOk(RetryLater(c, zeroDelay, w, k))
    decreases |c.queue|, 1, 0
  {
    var s := Stopped(c).(reconnects := c.reconnects + 1);
    if s.reconnects >= MAX_RECONNECTS {
      StartSize(s, Next, w, k);
    }
  }

  /** The size of the block being sent always has an encoding, whatever sizes the receiver asks for. */
  lemma {:induction false} HandleKeepsSize(c: Client, ev: Event, w: World)
    requires Sound(c) && SizeOk(c) && !LateError(c, ev)
    requires ev.Turn? && ev.ready.Some? && ev.ready.value.Received? ==>
               var b := ev.ready.value.pdu.block1; b.Some? ==> IsReceivedSize(b.value.size)
    ensures SizeOk(Handle(c, ev, w))
  {
    match ev
    case Submit(item) =>
      var grown := c.(queue := Unexpired(c.queue, w(0).now) + [item]);
      StartSize(grown, Current, w, 1);
    case Turn(ready, now) =>
      if c.open && ready.Some? {
        ReadingKeepsSize(c, ready.value, w);
      } else if AckOverdue(c, now) {
        NoAckKeepsSize(c, w);
      } else if ReconnectDue(c, now) {
        StartSize(c, Again, w, 0);
      }
  }

  lemma {:induction false} NoAckKeepsSize(c: Client, w: World)
    requires Sound(c) && SizeOk(c) && c.open && c.queue != []
    ensures SizeOk(OnNoAck(c, w))
  {
    if c.retransmissions + 1 >= MAX_RETRANSMIT {
      StartSize(Late(c), Next, w, 1);
    } else if c.encrypted {
      RetrySize(Late(c), true, w, 1);
    } else {
      SendSize(Late(c).(ackTimeoutMs := 2 * c.ackTimeoutMs), w, 0);
    }
  }

  lemma {:induction false} ReadingKeepsSize(c: Client, r: Reading, w: World)
    requires Sound(c) && SizeOk(c) && c.open && !LateError(c, Turn(Some(r), 0))
    requires r.Received? && r.pdu.block1.Some? ==> IsReceivedSize(r.pdu.block1.value.size)
    ensures SizeOk(OnReading(c, r, w))
  {
    if c.queue != [] {
      RetrySize(c, false, w, 0);
      match r
      case Received(p) =>
        RetrySize(c, false, w, 1);
        RetrySize(AfterRst(c, p.token, w(0)), false, w, 1);
        StartSize(c, Next, w, 1);
        if JudgeAck(c, p) == Advance {
          SendSize(Advanced(c, p, w(0)), w, 0);
        }
      case Unreadable(token, _) => RetrySize(AfterRst(c, token, w(0)), false, w, 1);
      case _ =>
    }
  }

  // ---------------------------------------------------------------------------------------
  // Giving up.

  /** A client that gives up a record sends the next one for the same peer over the same socket: the server
      sees a new token in the middle of a record. */
  lemma {:induction false} GivesUpOnSameSocket(c: Client, now: int, w: World)
    requires Sound(c) && c.open && c.wire != [] && |c.queue| > 1 && AckOverdue(c, now)
    requires c.retransmissions + 1 >= MAX_RETRANSMIT
    requires w(1).address.Some? && c.peer == w(1).address && c.peerPort == Some(c.queue[1].port)
    requires c.encrypted == c.queue[1].encrypted && !c.queue[1].resetSession
    requires w(1).uriQuery.Some? && w(1).sendOk && w(1).token != c.token
    ensures var c' := Handle(c, Turn(None, now), w);
            && c'.open && !c'.failed && c'.queue != [] && c'.queue[0] == c.queue[1] && c'.token == w(1).token
            && |c'.wire| == |c.wire|
            && Writable(c') && CurrentEntry(c').offset == 0
            && (|c.wire[|c.wire| - 1]| == 0 || c.wire[|c.wire| - 1][|c.wire[|c.wire| - 1]| - 1].pdu.token == c.token ==>
                  c'.wire[|c.wire| - 1] == c.wire[|c.wire| - 1] + [CurrentEntry(c')])
  {
    var late := Late(c);
    var idle := Cleared(late, Next, w(1));
    assert idle.queue != [] && idle.queue[0] == c.queue[1];
    var ready := Ready(idle, w(1));
    assert Start(late, Next, w, 1) == Begin(idle, w, 1);
    assert Begin(idle, w, 1) == SendFirst(ready, w, 1);
    FirstGoesOut(ready, w, 1);
  }

  lemma {:induction false} FirstGoesOut(c: Client, w: World, k: nat)
    requires c.queue != [] && c.open && w(k).uriQuery.Some? && w(k).sendOk
    ensures var c' := SendFirst(c, w, k);
            && c'.open && c'.failed == c.failed && c'.queue == c.queue && c'.token == w(k).token
            && Writable(c') && CurrentEntry(c').offset == 0 && c'.wire == Logged(c.wire, CurrentEntry(c'))
  {
    var next := First(c, w(k)).(uriQuery := w(k).uriQuery.value);
    assert SendFirst(c, w, k) == SendOrRetry(next, w, k);
    assert SendOrRetry(next, w, k) == SendBlock(next, w(k));
    assert CurrentEntry(SendBlock(next, w(k))) == CurrentEntry(next);
  }
}
