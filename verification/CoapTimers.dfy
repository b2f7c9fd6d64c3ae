/** How long the client waits: for an acknowledgement, and before it connects again. */
module CoapTimers {
  import opened CoapPdu
  import opened Options
  import opened CoapClient
  import opened CoapClientProofs

  function Doubled(ms: nat, times: nat): nat {
    if times == 0 then ms else 2 * Doubled(ms, times - 1)
  }

  lemma {:induction false} DoubledFirst(ms: nat, times: nat)
    ensures Doubled(2 * ms, times) == Doubled(ms, times + 1)
  {
    if times > 0 {
      DoubledFirst(ms, times - 1);
    }
  }

  // ---------------------------------------------------------------------------------------
  // Retransmission.

  /** A turn of the polling loop in which there is nothing to read. */
  function Quiet(w: World): Event {
    Turn(None, w(0).now)
  }

  /** The deadline for an acknowledgement passes several times, each time a copy of the block can be sent. */
  predicate Unanswered(c: Client, ws: seq<World>)
    decreases |ws|
  {
    ws == [] ||
    (Sound(c) && AckOverdue(c, ws[0](0).now) && ws[0](0).sendOk && Unanswered(Handle(c, Quiet(ws[0]), ws[0]), ws[1..]))
  }

  function AfterSilence(c: Client, ws: seq<World>): Client
    requires Unanswered(c, ws)
    decreases |ws|
  {
    if ws == [] then c else AfterSilence(Handle(c, Quiet(ws[0]), ws[0]), ws[1..])
  }

  /** The same block of the same record over the same socket. */
  predicate StillSends(c: Client, d: Client) {
    && d.open && d.queue == c.queue && d.token == c.token && d.mid == c.mid && d.curBlock == c.curBlock
    && d.bytesSent == c.bytesSent && d.blockSize == c.blockSize && d.encrypted == c.encrypted && |d.wire| == |c.wire|
  }

  /** `d` is `c` after `n` more copies of its block. */
  predicate Backed(c: Client, d: Client, n: nat) {
    StillSends(c, d) && d.retransmissions == c.retransmissions + n && d.ackTimeoutMs == Doubled(c.ackTimeoutMs, n)
  }

  lemma {:induction false} BackedFurther(c: Client, next: Client, d: Client, n: nat)
    requires n > 0 && Backed(c, next, 1) && Backed(next, d, n - 1)
    ensures Backed(c, d, n)
  {
    assert next.ackTimeoutMs == 2 * Doubled(c.ackTimeoutMs, 0);
    DoubledFirst(c.ackTimeoutMs, n - 1);
  }

  lemma {:induction false} OneMoreTry(c: Client, w: World)
    requires Sound(c) && c.queue != [] && AckOverdue(c, w(0).now) && w(0).sendOk && !c.encrypted
    requires c.retransmissions + 1 < MAX_RETRANSMIT
    ensures var d := Handle(c, Quiet(w), w);
            Backed(c, d, 1) && d.ackDeadline == Some(w(0).now + d.ackTimeoutMs / 1000)
  {
    var late := Late(c).(ackTimeoutMs := 2 * c.ackTimeoutMs);
    assert Handle(c, Quiet(w), w) == OnNoAck(c, w) == SendOrRetry(late, w, 0) == SendBlock(late, w(0));
    assert Doubled(c.ackTimeoutMs, 1) == 2 * Doubled(c.ackTimeoutMs, 0);
  }

  /** Each time a block is not acknowledged in time it is sent again over the same socket, and the wait doubles, until
      as many copies have been sent as allowed. */
  lemma {:induction false} BacksOff(c: Client, ws: seq<World>)
    requires c.open && c.queue != [] && !c.encrypted && Unanswered(c, ws) && c.retransmissions + |ws| < MAX_RETRANSMIT
    ensures var d := AfterSilence(c, ws);
            Backed(c, d, |ws|) && (ws != [] ==> d.ackDeadline == Some(ws[|ws| - 1](0).now + d.ackTimeoutMs / 1000))
    decreases |ws|
  {
    if ws != [] {
      var next := Handle(c, Quiet(ws[0]), ws[0]);
      OneMoreTry(c, ws[0]);
      BacksOff(next, ws[1..]);
      BackedFurther(c, next, AfterSilence(next, ws[1..]), |ws|);
    }
  }

  // ---------------------------------------------------------------------------------------
  // Reconnection.

  /** The time for the next attempt comes several times, each time the host is not found. */
  predicate NotFound(c: Client, ws: seq<World>)
    decreases |ws|
  {
    ws == [] ||
    (Sound(c) && ReconnectDue(c, ws[0](0).now) && ws[0](0).address.None? && NotFound(Handle(c, Quiet(ws[0]), ws[0]), ws[1..]))
  }

  function AfterAttempts(c: Client, ws: seq<World>): Client
    requires NotFound(c, ws)
    decreases |ws|
  {
    if ws == [] then c else AfterAttempts(Handle(c, Quiet(ws[0]), ws[0]), ws[1..])
  }

  /** What a failed attempt leaves: the client waits, twice as long as the last time, and has one attempt less. */
  lemma {:induction false} RetryWaits(c: Client, zeroDelay: bool, w: World, k: nat)
    requires c.queue != [] && c.reconnects + 1 < MAX_RECONNECTS
    ensures var d := RetryLater(c, zeroDelay, w, k);
            && !d.open && d.queue == c.queue && d.reconnects == c.reconnects + 1 && d.reconnectMs == 2 * c.reconnectMs
            && d.reconnectAt == Some(w(k).now + (if zeroDelay && c.reconnects == 1 then 0 else c.reconnectMs / 1000))
            && d.ackDeadline.None? && d.lingerUntil.None? && d.wire == c.wire
  {
  }

  lemma {:induction false} OneMoreAttempt(c: Client, w: World)
    requires Sound(c) && ReconnectDue(c, w(0).now) && w(0).address.None? && c.queue != []
    requires c.reconnects + 1 < MAX_RECONNECTS
    ensures var d := Handle(c, Quiet(w), w);
            && !d.open && Sound(d) && d.queue != [] && d.queue[0] == c.queue[0] && d.reconnects == c.reconnects + 1
            && d.reconnectMs == 2 * c.reconnectMs && d.reconnectAt == Some(w(1).now + c.reconnectMs / 1000)
  {
    var idle := Cleared(c, Again, w(0));
    assert Handle(c, Quiet(w), w) == Start(c, Again, w, 0) == Begin(idle, w, 0) == RetryLater(idle, false, w, 1);
    RetryWaits(idle, false, w, 1);
  }

  /** Each time the host cannot be found the client waits twice as long before it tries again, until it has tried as
      often as allowed. */
  lemma {:induction false} WaitsLonger(c: Client, ws: seq<World>)
    requires !c.open && c.queue != [] && NotFound(c, ws) && c.reconnects + |ws| < MAX_RECONNECTS
    ensures var d := AfterAttempts(c, ws);
            && !d.open && d.queue != [] && d.queue[0] == c.queue[0] && d.reconnects == c.reconnects + |ws|
            && d.reconnectMs == Doubled(c.reconnectMs, |ws|)
            && (ws != [] ==> d.reconnectAt == Some(ws[|ws| - 1](1).now + Doubled(c.reconnectMs, |ws| - 1) / 1000))
    decreases |ws|
  {
    if ws != [] {
      OneMoreAttempt(c, ws[0]);
      WaitsLonger(Handle(c, Quiet(ws[0]), ws[0]), ws[1..]);
      DoubledFirst(c.reconnectMs, |ws| - 1);
      if |ws| > 1 {
        DoubledFirst(c.reconnectMs, |ws| - 2);
        assert ws[1..][|ws| - 2] == ws[|ws| - 1];
      }
    }
  }

  /** An encrypted session is not trusted to have survived the silence: the client connects anew, at once if nothing has
      failed before. */
  lemma {:induction false} ReconnectsInstead(c: Client, w: World)
    requires Sound(c) && c.queue != [] && AckOverdue(c, w(0).now) && c.encrypted
    requires c.retransmissions + 1 < MAX_RETRANSMIT && c.reconnects + 2 < MAX_RECONNECTS
    ensures var d := Handle(c, Quiet(w), w);
            && !d.open && d.queue == c.queue && d.wire == c.wire && d.reconnects == c.reconnects + 2
            && d.reconnectAt == Some(w(1).now + (if c.reconnects == 0 then 0 else c.reconnectMs / 1000))
  {
    assert Handle(c, Quiet(w), w) == OnNoAck(c, w) == RetryLater(Late(c), true, w, 1);
    RetryWaits(Late(c), true, w, 1);
  }

  /** When the last record has left the queue the socket stays open for five minutes, and is closed by the first turn
      after that in which there is nothing to read. */
  lemma {:induction false} Lingers(c: Client, w: World, k: nat, later: World)
    requires Sound(c) && c.open && |c.queue| == 1
    ensures var idle := Start(c, Next, w, k);
            && Sound(idle) && idle.open && idle.queue == [] && idle.lingerUntil == Some(w(k).now + 300) && idle.wire == c.wire
            && var d := Handle(idle, Quiet(later), later);
               if later(0).now >= w(k).now + 300 then !d.open && d.wire == c.wire && d.reconnectAt.None? else d == idle
  {
    assert Unexpired([], w(k).now) == [];
  }

  // ---------------------------------------------------------------------------------------
  // Starting over.

  /** Not about the block that was sent: a RST, or what is no acknowledgement of this attempt. */
  predicate Foreign(c: Client, p: Pdu) {
    p.pduType != Acknowledgement || p.token != c.token
  }

  /** The reading says that the server and the client do not understand each other. */
  predicate Disrupts(c: Client, r: Reading) {
    match r
    case ConnectionLost => true
    case NothingToRead => false
    case Received(p) => Foreign(c, p)
    case Unreadable(_, flags) => SendRst in flags || ErrInAck(flags)
  }

  /** The RST that answers a reading: none for a lost connection, nor for a RST. */
  function AnswerToDisruption(c: Client, r: Reading): Option<Entry> {
    var mid := NextMessageId(c.mid);
    match r
    case Received(p) => if p.pduType == Reset then None else Some(Rst(Bare(Reset, REQUEST, 0, mid, p.token)))
    case Unreadable(token, _) => Some(Rst(Bare(Reset, REQUEST, 0, mid, token)))
    case _ => None
  }

  /** Then the client gives up the connection and sends the record again from its beginning over another one. */
  lemma {:induction false} StartsOver(c: Client, r: Reading, now: int, w: World)
    requires Sound(c) && c.open && c.queue != [] && c.reconnects + 1 < MAX_RECONNECTS && Disrupts(c, r)
    ensures var d := Handle(c, Turn(Some(r), now), w);
            && !d.open && d.queue == c.queue && d.reconnects == c.reconnects + 1 && d.ackDeadline.None?
            && d.reconnectAt == Some(w(if r.ConnectionLost? then 0 else 1).now + c.reconnectMs / 1000)
            && var rst := AnswerToDisruption(c, r);
               d.wire == if rst.Some? && w(0).sendOk then Logged(c.wire, rst.value) else c.wire
  {
    match r
    case ConnectionLost => RetryWaits(c, false, w, 0);
    case Received(p) =>
      if p.pduType == Reset {
        RetryWaits(c, false, w, 1);
      } else {
        RetryWaits(AfterRst(c, p.token, w(0)), false, w, 1);
      }
    case Unreadable(token, _) => RetryWaits(AfterRst(c, token, w(0)), false, w, 1);
    case _ =>
  }

  /** A record that is begun after another one has left the queue starts with no failed attempt against it. */
  lemma {:induction false} FreshStart(c: Client, w: World, k: nat)
    requires |c.queue| > 1 && w(k).address.None?
    ensures var d := Start(c, Next, w, k);
            && d.queue != [] && d.queue[0] == c.queue[1] && d.reconnects == 1
            && d.reconnectAt == Some(w(k + 1).now + w(k).timeoutMs / 1000)
  {
    var idle := Cleared(c, Next, w(k));
    assert c.queue[1..][..1] == [c.queue[1]];
    assert Start(c, Next, w, k) == Begin(idle, w, k) == RetryLater(idle, false, w, k + 1);
    RetryWaits(idle, false, w, k + 1);
  }
}
