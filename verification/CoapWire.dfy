/** The log a client leaves on each of its sockets: which records the blocks were cut from, how message
    ids and block numbers run, and that tokens tell the attempts apart. */
module CoapWire {
  import opened CoapPdu
  import opened Options
  import opened CoapClient
  import opened CoapClientProofs

  type Log = seq<Entry>

  function Num(e: Entry): nat
    requires e.Block? && e.pdu.block1.Some?
  {
    e.pdu.block1.value.num
  }

  function Size(e: Entry): nat
    requires e.Block? && e.pdu.block1.Some?
  {
    e.pdu.block1.value.size
  }

  /** A block entry carries the bytes of its record from its offset on, as many as its size allows,
      and says whether any are left. */
  predicate WellCut(e: Entry) {
    && e.Block? && e.pdu.block1.Some?
    && e.pdu.pduType == Confirmable && e.pdu.pduClass == REQUEST && e.pdu.code == POST
    && |e.pdu.token| == 4 && e.pdu.uriQuery.Some?
    && e.pdu.contentFormat == Some(OCTET_STREAM) && e.pdu.totalSize == Some(|e.record| % 0x1_0000)
    && Size(e) > 0 && e.offset <= |e.record|
    && e.pdu.payload == e.record[e.offset..][..Min(Size(e), |e.record| - e.offset)]
    && (e.pdu.block1.value.more <==> e.offset + Size(e) < |e.record|)
  }

  /** `b` is the block after `a` in the same attempt to send a record. */
  predicate Continues(a: Entry, b: Entry)
    requires WellCut(a) && WellCut(b)
  {
    && b.pdu.token == a.pdu.token && b.record == a.record && b.pdu.uriPath == a.pdu.uriPath
    && a.pdu.block1.value.more && Num(b) == Num(a) + 1
    && b.offset == a.offset + Size(a) && Size(b) <= Size(a)
  }

  predicate SameAttempt(log: Log, i: nat, j: nat)
    requires i < |log| && j < |log|
  {
    log[i].Block? && log[j].Block? && log[i].pdu.token == log[j].pdu.token
  }

  predicate Opening(e: Entry)
    requires WellCut(e)
  {
    Num(e) == 0 && e.offset == 0 && Size(e) == PAYLOAD_TX_SIZE
  }

  /** Entry i belongs to the same attempt as the entry before it. */
  predicate Linked(log: Log, i: nat)
    requires i < |log|
  {
    i > 0 && SameAttempt(log, i - 1, i)
  }

  /** `e` may stand after `prev`: only blocks are followed by anything, message ids count up, and a
      block either continues its predecessor or opens an attempt of its own. */
  predicate StepOk(prev: Option<Entry>, e: Entry) {
    && e.pdu.mid < MESSAGE_IDS
    && (prev.Some? ==> prev.value.Block? && e.pdu.mid == NextMessageId(prev.value.pdu.mid))
    && (e.Rst? ==> e.pdu.pduType == Reset)
    && (e.Block? ==>
          && WellCut(e)
          && if prev.Some? && prev.value.pdu.token == e.pdu.token
             then WellCut(prev.value) && Continues(prev.value, e)
             else Opening(e))
  }

  function Before(log: Log, i: nat): Option<Entry>
    requires i < |log|
  {
    if i == 0 then None else Some(log[i - 1])
  }

  /** Every entry follows from the one before, and an attempt is never resumed once left. */
  ghost predicate LogOk(log: Log) {
    && (forall i {:trigger Before(log, i)} :: 0 <= i < |log| ==> StepOk(Before(log, i), log[i]))
    && (forall i, j {:trigger SameAttempt(log, i, j)} :: 0 <= i < j < |log| && SameAttempt(log, i, j) ==>
          StepOk(Before(log, i), log[i]) && StepOk(Before(log, j), log[j]) &&
          Num(log[j]) == Num(log[i]) + (j - i) && Linked(log, j))
  }

  predicate Uses(wire: Wire, token: seq<byte>) {
    exists a, i :: 0 <= a < |wire| && 0 <= i < |wire[a]| && wire[a][i].Block? && wire[a][i].pdu.token == token
  }

  /** The two logs have no token in common. */
  ghost predicate Apart(log: Log, log': Log) {
    forall i, j :: 0 <= i < |log| && 0 <= j < |log'| && log[i].Block? && log'[j].Block? ==>
      log[i].pdu.token != log'[j].pdu.token
  }

  ghost predicate WireOk(wire: Wire) {
    && (forall a :: 0 <= a < |wire| ==> LogOk(wire[a]))
    && (forall a, b :: 0 <= a < b < |wire| ==> Apart(wire[a], wire[b]))
  }

  /** The random tokens drawn during an event have four bytes and none has been used before. */
  ghost predicate FreshTokens(w: World, wire: Wire) {
    forall k: nat :: |w(k).token| == 4 && !Uses(wire, w(k).token)
  }

  /** An open socket's log ends with the message id in use, and nothing follows a RST. */
  ghost predicate Live(c: Client) {
    c.open ==>
      && c.wire != []
      && var log := c.wire[|c.wire| - 1];
         log != [] ==> log[|log| - 1].Block? && log[|log| - 1].pdu.mid == c.mid
  }

  ghost predicate OnWire(c: Client) {
    && WireOk(c.wire) && Live(c) && c.mid < MESSAGE_IDS
    && (c.open && c.queue != [] ==>
          && Writable(c) && |c.token| == 4
          && var log := c.wire[|c.wire| - 1];
             log != [] && log[|log| - 1] == CurrentEntry(c))
  }

  function Length(wire: Wire, a: nat): nat {
    if a < |wire| then |wire[a]| else 0
  }

  /** Logs only grow, and a block that continues an attempt is added only when `advance` allows it,
      at the end of the latest log. */
  ghost predicate Extends(wire: Wire, wire': Wire, advance: bool) {
    && |wire| <= |wire'|
    && (forall a :: 0 <= a < |wire| ==> wire[a] <= wire'[a])
    && (forall a, i {:trigger Linked(wire'[a], i)} | 0 <= a < |wire'| && Length(wire, a) <= i < |wire'[a]| ::
          Linked(wire'[a], i) ==> advance && a == |wire| - 1 && i == |wire[a]|)
  }

  lemma {:induction false} ExtendsItself(wire: Wire, advance: bool)
    ensures Extends(wire, wire, advance)
  {
  }

  lemma {:induction false} ExtendsTransitive(w0: Wire, w1: Wire, w2: Wire)
    requires Extends(w0, w1, false) && Extends(w1, w2, false)
    ensures Extends(w0, w2, false)
  {
    forall a | 0 <= a < |w0| ensures w0[a] <= w2[a] {
      assert w1[a] <= w2[a];
    }
    forall a, i | 0 <= a < |w2| && Length(w0, a) <= i < |w2[a]| ensures !Linked(w2[a], i) {
      if i < Length(w1, a) {
        assert w1[a] <= w2[a];
        assert Linked(w2[a], i) == Linked(w1[a], i);
      }
    }
  }

  /** `e` may follow what is in `log`: the next message id, and either the next block of the attempt
      or the first block under a token `wire` has not seen. */
  ghost predicate MayFollow(wire: Wire, log: Log, e: Entry, advance: bool) {
    && StepOk(if log == [] then None else Some(log[|log| - 1]), e)
    && (e.Block? ==> !Uses(wire, e.pdu.token) ||
                     (advance && log != [] && log[|log| - 1].pdu.token == e.pdu.token))
  }

  /** A pair of entries of one attempt in the grown log, the later one being new. */
  lemma {:induction false} NewPair(wire: Wire, log: Log, e: Entry, advance: bool, i: nat)
    requires wire != [] && log == wire[|wire| - 1] && LogOk(log) && MayFollow(wire, log, e, advance)
    requires i < |log| && SameAttempt(log + [e], i, |log|)
    ensures StepOk(Before(log, i), log[i]) && Linked(log + [e], |log|)
    ensures WellCut(e) && Num(e) == Num(log[i]) + (|log| - i)
  {
    var n := |log|;
    assert StepOk(Before(log, i), log[i]);
    assert Uses(wire, e.pdu.token) by {
      assert wire[|wire| - 1][i].Block?;
    }
    assert i == n - 1 || SameAttempt(log, i, n - 1);
  }

  lemma {:induction false} LogGrows(wire: Wire, log: Log, e: Entry, advance: bool)
    requires wire != [] && log == wire[|wire| - 1] && LogOk(log) && MayFollow(wire, log, e, advance)
    ensures LogOk(log + [e])
    ensures Linked(log + [e], |log|) ==> advance
  {
    var log': Log := log + [e];
    var n := |log|;
    forall i {:trigger Before(log', i)} | 0 <= i < n + 1 ensures StepOk(Before(log', i), log'[i]) {
      if i < n {
        assert Before(log', i) == Before(log, i);
      }
    }
    forall i, j | 0 <= i < j < n + 1 && SameAttempt(log', i, j)
      ensures StepOk(Before(log', i), log'[i]) && StepOk(Before(log', j), log'[j]) &&
              Num(log'[j]) == Num(log'[i]) + (j - i) && Linked(log', j)
    {
      if j < n {
        assert SameAttempt(log, i, j);
      } else {
        NewPair(wire, log, e, advance, i);
      }
    }
    if Linked(log', n) {
      assert wire[|wire| - 1][n - 1].Block?;
    }
  }

  lemma {:induction false} StaysApart(wire: Wire, a: nat, e: Entry, advance: bool)
    requires WireOk(wire) && a < |wire| - 1 && MayFollow(wire, wire[|wire| - 1], e, advance)
    ensures Apart(wire[a], wire[|wire| - 1] + [e])
  {
    var log := wire[|wire| - 1];
    assert Apart(wire[a], log);
    forall i | 0 <= i < |wire[a]| && wire[a][i].Block? && e.Block? ensures wire[a][i].pdu.token != e.pdu.token {
      assert Uses(wire, wire[a][i].pdu.token);
    }
  }

  lemma {:induction false} WireGrows(wire: Wire, e: Entry, advance: bool)
    requires wire != [] && WireOk(wire) && MayFollow(wire, wire[|wire| - 1], e, advance)
    ensures var wire' := wire[..|wire| - 1] + [wire[|wire| - 1] + [e]];
            WireOk(wire') && Extends(wire, wire', advance)
  {
    var log := wire[|wire| - 1];
    var wire': Wire := wire[..|wire| - 1] + [log + [e]];
    LogGrows(wire, log, e, advance);
    forall a, b | 0 <= a < b < |wire'| ensures Apart(wire'[a], wire'[b]) {
      if b == |wire| - 1 {
        StaysApart(wire, a, e, advance);
      }
    }
  }

  // ---------------------------------------------------------------------------------------
  // Every event leaves such a log.

  lemma {:induction false} ConnectKeeps(c: Client, w: World)
    requires WireOk(c.wire) && FreshTokens(w, c.wire)
    ensures WireOk(Connected(c).wire) && Live(Connected(c)) && FreshTokens(w, Connected(c).wire)
    ensures Extends(c.wire, Connected(c).wire, false)
  {
    var wire := Connected(c).wire;
    forall a, b | 0 <= a < b < |wire| ensures Apart(wire[a], wire[b]) {
      if b < |c.wire| {
        assert Apart(c.wire[a], c.wire[b]);
      }
    }
    forall k: nat ensures !Uses(wire, w(k).token) {
      assert !Uses(c.wire, w(k).token);
    }
  }

  /** The first block under a fresh token may always be sent next. */
  lemma {:induction false} FirstMayFollow(c: Client, w: World, k: nat, c': Client)
    requires c.queue != [] && c.open && WireOk(c.wire) && Live(c) && FreshTokens(w, c.wire)
    requires w(k).uriQuery.Some? && c' == First(c, w(k)).(uriQuery := w(k).uriQuery.value)
    ensures MayFollow(c.wire, c.wire[|c.wire| - 1], CurrentEntry(c'), false)
  {
    var log := c.wire[|c.wire| - 1];
    var e := CurrentEntry(c');
    assert log != [] ==> Uses(c.wire, log[|log| - 1].pdu.token);
  }

  predicate EndsIn(wire: Wire, e: Entry) {
    wire != [] && wire[|wire| - 1] != [] && wire[|wire| - 1][|wire[|wire| - 1]| - 1] == e
  }

  lemma {:induction false} NewlyLogged(wire: Wire, e: Entry, advance: bool)
    requires wire != [] && WireOk(wire)
    requires MayFollow(wire, wire[|wire| - 1], e, advance)
    ensures WireOk(Logged(wire, e)) && Extends(wire, Logged(wire, e), advance) && EndsIn(Logged(wire, e), e)
  {
    if Logged(wire, e) == wire {
      ExtendsItself(wire, advance);
    } else {
      WireGrows(wire, e, advance);
    }
  }

  /** A block that may follow is sent. */
  lemma {:induction false} SendKeeps(c: Client, a: Answers, advance: bool)
    requires Writable(c) && c.open && c.mid < MESSAGE_IDS && |c.token| == 4 && WireOk(c.wire) && c.wire != []
    requires MayFollow(c.wire, c.wire[|c.wire| - 1], CurrentEntry(c), advance) && a.sendOk
    ensures OnWire(SendBlock(c, a)) && Extends(c.wire, SendBlock(c, a).wire, advance)
  {
    NewlyLogged(c.wire, CurrentEntry(c), advance);
    SentOnWire(c, SendBlock(c, a));
  }

  lemma {:induction false} LastShown(c: Client)
    requires OnWire(c) && c.open && c.queue != []
    ensures Writable(c) && |c.token| == 4 && WireOk(c.wire) && EndsIn(c.wire, CurrentEntry(c))
  {
  }

  /** The block sent last is sent again. */
  lemma {:induction false} ResendKeeps(c: Client, late: Client, a: Answers)
    requires OnWire(c) && c.open && c.queue != [] && a.sendOk
    requires late == c.(retransmissions := late.retransmissions, reconnects := late.reconnects, ackTimeoutMs := late.ackTimeoutMs)
    ensures Writable(late) && OnWire(SendBlock(late, a)) && SendBlock(late, a).wire == c.wire
  {
    LastShown(c);
    SameEntry(c, late);
    SentOnWire(late, SendBlock(late, a));
  }

  lemma {:induction false} SentOnWire(c: Client, c': Client)
    requires Writable(c) && c.open && c.mid < MESSAGE_IDS && |c.token| == 4
    requires c' == c.(ackDeadline := c'.ackDeadline, wire := c'.wire) && WireOk(c'.wire) && EndsIn(c'.wire, CurrentEntry(c))
    ensures OnWire(c')
  {
    SameEntry(c, c');
  }

  lemma {:induction false} RestsOnWire(c: Client)
    requires WireOk(c.wire) && Live(c) && c.mid < MESSAGE_IDS && c.queue == []
    ensures OnWire(c) && Extends(c.wire, c.wire, false)
  {
  }

  lemma {:induction false} StartOnWire(c: Client, mode: Mode, w: World, k: nat)
    requires WireOk(c.wire) && Live(c) && FreshTokens(w, c.wire) && c.mid < MESSAGE_IDS && c.queue != []
    ensures var c' := Start(c, mode, w, k); OnWire(c') && Extends(c.wire, c'.wire, false)
    decreases |c.queue|, if mode == Next then 0 else 2, 0
  {
    var idle := Cleared(c, mode, w(k));
    if idle.queue != [] {
      BeginOnWire(idle, w, k);
    } else {
      RestsOnWire(idle.(lingerUntil := Some(w(k).now + LINGER_PERIOD)));
    }
  }

  lemma {:induction false} BeginOnWire(c: Client, w: World, k: nat)
    requires WireOk(c.wire) && Live(c) && FreshTokens(w, c.wire) && c.queue != []
    ensures var c' := Begin(c, w, k); OnWire(c') && Extends(c.wire, c'.wire, false)
    decreases |c.queue|, 1, 4
  {
    if w(k).address.None? {
      RetryOnWire(c, false, w, k + 1);
    } else {
      var ready := Ready(c, w(k));
      if ready.open {
        SendFirstOnWire(ready, w, k);
      } else if !w(k).connectOk {
        RetryOnWire(Addressed(ready, w(k)), false, w, k + 1);
      } else {
        ConnectOnWire(Addressed(ready, w(k)), w, k);
      }
    }
  }

  lemma {:induction false} ConnectOnWire(c: Client, w: World, k: nat)
    requires WireOk(c.wire) && FreshTokens(w, c.wire) && c.queue != []
    ensures var c' := SendFirst(Connected(c), w, k); OnWire(c') && Extends(c.wire, c'.wire, false)
    decreases |c.queue|, 1, 3
  {
    ConnectKeeps(c, w);
    SendFirstOnWire(Connected(c), w, k);
    ExtendsTransitive(c.wire, Connected(c).wire, SendFirst(Connected(c), w, k).wire);
  }

  lemma {:induction false} SendFirstOnWire(c: Client, w: World, k: nat)
    requires WireOk(c.wire) && Live(c) && FreshTokens(w, c.wire) && c.queue != [] && c.open
    ensures var c' := SendFirst(c, w, k); OnWire(c') && Extends(c.wire, c'.wire, false)
    decreases |c.queue|, 1, 2
  {
    if w(k).uriQuery.None? {
      RetryOnWire(First(c, w(k)), false, w, k + 1);
    } else {
      var first := First(c, w(k)).(uriQuery := w(k).uriQuery.value);
      assert SendFirst(c, w, k) == SendOrRetry(first, w, k);
      if w(k).sendOk {
        assert SendOrRetry(first, w, k) == SendBlock(first, w(k));
        FirstMayFollow(c, w, k, first);
        SendKeeps(first, w(k), false);
      } else {
        assert SendBlock(first, w(k)).wire == c.wire;
        RetryOnWire(SendBlock(first, w(k)), false, w, k + 1);
      }
    }
  }

  lemma {:induction false} RetryOnWire(c: Client, zeroDelay: bool, w: World, k: nat)
    requires WireOk(c.wire) && FreshTokens(w, c.wire)
    requires c.queue == [] ==> c.reconnects == 0
    ensures var c' := RetryLater(c, zeroDelay, w, k); OnWire(c') && Extends(c.wire, c'.wire, false)
    decreases |c.queue|, 1, 0
  {
    var s := Stopped(c).(reconnects := c.reconnects + 1);
    if s.reconnects >= MAX_RECONNECTS {
      StartOnWire(s, Next, w, k);
    }
  }

  lemma {:induction false} RstKeeps(c: Client, token: seq<byte>, w: World)
    requires c.open && OnWire(c) && FreshTokens(w, c.wire)
    ensures var c' := AfterRst(c, token, w(0));
            WireOk(c'.wire) && FreshTokens(w, c'.wire) && Extends(c.wire, c'.wire, false)
  {
    var e := Rst(Bare(Reset, REQUEST, 0, NextMessageId(c.mid), token));
    var c' := AfterRst(c, token, w(0));
    if c'.wire != c.wire {
      WireGrows(c.wire, e, false);
      forall k: nat ensures !Uses(c'.wire, w(k).token) {
        assert !Uses(c.wire, w(k).token);
        forall a, i | 0 <= a < |c'.wire| && 0 <= i < |c'.wire[a]| && c'.wire[a][i].Block?
          ensures c'.wire[a][i].pdu.token != w(k).token
        {
          assert c'.wire[a][i] == c.wire[a][i];
        }
      }
    }
  }

  /** The event lets the client move on to its next block. */
  predicate Advances(c: Client, ev: Event) {
    && c.open && ev.Turn? && ev.ready.Some? && ev.ready.value.Received?
    && JudgeAck(c, ev.ready.value.pdu) == Advance
  }

  /** Once the current block has been acknowledged, the next one may follow it. */
  lemma {:induction false} NextMayFollow(c: Client, p: Pdu, a: Answers)
    requires Sound(c) && OnWire(c) && c.open
    requires JudgeAck(c, p) == Advance && p.block1.value.size > 0
    ensures var next := Advanced(c, p, a);
            && Writable(next) && c.wire != []
            && MayFollow(c.wire, c.wire[|c.wire| - 1], CurrentEntry(next), true)
  {
    var log := c.wire[|c.wire| - 1];
    var next := Advanced(c, p, a);
    BlockContinues(c, next, CurrentEntry(c), CurrentEntry(next));
    assert StepOk(Before(log, |log| - 1), log[|log| - 1]);
  }

  lemma {:induction false} BlockContinues(c: Client, next: Client, e: Entry, e': Entry)
    requires Writable(c) && Writable(next) && e == CurrentEntry(c) && e' == CurrentEntry(next)
    requires next.queue == c.queue && next.token == c.token && next.uriQuery == c.uriQuery && |c.token| == 4
    requires next.mid == NextMessageId(c.mid) && next.curBlock == c.curBlock + 1
    requires !OnLastBlock(c) && next.bytesSent == c.bytesSent + c.blockSize && 0 < next.blockSize <= c.blockSize
    ensures WellCut(e) && WellCut(e') && Continues(e, e') && e'.pdu.mid == NextMessageId(e.pdu.mid)
  {
  }

  lemma {:induction false} AdvanceOnWire(c: Client, p: Pdu, w: World)
    requires Sound(c) && OnWire(c) && FreshTokens(w, c.wire) && c.open
    requires JudgeAck(c, p) == Advance && p.block1.value.size > 0
    ensures var c' := SendOrRetry(Advanced(c, p, w(0)), w, 0); OnWire(c') && Extends(c.wire, c'.wire, true)
  {
    var next := Advanced(c, p, w(0));
    NextMayFollow(c, p, w(0));
    if w(0).sendOk {
      SendKeeps(next, w(0), true);
    } else {
      RetryOnWire(SendBlock(next, w(0)), false, w, 1);
    }
  }

  lemma {:induction false} RetransmitKeepsWire(c: Client, w: World)
    requires Sound(c) && OnWire(c) && FreshTokens(w, c.wire) && c.open && c.queue != []
    ensures var late := Late(c).(ackTimeoutMs := 2 * c.ackTimeoutMs);
            var c' := SendOrRetry(late, w, 0);
            OnWire(c') && Extends(c.wire, c'.wire, false)
  {
    var late := Late(c).(ackTimeoutMs := 2 * c.ackTimeoutMs);
    if w(0).sendOk {
      ResendKeeps(c, late, w(0));
      ExtendsItself(c.wire, false);
    } else {
      RetryOnWire(SendBlock(late, w(0)), false, w, 1);
    }
  }

  lemma {:induction false} NoAckKeepsWire(c: Client, w: World)
    requires Sound(c) && OnWire(c) && FreshTokens(w, c.wire) && c.open && c.queue != []
    ensures var c' := OnNoAck(c, w); OnWire(c') && Extends(c.wire, c'.wire, false)
  {
    if c.retransmissions + 1 >= MAX_RETRANSMIT {
      StartOnWire(Late(c), Next, w, 1);
    } else if c.encrypted {
      RetryOnWire(Late(c), true, w, 1);
    } else {
      RetransmitKeepsWire(c, w);
    }
  }

  lemma {:induction false} SubmitKeepsWire(c: Client, item: Item, w: World)
    requires Sound(c) && OnWire(c) && FreshTokens(w, c.wire)
    ensures var c' := Enqueue(c, item, w); OnWire(c') && Extends(c.wire, c'.wire, false)
  {
    ExtendsItself(c.wire, false);
    if !Queued(c, item.record) {
      var grown := c.(queue := Unexpired(c.queue, w(0).now) + [item]);
      if c.queue == [] {
        StartOnWire(grown, Current, w, 1);
      } else {
        GrownOnWire(c, grown);
      }
    }
  }

  /** Only the head of the queue is on the wire. */
  lemma {:induction false} GrownOnWire(c: Client, grown: Client)
    requires OnWire(c) && c.queue != [] && grown == c.(queue := grown.queue)
    requires grown.queue != [] && grown.queue[0] == c.queue[0]
    ensures OnWire(grown)
  {
    if c.open {
      SameEntry(c, grown);
    }
  }

  /** A turn in which there is nothing to read. */
  lemma {:induction false} QuietKeepsWire(c: Client, now: int, w: World)
    requires Sound(c) && OnWire(c) && FreshTokens(w, c.wire)
    ensures var c' := Poll(c, None, now, w); OnWire(c') && Extends(c.wire, c'.wire, false)
  {
    ExtendsItself(c.wire, false);
    if AckOverdue(c, now) {
      NoAckKeepsWire(c, w);
    } else if !LingerOver(c, now) && ReconnectDue(c, now) {
      StartOnWire(c, Again, w, 0);
    }
  }

  /** Whatever happens, the logs stay in order, the client's current block is the last one handed to
      its open socket, and only an accepted acknowledgement adds a further block to an attempt. */
  lemma {:induction false} HandleKeepsWire(c: Client, ev: Event, w: World)
    requires Sound(c) && OnWire(c) && Parsable(ev) && FreshTokens(w, c.wire) && !LateError(c, ev)
    ensures var c' := Handle(c, ev, w); OnWire(c') && Extends(c.wire, c'.wire, Advances(c, ev))
  {
    match ev
    case Submit(item) => SubmitKeepsWire(c, item, w);
    case Turn(ready, now) =>
      if c.open && ready.Some? {
        ReadingKeepsWire(c, ready.value, w);
      } else {
        assert Poll(c, ready, now, w) == Poll(c, None, now, w);
        QuietKeepsWire(c, now, w);
      }
  }

  lemma {:induction false} ReadingKeepsWire(c: Client, r: Reading, w: World)
    requires Sound(c) && OnWire(c) && FreshTokens(w, c.wire) && c.open
    requires Parsable(Turn(Some(r), 0)) && !LateError(c, Turn(Some(r), 0))
    ensures var c' := OnReading(c, r, w); OnWire(c') && Extends(c.wire, c'.wire, Advances(c, Turn(Some(r), 0)))
  {
    match r
    case ConnectionLost =>
      if c.queue != [] {
        RetryOnWire(c, false, w, 0);
      }
    case NothingToRead =>
    case Received(p) =>
      match JudgeAck(c, p) {
        case Ignore =>
        case Restart => RetryOnWire(c, false, w, 1);
        case RefuseAndRestart => RefusalKeepsWire(c, p.token, w);
        case Finish => StartOnWire(c, Next, w, 1);
        case Advance => AdvanceOnWire(c, p, w);
      }
    case Unreadable(token, flags) =>
      if SendRst in flags || ErrInAck(flags) {
        RefusalKeepsWire(c, token, w);
      }
  }

  lemma {:induction false} RefusalKeepsWire(c: Client, token: seq<byte>, w: World)
    requires Sound(c) && OnWire(c) && FreshTokens(w, c.wire) && c.open
    ensures var c' := RetryLater(AfterRst(c, token, w(0)), false, w, 1); OnWire(c') && Extends(c.wire, c'.wire, false)
  {
    RstKeeps(c, token, w);
    var rst := AfterRst(c, token, w(0));
    RetryOnWire(rst, false, w, 1);
    ExtendsTransitive(c.wire, rst.wire, RetryLater(rst, false, w, 1).wire);
  }

  // ---------------------------------------------------------------------------------------
  // Block numbers are counts.

  /** The bytes that section 2.2 of RFC 7959 takes the block to follow. */
  function Position(e: Entry): nat
    requires WellCut(e)
  {
    Num(e) * Size(e)
  }

  lemma {:induction false} Larger(n: nat, m: nat, s: nat, s': nat)
    requires s <= s' && n * s' <= m
    ensures (n + 1) * s <= m + s'
    ensures (n + 1) * s == m + s' <==> s == s' && m == n * s'
  {
    assert (n + 1) * s == n * s + s;
    MulGrows(n, s, s');
  }

  lemma {:induction false} MulGrows(n: nat, s: nat, s': nat)
    requires s <= s'
    ensures n * s <= n * s'
  {
    assert n * s' == n * s + n * (s' - s);
  }

  /** A block lies at the position its number and size announce exactly if it is the first of its record or the
      block size has not been reduced; otherwise it lies further on. */
  lemma {:induction false} NumbersAreCounts(log: Log, i: nat)
    requires LogOk(log) && i < |log| && log[i].Block?
    ensures WellCut(log[i])
    ensures Size(log[i]) <= PAYLOAD_TX_SIZE && Position(log[i]) <= log[i].offset
    ensures log[i].offset == Position(log[i]) <==> Num(log[i]) == 0 || Size(log[i]) == PAYLOAD_TX_SIZE
  {
    assert StepOk(Before(log, i), log[i]);
    if Num(log[i]) > 0 {
      var e, prev := log[i], log[i - 1];
      NumbersAreCounts(log, i - 1);
      assert StepOk(Before(log, i - 1), prev);
      Larger(Num(prev), prev.offset, Size(e), Size(prev));
    }
  }

  lemma {:induction false} BlockFields(c: Client)
    requires Writable(c)
    ensures var e := CurrentEntry(c);
            e.Block? && e.pdu.block1.Some? && e.offset == c.bytesSent && Num(e) == c.curBlock && Size(e) == c.blockSize
  {
  }

  lemma {:induction false} SentNext(c: Client, p: Pdu, w: World)
    requires Sound(c) && c.open && JudgeAck(c, p) == Advance && w(0).sendOk
    ensures var next, c' := Advanced(c, p, w(0)), OnPdu(c, p, w);
            && Writable(c') && c'.open
            && c'.bytesSent == next.bytesSent && c'.curBlock == next.curBlock && c'.blockSize == next.blockSize
  {
    assert OnPdu(c, p, w) == SendBlock(Advanced(c, p, w(0)), w(0));
  }

  lemma {:induction false} SmallerProduct(n: nat, s: nat)
    requires n > 0 && s < PAYLOAD_TX_SIZE
    ensures n * s != n * PAYLOAD_TX_SIZE
  {
    assert n * (PAYLOAD_TX_SIZE - s) == n * PAYLOAD_TX_SIZE - n * s;
    assert n * (PAYLOAD_TX_SIZE - s) >= 1 by {
      MulGrows(n, 1, PAYLOAD_TX_SIZE - s);
    }
  }

  /** The offset of `e` counts its number in blocks of the size sent first, and not in blocks of its own size. */
  predicate Misnumbered(e: Entry) {
    && e.Block? && e.pdu.block1.Some?
    && e.offset == Num(e) * PAYLOAD_TX_SIZE && e.offset != Num(e) * Size(e)
  }

  /** The block sent when the receiver first asks for less: its number still counts blocks of the old size. */
  lemma {:induction false} FirstSmallerBlock(c: Client, p: Pdu, w: World)
    requires Sound(c) && c.open && JudgeAck(c, p) == Advance && w(0).sendOk
    requires c.blockSize == PAYLOAD_TX_SIZE && c.bytesSent == c.curBlock * PAYLOAD_TX_SIZE
    requires 0 < p.block1.value.size < PAYLOAD_TX_SIZE
    ensures var c' := OnPdu(c, p, w); Writable(c') && c'.open && Misnumbered(CurrentEntry(c'))
  {
    SentNext(c, p, w);
    NextIsMisnumbered(c.curBlock, c.bytesSent, OnPdu(c, p, w));
  }

  lemma {:induction false} NextIsMisnumbered(n: nat, sent: nat, c': Client)
    requires Writable(c') && sent == n * PAYLOAD_TX_SIZE
    requires c'.curBlock == n + 1 && c'.bytesSent == sent + PAYLOAD_TX_SIZE && c'.blockSize < PAYLOAD_TX_SIZE
    ensures Misnumbered(CurrentEntry(c'))
  {
    BlockFields(c');
    SmallerProduct(n + 1, c'.blockSize);
  }

  // ---------------------------------------------------------------------------------------
  // Nothing is sent that was not submitted.

  ghost predicate From(c: Client, records: set<seq<byte>>) {
    && (forall i :: 0 <= i < |c.queue| ==> c.queue[i].record in records)
    && WireFrom(c.wire, records)
  }

  ghost predicate WireFrom(wire: Wire, records: set<seq<byte>>) {
    forall a, i :: 0 <= a < |wire| && 0 <= i < |wire[a]| && wire[a][i].Block? ==> wire[a][i].record in records
  }

  lemma {:induction false} FreshFrom(items: seq<Item>, now: int, records: set<seq<byte>>)
    requires forall i :: 0 <= i < |items| ==> items[i].record in records
    ensures forall i :: 0 <= i < |Fresh(items, now)| ==> Fresh(items, now)[i].record in records
  {
    if items != [] {
      FreshFrom(items[1..], now, records);
    }
  }

  lemma {:induction false} LoggedFrom(wire: Wire, e: Entry, records: set<seq<byte>>)
    requires WireFrom(wire, records) && (e.Block? ==> e.record in records)
    ensures WireFrom(Logged(wire, e), records)
  {
    var wire': Wire := Logged(wire, e);
    forall a, i | 0 <= a < |wire'| && 0 <= i < |wire'[a]| && wire'[a][i].Block? ensures wire'[a][i].record in records {
      if i < |wire[a]| {
        assert wire'[a][i] == wire[a][i];
      }
    }
  }

  lemma {:induction false} StartFrom(c: Client, mode: Mode, w: World, k: nat, records: set<seq<byte>>)
    requires From(c, records)
    ensures From(Start(c, mode, w, k), records)
    decreases |c.queue|, if mode == Next then 0 else 2, 0
  {
    if mode != Next || c.queue != [] {
      var kept := if mode == Next then c.queue[1..] else c.queue;
      if kept != [] {
        FreshFrom(kept[1..], w(k).now, records);
      }
      var idle := Cleared(c, mode, w(k));
      if idle.queue != [] {
        BeginFrom(idle, w, k, records);
      }
    }
  }

  lemma {:induction false} BeginFrom(c: Client, w: World, k: nat, records: set<seq<byte>>)
    requires From(c, records) && c.queue != []
    ensures From(Begin(c, w, k), records)
    decreases |c.queue|, 1, 3
  {
    if w(k).address.None? {
      RetryFrom(c, false, w, k + 1, records);
    } else {
      var ready := Ready(c, w(k));
      if ready.open {
        SendFirstFrom(ready, w, k, records);
      } else if !w(k).connectOk {
        RetryFrom(Addressed(ready, w(k)), false, w, k + 1, records);
      } else {
        SendFirstFrom(Connected(Addressed(ready, w(k))), w, k, records);
      }
    }
  }

  lemma {:induction false} SendFirstFrom(c: Client, w: World, k: nat, records: set<seq<byte>>)
    requires From(c, records) && c.queue != []
    ensures From(SendFirst(c, w, k), records)
    decreases |c.queue|, 1, 2
  {
    if w(k).uriQuery.None? {
      RetryFrom(First(c, w(k)), false, w, k + 1, records);
    } else {
      SendOrRetryFrom(First(c, w(k)).(uriQuery := w(k).uriQuery.value), w, k, records);
    }
  }

  lemma {:induction false} SendOrRetryFrom(c: Client, w: World, k: nat, records: set<seq<byte>>)
    requires From(c, records) && Writable(c)
    ensures From(SendOrRetry(c, w, k), records)
    decreases |c.queue|, 1, 1
  {
    if w(k).sendOk {
      LoggedFrom(c.wire, CurrentEntry(c), records);
    } else {
      RetryFrom(SendBlock(c, w(k)), false, w, k + 1, records);
    }
  }

  lemma {:induction false} RetryFrom(c: Client, zeroDelay: bool, w: World, k: nat, records: set<seq<byte>>)
    requires From(c, records)
    ensures From(RetryLater(c, zeroDelay, w, k), records)
    decreases |c.queue|, 1, 0
  {
    var s := Stopped(c).(reconnects := c.reconnects + 1);
    if s.reconnects >= MAX_RECONNECTS {
      StartFrom(s, Next, w, k, records);
    }
  }

  /** Every record queued or on the wire is one that was submitted. */
  lemma {:induction false} HandleFrom(c: Client, ev: Event, w: World, records: set<seq<byte>>)
    requires Sound(c) && From(c, records)
    ensures From(Handle(c, ev, w), if ev.Submit? then records + {ev.item.record} else records)
  {
    match ev
    case Submit(item) =>
      if !Queued(c, item.record) {
        if c.queue != [] {
          FreshFrom(c.queue[1..], w(0).now, records);
        }
        var grown := c.(queue := Unexpired(c.queue, w(0).now) + [item]);
        StartFrom(grown, Current, w, 1, records + {item.record});
      }
    case Turn(ready, now) =>
      if c.open && ready.Some? {
        ReadingFrom(c, ready.value, w, records);
      } else if AckOverdue(c, now) {
        if c.retransmissions + 1 >= MAX_RETRANSMIT {
          StartFrom(Late(c), Next, w, 1, records);
        } else if c.encrypted {
          RetryFrom(Late(c), true, w, 1, records);
        } else {
          SendOrRetryFrom(Late(c).(ackTimeoutMs := 2 * c.ackTimeoutMs), w, 0, records);
        }
      } else if ReconnectDue(c, now) {
        StartFrom(c, Again, w, 0, records);
      }
  }

  lemma {:induction false} ReadingFrom(c: Client, r: Reading, w: World, records: set<seq<byte>>)
    requires Sound(c) && From(c, records) && c.open
    ensures From(OnReading(c, r, w), records)
  {
    LoggedFrom(c.wire, Rst(Bare(Reset, REQUEST, 0, NextMessageId(c.mid),
                                if r.Received? then r.pdu.token else if r.Unreadable? then r.token else [])), records);
    match r
    case ConnectionLost => RetryFrom(c, false, w, 0, records);
    case NothingToRead =>
    case Received(p) =>
      match JudgeAck(c, p) {
        case Ignore =>
        case Restart => RetryFrom(c, false, w, 1, records);
        case RefuseAndRestart => RetryFrom(AfterRst(c, p.token, w(0)), false, w, 1, records);
        case Finish => StartFrom(c, Next, w, 1, records);
        case Advance => SendOrRetryFrom(Advanced(c, p, w(0)), w, 0, records);
      }
    case Unreadable(token, flags) => RetryFrom(AfterRst(c, token, w(0)), false, w, 1, records);
  }
}
