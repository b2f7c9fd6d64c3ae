/** The sending end: one client with its queue of USP records, its retransmission and reconnection
    timers, and the block it is trying to get acknowledged. */
module CoapClient {
  import opened CoapPdu
  import opened Options
  import opened CoapUri

  type Address = nat

  datatype Item = Item(
    record: seq<byte>,
    host: string,
    port: nat,
    encrypted: bool,
    path: seq<seq<byte>>,       // decoded segments of the resource
    resetSession: bool,
    expiry: int)

  /** Where a record has to go: the address of its host when the attempt began, and what the record itself says. */
  datatype Goal = Goal(address: Option<Address>, port: nat, encrypted: bool, anew: bool)

  /** Where a socket leads. */
  datatype Endpoint = Endpoint(address: Option<Address>, port: Option<nat>, encrypted: bool)

  /** An entry of a socket's log: a PDU handed to it and, for a block, the record and the offset it was cut from, and
      where the record has to go. */
  datatype Entry =
    | Block(pdu: Pdu, record: seq<byte>, offset: nat, goal: Goal)
    | Rst(pdu: Pdu)

  /** One log for each socket ever opened, the latest one last. */
  type Wire = seq<seq<Entry>>

  const MAX_RETRANSMIT: nat := 4
  const MAX_RECONNECTS: nat := MAX_RETRANSMIT
  const LINGER_PERIOD: nat := 300
  const PAYLOAD_TX_SIZE: nat := MAX_PAYLOAD_SIZE
  const NO_TOKEN: seq<byte> := [0, 0, 0, 0]

  datatype Client = Client(
    queue: seq<Item>,
    open: bool,                 // whether there is a socket
    peer: Option<Address>,      // address and port the socket is connected to
    peerPort: Option<nat>,
    encrypted: bool,
    mid: nat,
    token: seq<byte>,
    uriQuery: seq<byte>,
    curBlock: nat,
    blockSize: nat,
    bytesSent: nat,
    ackTimeoutMs: nat,
    ackDeadline: Option<int>,
    retransmissions: nat,
    reconnectMs: nat,
    reconnectAt: Option<int>,
    reconnects: nat,
    lingerUntil: Option<int>,
    failed: bool,               // an assertion of the source failed: the agent has terminated
    wire: Wire,                 // history of what was handed to the sockets
    sockets: seq<Endpoint>,     // history of where the sockets led
    target: Option<Address>)    // history of the last address looked up

  /** Answers of the surroundings while the client handles one event. */
  datatype Answers = Answers(
    now: int,
    timeoutMs: nat,             // random initial timeout
    token: seq<byte>,           // random token
    address: Option<Address>,   // of the host of the next record, None if the lookup fails
    connectOk: bool,
    uriQuery: Option<seq<byte>>, // where responses are to be sent, None if unknown
    sendOk: bool)

  /** One event may consult its surroundings several times; consultation k is answered by `w(k)`. */
  type World = nat -> Answers

  datatype Mode = Current | Next | Again

  // ---------------------------------------------------------------------------------------
  // The block a client has to send.

  function Remaining(c: Client): int
    requires c.queue != []
  {
    |c.queue[0].record| - c.bytesSent
  }

  predicate OnLastBlock(c: Client)
    requires c.queue != []
  {
    c.bytesSent + c.blockSize >= |c.queue[0].record|
  }

  predicate Writable(c: Client) {
    c.queue != [] && c.bytesSent <= |c.queue[0].record|
  }

  /** The PDU that carries the current block, as its receiver parses it. */
  function BlockPdu(c: Client): Pdu
    requires Writable(c)
  {
    var item := c.queue[0];
    Pdu(Confirmable, REQUEST, POST, c.mid, c.token,
        Some(Block1(c.curBlock, !OnLastBlock(c), c.blockSize)),
        JoinedPath(None, item.path),
        Some(c.uriQuery), ParseUriQuery(c.uriQuery), Some(OCTET_STREAM), Some(|item.record| % 0x1_0000),
        item.record[c.bytesSent..][..Min(c.blockSize, Remaining(c))])
  }

  function CurrentEntry(c: Client): Entry
    requires Writable(c)
  {
    var item := c.queue[0];
    Block(BlockPdu(c), item.record, c.bytesSent, Goal(c.target, item.port, item.encrypted, item.resetSession))
  }

  /** The entry depends on the block being sent alone. */
  lemma {:induction false} SameEntry(c: Client, d: Client)
    requires Writable(c) && d.queue != [] && d.queue[0] == c.queue[0] && d.mid == c.mid && d.token == c.token && d.uriQuery == c.uriQuery
    requires d.curBlock == c.curBlock && d.blockSize == c.blockSize && d.bytesSent == c.bytesSent
    requires d.target == c.target
    ensures Writable(d) && CurrentEntry(c) == CurrentEntry(d)
  {
  }

  /** The logs after `e` has been handed to the latest socket. A retransmission is not logged again. */
  function Logged(wire: Wire, e: Entry): Wire {
    if wire == [] then wire
    else
      var log := wire[|wire| - 1];
      if log != [] && log[|log| - 1] == e then wire else wire[..|wire| - 1] + [log + [e]]
  }

  // ---------------------------------------------------------------------------------------
  // Reactions.

  function Stopped(c: Client): Client {
    c.(open := false, peer := None, peerPort := None, uriQuery := [], retransmissions := 0, ackTimeoutMs := 0,
       token := NO_TOKEN, mid := 0, curBlock := 0, blockSize := 0, bytesSent := 0,
       ackDeadline := None, reconnectAt := None, lingerUntil := None)
  }

  /** The queue without expired records; its head is being sent and always stays. */
  function Unexpired(queue: seq<Item>, now: int): seq<Item> {
    if queue == [] then [] else queue[..1] + Fresh(queue[1..], now)
  }

  function Fresh(items: seq<Item>, now: int): seq<Item> {
    if items == [] then [] else (if now > items[0].expiry then [] else items[..1]) + Fresh(items[1..], now)
  }

  lemma {:induction false} FreshShrinks(items: seq<Item>, now: int)
    ensures |Fresh(items, now)| <= |items|
  {
    if items != [] {
      FreshShrinks(items[1..], now);
    }
  }

  lemma {:induction false} FreshJoins(a: seq<Item>, b: seq<Item>, now: int)
    ensures Fresh(a + b, now) == Fresh(a, now) + Fresh(b, now)
  {
    if a == [] {
      assert a + b == b;
    } else {
      FirstOfBoth(a, b);
      FreshJoins(a[1..], b, now);
      var first := if now > a[0].expiry then [] else a[..1];
      assert first + (Fresh(a[1..], now) + Fresh(b, now)) == (first + Fresh(a[1..], now)) + Fresh(b, now);
    }
  }

  lemma {:induction false} FirstOfBoth(a: seq<Item>, b: seq<Item>)
    requires a != []
    ensures (a + b)[0] == a[0] && (a + b)[..1] == a[..1] && (a + b)[1..] == a[1..] + b
  {
  }

  /** A record is kept exactly if it has not expired, and in its place. */
  lemma {:induction false} FreshAt(items: seq<Item>, i: nat, now: int)
    requires i < |items|
    ensures Fresh(items, now) ==
            Fresh(items[..i], now) + ((if now > items[i].expiry then [] else [items[i]]) + Fresh(items[i + 1..], now))
  {
    FreshJoins(items[..i], items[i..], now);
    assert items == items[..i] + items[i..];
    assert items[i..][1..] == items[i + 1..] && items[i..][..1] == [items[i]];
  }

  /** Purging keeps the head, removes an expired record wherever else it is, keeps every other one, and so keeps
      the order of those it keeps. */
  lemma {:induction false} PurgesExpired(queue: seq<Item>, i: nat, now: int)
    requires 0 < i < |queue|
    ensures Unexpired(queue[..i], now) <= Unexpired(queue, now)
    ensures Unexpired(queue, now)[|Unexpired(queue[..i], now)|..] ==
            (if now > queue[i].expiry then [] else [queue[i]]) + Fresh(queue[i + 1..], now)
    ensures Unexpired(queue, now)[0] == queue[0]
  {
    var rest, front := queue[1..], queue[..i];
    FreshAt(rest, i - 1, now);
    assert front[1..] == rest[..i - 1] && front[..1] == queue[..1] && rest[i..] == queue[i + 1..];
    Behind(queue[..1], Fresh(rest[..i - 1], now),
           (if now > queue[i].expiry then [] else [queue[i]]) + Fresh(queue[i + 1..], now));
  }

  lemma {:induction false} Behind(a: seq<Item>, b: seq<Item>, c: seq<Item>)
    ensures a + (b + c) == (a + b) + c && ((a + b) + c)[|a + b|..] == c
  {
  }

  predicate SamePeer(c: Client, item: Item, address: Address) {
    && c.peer == Some(address) && c.peerPort == Some(item.port) && c.encrypted == item.encrypted
    && !item.resetSession
  }

  /** The client with its timers off and its queue purged, ready for its next record. */
  function Cleared(c: Client, mode: Mode, a: Answers): (r: Client)
    requires mode == Next ==> c.queue != []
    ensures |r.queue| <= |c.queue| && (mode == Next ==> |r.queue| < |c.queue|)
    ensures mode != Next && c.queue != [] ==> r.queue != []
  {
    var kept := if mode == Next then c.queue[1..] else c.queue;
    FreshShrinks(if kept == [] then [] else kept[1..], a.now);
    c.(queue := Unexpired(kept, a.now), ackDeadline := None, reconnectAt := None, lingerUntil := None,
       reconnects := if mode == Again then c.reconnects else 0,
       reconnectMs := if mode == Again then c.reconnectMs else a.timeoutMs)
  }

  function Start(c: Client, mode: Mode, w: World, k: nat): Client
    decreases |c.queue|, if mode == Next then 0 else 2, 0
  {
    if mode == Next && c.queue == [] then c.(failed := true)
    else
      var idle := Cleared(c, mode, w(k));
      if idle.queue == [] then idle.(lingerUntil := Some(w(k).now + LINGER_PERIOD)) else Begin(idle, w, k)
  }

  /** Begins sending the record at the head of the queue, over the open socket if it leads to the right peer. */
  function Begin(c: Client, w: World, k: nat): Client
    requires c.queue != []
    decreases |c.queue|, 1, 3
  {
    if w(k).address.None? then RetryLater(c, false, w, k + 1)
    else
      var ready := Ready(c, w(k));
      if ready.open then SendFirst(ready, w, k)
      else if !w(k).connectOk then RetryLater(Addressed(ready, w(k)), false, w, k + 1)
      else SendFirst(Connected(Addressed(ready, w(k))), w, k)
  }

  function Ready(c: Client, a: Answers): Client
    requires c.queue != [] && a.address.Some?
  {
    (if SamePeer(c, c.queue[0], a.address.value) then c else Stopped(c)).
      (ackTimeoutMs := a.timeoutMs, retransmissions := 0, target := a.address)
  }

  function Addressed(c: Client, a: Answers): Client
    requires c.queue != []
  {
    c.(peer := a.address, peerPort := Some(c.queue[0].port), encrypted := c.queue[0].encrypted)
  }

  function Connected(c: Client): Client {
    c.(open := true, wire := c.wire + [[]], sockets := c.sockets + [Endpoint(c.peer, c.peerPort, c.encrypted)])
  }

  /** The client about to send the first block of its record, under a new token. */
  function First(c: Client, a: Answers): Client {
    c.(token := a.token, mid := NextMessageId(c.mid), curBlock := 0, blockSize := PAYLOAD_TX_SIZE, bytesSent := 0)
  }

  function SendFirst(c: Client, w: World, k: nat): Client
    requires c.queue != []
    decreases |c.queue|, 1, 2
  {
    if w(k).uriQuery.None? then RetryLater(First(c, w(k)), false, w, k + 1)
    else SendOrRetry(First(c, w(k)).(uriQuery := w(k).uriQuery.value), w, k)
  }

  /** Hands the current block to the socket and starts waiting for its acknowledgement. */
  function SendBlock(c: Client, a: Answers): Client
    requires Writable(c)
  {
    c.(ackDeadline := Some(a.now + c.ackTimeoutMs / 1000),
       wire := if a.sendOk then Logged(c.wire, CurrentEntry(c)) else c.wire)
  }

  function SendOrRetry(c: Client, w: World, k: nat): Client
    requires Writable(c)
    decreases |c.queue|, 1, 1
  {
    if w(k).sendOk then SendBlock(c, w(k)) else RetryLater(SendBlock(c, w(k)), false, w, k + 1)
  }

  /** Gives up the connection; the record is retried later, or dropped after too many attempts. */
  function RetryLater(c: Client, zeroDelay: bool, w: World, k: nat): Client
    decreases |c.queue|, 1, 0
  {
    var s := Stopped(c).(reconnects := c.reconnects + 1);
    if s.reconnects >= MAX_RECONNECTS then Start(s, Next, w, k)
    else if s.queue == [] then s
    else
      var delay := if zeroDelay && s.reconnects == 2 then 0 else s.reconnectMs / 1000;
      s.(reconnectAt := Some(w(k).now + delay), reconnectMs := 2 * s.reconnectMs)
  }

  // ---------------------------------------------------------------------------------------
  // Events.

  /** What a received PDU means to the client. */
  datatype Reaction = Restart | RefuseAndRestart | Ignore | Advance | Finish

  function JudgeAck(c: Client, p: Pdu): Reaction {
    if p.pduType == Reset then Restart
    else if p.pduType != Acknowledgement || p.token != c.token then RefuseAndRestart
    else if p.mid != c.mid then Ignore
    else if p.pduClass != SUCCESS then Finish
    else if p.code != CHANGED && p.code != CONTINUE then RefuseAndRestart
    else if c.queue == [] then Ignore
    else if p.code == CHANGED then (if OnLastBlock(c) then Finish else RefuseAndRestart)
    else if OnLastBlock(c) || p.block1.None? || p.block1.value.num != c.curBlock then Restart
    else Advance
  }

  /** The client after it has sent a RST carrying `token`. */
  function AfterRst(c: Client, token: seq<byte>, a: Answers): Client {
    var mid := NextMessageId(c.mid);
    c.(mid := mid,
       wire := if a.sendOk then Logged(c.wire, Rst(Bare(Reset, REQUEST, 0, mid, token))) else c.wire)
  }

  function Advanced(c: Client, p: Pdu, a: Answers): Client
    requires p.block1.Some?
  {
    c.(curBlock := c.curBlock + 1, bytesSent := c.bytesSent + c.blockSize, mid := NextMessageId(c.mid),
       ackTimeoutMs := a.timeoutMs, retransmissions := 0, blockSize := Min(c.blockSize, p.block1.value.size))
  }

  function OnPdu(c: Client, p: Pdu, w: World): Client {
    match JudgeAck(c, p)
    case Ignore => c
    case Restart => RetryLater(c, false, w, 1)
    case RefuseAndRestart => RetryLater(AfterRst(c, p.token, w(0)), false, w, 1)
    case Finish => Start(c, Next, w, 1)
    case Advance => SendOrRetry(Advanced(c, p, w(0)), w, 0)
  }

  function Late(c: Client): Client {
    c.(retransmissions := c.retransmissions + 1, reconnects := c.reconnects + 1)
  }

  function OnNoAck(c: Client, w: World): Client
    requires Writable(c)
  {
    if c.retransmissions + 1 >= MAX_RETRANSMIT then Start(Late(c), Next, w, 1)
    else if c.encrypted then RetryLater(Late(c), true, w, 1)
    else SendOrRetry(Late(c).(ackTimeoutMs := 2 * c.ackTimeoutMs), w, 0)
  }

  /** What reading the socket yields. */
  datatype Reading =
    | ConnectionLost
    | NothingToRead
    | Received(pdu: Pdu)
    | Unreadable(token: seq<byte>, flags: Flags)

  function OnReading(c: Client, r: Reading, w: World): Client {
    match r
    case ConnectionLost => if c.queue == [] then Stopped(c) else RetryLater(c, false, w, 0)
    case NothingToRead => c
    case Received(p) => OnPdu(c, p, w)
    case Unreadable(token, flags) =>
      if SendRst in flags || ErrInAck(flags) then RetryLater(AfterRst(c, token, w(0)), false, w, 1) else c
  }

  predicate AckOverdue(c: Client, now: int) {
    c.open && c.ackDeadline.Some? && now >= c.ackDeadline.value
  }

  predicate LingerOver(c: Client, now: int) {
    c.open && c.lingerUntil.Some? && now >= c.lingerUntil.value
  }

  predicate ReconnectDue(c: Client, now: int) {
    !c.open && c.reconnectAt.Some? && now >= c.reconnectAt.value
  }

  /** One turn of the polling loop for this client. */
  function Poll(c: Client, ready: Option<Reading>, now: int, w: World): Client
    requires c.open && c.ackDeadline.Some? ==> Writable(c)
  {
    if c.open && ready.Some? then OnReading(c, ready.value, w)
    else if AckOverdue(c, now) then OnNoAck(c, w)
    else if LingerOver(c, now) then Stopped(c)
    else if ReconnectDue(c, now) then Start(c, Again, w, 0)
    else c
  }

  predicate Queued(c: Client, record: seq<byte>) {
    exists i :: 0 <= i < |c.queue| && c.queue[i].record == record
  }

  function Enqueue(c: Client, item: Item, w: World): Client {
    if Queued(c, item.record) then c
    else
      var grown := c.(queue := Unexpired(c.queue, w(0).now) + [item]);
      if c.queue == [] then Start(grown, Current, w, 1) else grown
  }

  datatype Event =
    | Submit(item: Item)
    | Turn(ready: Option<Reading>, now: int)

  // ---------------------------------------------------------------------------------------
  // What holds between events.

  /** Waiting for an acknowledgement of the current block. */
  predicate Sending(c: Client) {
    && c.open && c.ackDeadline.Some? && c.reconnectAt.None? && c.lingerUntil.None?
    && Writable(c) && (c.bytesSent < |c.queue[0].record| || c.bytesSent == 0)
    && c.blockSize > 0
  }

  /** Waiting to reconnect. */
  predicate Waiting(c: Client) {
    !c.open && c.reconnectAt.Some? && c.ackDeadline.None? && c.lingerUntil.None?
  }

  /** Nothing to send: no retransmission and no reconnection is pending. */
  predicate Resting(c: Client) {
    && (c.open ==> c.ackDeadline.None? && c.reconnects == 0)
    && (!c.open ==> c.reconnectAt.None? && c.reconnects <= 1)
  }

  predicate Sound(c: Client) {
    && !c.failed
    && c.mid < MESSAGE_IDS
    && if c.queue == [] then Resting(c) else Sending(c) || Waiting(c)
  }

  function Handle(c: Client, ev: Event, w: World): Client
    requires Sound(c)
  {
    match ev
    case Submit(item) => Enqueue(c, item, w)
    case Turn(ready, now) => Poll(c, ready, now, w)
  }

  /** The client as COAP_CLIENT_Start leaves it. */
  predicate Initial(c: Client) {
    && c.queue == [] && !c.open && c.reconnectAt.None? && c.reconnects == 0 && !c.failed
    && c.mid < MESSAGE_IDS && c.wire == [] && c.sockets == []
  }
}
