/** The client as the source keeps it: one object whose fields every event handler updates in place.
    Each handler is proved to do what the reactions of CoapClient say. */
module CoapSender {
  import opened CoapPdu
  import opened Options
  import opened CoapClient
  import opened CoapClientProofs

  /** The client's fields, grouped by what they are about. */
  datatype Socket = Socket(open: bool, peer: Option<Address>, peerPort: Option<nat>, encrypted: bool)
  datatype Transfer = Transfer(mid: nat, token: seq<byte>, uriQuery: seq<byte>, curBlock: nat, blockSize: nat, bytesSent: nat)
  datatype Timers = Timers(
    ackTimeoutMs: nat, ackDeadline: Option<int>, retransmissions: nat,
    reconnectMs: nat, reconnectAt: Option<int>, reconnects: nat, lingerUntil: Option<int>)

  class Sender {
    var queue: seq<Item>
    var socket: Socket
    var transfer: Transfer
    var timers: Timers
    var failed: bool
    ghost var wire: Wire
    ghost var sockets: seq<Endpoint>
    ghost var target: Option<Address>

    ghost function Value(): Client
      reads this
    {
      Client(queue, socket.open, socket.peer, socket.peerPort, socket.encrypted,
             transfer.mid, transfer.token, transfer.uriQuery, transfer.curBlock, transfer.blockSize, transfer.bytesSent,
             timers.ackTimeoutMs, timers.ackDeadline, timers.retransmissions,
             timers.reconnectMs, timers.reconnectAt, timers.reconnects, timers.lingerUntil, failed,
             wire, sockets, target)
    }

    constructor (mid: nat, timeoutMs: nat)
      requires mid < MESSAGE_IDS
      ensures Initial(Value()) && transfer.mid == mid
    {
      queue, failed, wire, sockets, target := [], false, [], [], None;
      socket := Socket(false, None, None, false);
      transfer := Transfer(mid, NO_TOKEN, [], 0, 0, 0);
      timers := Timers(0, None, 0, timeoutMs, None, 0, None);
    }

    method StopSendingToController()
      modifies this`socket, this`transfer, this`timers
      ensures Value() == Stopped(old(Value()))
    {
      socket := socket.(open := false, peer := None, peerPort := None);
      transfer := Transfer(0, NO_TOKEN, [], 0, 0, 0);
      timers := timers.(ackTimeoutMs := 0, ackDeadline := None, retransmissions := 0,
                        reconnectAt := None, lingerUntil := None);
    }

    /** Walks the queue behind its head and unlinks what has expired. */
    method RemoveExpiredCoapMessages(now: int)
      modifies this`queue
      ensures queue == Unexpired(old(queue), now)
    {
      if queue == [] {
        return;
      }
      var rest := queue[1..];
      var kept := [];
      ghost var all := queue;
      while rest != []
        invariant |rest| < |all| && rest == all[|all| - |rest|..]
        invariant kept + Fresh(rest, now) == Fresh(all[1..], now)
        decreases |rest|
      {
        if now <= rest[0].expiry {
          kept := kept + rest[..1];
        }
        rest := rest[1..];
      }
      queue := queue[..1] + kept;
    }

    method IsUspRecordInCoapQueue(record: seq<byte>) returns (found: bool)
      ensures found <==> Queued(Value(), record)
    {
      var i := 0;
      while i < |queue|
        invariant i <= |queue|
        invariant forall j :: 0 <= j < i ==> queue[j].record != record
      {
        if queue[i].record == record {
          return true;
        }
        i := i + 1;
      }
      return false;
    }

    method SendCoapBlock(a: Answers) returns (ok: bool)
      requires Writable(Value())
      modifies this`timers, this`wire
      ensures Value() == SendBlock(old(Value()), a) && ok == a.sendOk
    {
      ghost var was := Value();
      timers := timers.(ackDeadline := Some(a.now + timers.ackTimeoutMs / 1000));
      SameEntry(was, Value());
      if a.sendOk {
        wire := Logged(wire, CurrentEntry(Value()));
      }
      ok := a.sendOk;
    }

    method SendFirstCoapBlock(w: World, k: nat)
      requires queue != []
      modifies this
      ensures Value() == SendFirst(old(Value()), w, k)
      decreases |queue|, 1, 2
    {
      transfer := transfer.(token := w(k).token, mid := NextMessageId(transfer.mid),
                            curBlock := 0, blockSize := PAYLOAD_TX_SIZE, bytesSent := 0);
      var ok := false;
      if w(k).uriQuery.Some? {
        transfer := transfer.(uriQuery := w(k).uriQuery.value);
        ok := SendCoapBlock(w(k));
      }
      if !ok {
        RetryClientSendLater(false, w, k + 1);
      }
    }

    method StartSendingCoapUspRecord(mode: Mode, w: World, k: nat)
      modifies this
      ensures Value() == Start(old(Value()), mode, w, k)
      decreases |queue|, if mode == Next then 0 else 2, 0
    {
      ghost var start := Value();
      if mode == Next {
        if queue == [] {
          failed := true;
          return;
        }
        queue := queue[1..];
      }
      timers := timers.(ackDeadline := None, reconnectAt := None, lingerUntil := None);
      if mode != Again {
        timers := timers.(reconnects := 0, reconnectMs := w(k).timeoutMs);
      }
      RemoveExpiredCoapMessages(w(k).now);
      ghost var idle := Cleared(start, mode, w(k));
      assert Value() == idle;
      if queue == [] {
        timers := timers.(lingerUntil := Some(w(k).now + LINGER_PERIOD));
        return;
      }
      SendToPeer(w, k);
    }

    /** The rest of StartSendingCoapUspRecord: finds the peer, connects if necessary, sends the first block. */
    method SendToPeer(w: World, k: nat)
      requires queue != []
      modifies this
      ensures Value() == Begin(old(Value()), w, k)
      decreases |queue|, 1, 3
    {
      if w(k).address.None? {
        RetryClientSendLater(false, w, k + 1);
        return;
      }
      LeaveWrongPeer(w(k));
      if !socket.open {
        var ok := ClientConnectToController(w, k);
        if !ok {
          return;
        }
      }
      SendFirstCoapBlock(w, k);
    }

    /** Gives up a socket that does not lead to the peer of the next record. */
    method LeaveWrongPeer(a: Answers)
      requires queue != [] && a.address.Some?
      modifies this`socket, this`transfer, this`timers, this`target
      ensures Value() == Ready(old(Value()), a)
    {
      var item := queue[0];
      if socket.peer != a.address || socket.peerPort != Some(item.port) ||
         socket.encrypted != item.encrypted || item.resetSession {
        StopSendingToController();
      }
      timers := timers.(ackTimeoutMs := a.timeoutMs, retransmissions := 0);
      target := a.address;
    }

    method ClientConnectToController(w: World, k: nat) returns (ok: bool)
      requires queue != [] && !socket.open
      modifies this
      ensures ok == w(k).connectOk
      ensures Value() == if ok then Connected(Addressed(old(Value()), w(k)))
                         else RetryLater(Addressed(old(Value()), w(k)), false, w, k + 1)
      decreases |queue|, 1, 1
    {
      ok := w(k).connectOk;
      socket := Socket(ok, w(k).address, Some(queue[0].port), queue[0].encrypted);
      if ok {
        wire, sockets := wire + [[]], sockets + [Endpoint(w(k).address, Some(queue[0].port), queue[0].encrypted)];
      } else {
        RetryClientSendLater(false, w, k + 1);
      }
    }

    method RetryClientSendLater(zeroDelay: bool, w: World, k: nat)
      modifies this
      ensures Value() == RetryLater(old(Value()), zeroDelay, w, k)
      decreases |queue|, 1, 0
    {
      StopSendingToController();
      timers := timers.(reconnects := timers.reconnects + 1);
      if timers.reconnects >= MAX_RECONNECTS {
        StartSendingCoapUspRecord(Next, w, k);
        return;
      }
      if queue != [] {
        var timeout := timers.reconnectMs / 1000;
        if zeroDelay && timers.reconnects == 2 {
          timeout := 0;
        }
        timers := timers.(reconnectAt := Some(w(k).now + timeout), reconnectMs := timers.reconnectMs * 2);
      }
    }

    method SendCoapRstFromClient(token: seq<byte>, a: Answers)
      modifies this`transfer, this`wire
      ensures Value() == AfterRst(old(Value()), token, a)
    {
      transfer := transfer.(mid := NextMessageId(transfer.mid));
      if a.sendOk {
        wire := Logged(wire, Rst(Bare(Reset, REQUEST, 0, transfer.mid, token)));
      }
    }

    static ghost function ReactionFlags(r: Reaction): Flags {
      match r
      case Restart => {ResetState}
      case RefuseAndRestart => {SendRst}
      case Ignore => {IgnorePdu}
      case Advance => {NextBlock}
      case Finish => {NextRecord}
    }

    method CalcCoapClientActions(p: Pdu) returns (flags: Flags)
      ensures flags == ReactionFlags(JudgeAck(Value(), p))
    {
      if p.pduType == Reset {
        return {ResetState};
      }
      if p.pduType == Confirmable || p.pduType == NonConfirmable {
        return {SendRst};
      }
      if p.token != transfer.token {
        return {SendRst};
      }
      if p.mid != transfer.mid {
        return {IgnorePdu};
      }
      if p.pduClass != SUCCESS {
        return {NextRecord};
      }
      if p.code != CHANGED && p.code != CONTINUE {
        return {SendRst};
      }
      if queue == [] {
        return {IgnorePdu};
      }
      var sentLastBlock := transfer.bytesSent + transfer.blockSize >= |queue[0].record|;
      if p.code == CHANGED {
        return if sentLastBlock then {NextRecord} else {SendRst};
      }
      if sentLastBlock {
        return {ResetState};
      }
      if p.block1.None? {
        return {ResetState};
      }
      if p.block1.value.num != transfer.curBlock {
        return {ResetState};
      }
      return {NextBlock};
    }

    method HandleCoapClientConnectionError(w: World)
      modifies this
      ensures Value() == OnReading(old(Value()), ConnectionLost, w)
    {
      if queue == [] {
        StopSendingToController();
      } else {
        RetryClientSendLater(false, w, 0);
      }
    }

    method MoveToNextBlock(p: Pdu, a: Answers)
      requires queue != [] && p.block1.Some? && !OnLastBlock(Value())
      modifies this`transfer, this`timers
      ensures Value() == Advanced(old(Value()), p, a) && Writable(Value())
    {
      transfer := transfer.(curBlock := transfer.curBlock + 1, bytesSent := transfer.bytesSent + transfer.blockSize,
                            mid := NextMessageId(transfer.mid));
      timers := timers.(ackTimeoutMs := a.timeoutMs, retransmissions := 0);
      transfer := transfer.(blockSize := Min(transfer.blockSize, p.block1.value.size));
    }

    method SendNextBlock(p: Pdu, w: World)
      requires queue != [] && p.block1.Some? && !OnLastBlock(Value())
      modifies this
      ensures Value() == SendOrRetry(Advanced(old(Value()), p, w(0)), w, 0)
    {
      MoveToNextBlock(p, w(0));
      var ok := SendCoapBlock(w(0));
      if !ok {
        RetryClientSendLater(false, w, 1);
      }
    }

    method HandleCoapAck(r: Reading, w: World)
      modifies this
      ensures Value() == OnReading(old(Value()), r, w)
    {
      if r.ConnectionLost? {
        HandleCoapClientConnectionError(w);
        return;
      }
      if r.NothingToRead? {
        return;
      }
      if r.Unreadable? {
        if SendRst in r.flags || ErrInAck(r.flags) {
          SendCoapRstFromClient(r.token, w(0));
          RetryClientSendLater(false, w, 1);
        }
        return;
      }
      var flags := CalcCoapClientActions(r.pdu);
      if SendRst in flags {
        SendCoapRstFromClient(r.pdu.token, w(0));
        RetryClientSendLater(false, w, 1);
      } else if ResetState in flags {
        RetryClientSendLater(false, w, 1);
      } else if NextBlock in flags {
        SendNextBlock(r.pdu, w);
      } else if NextRecord in flags {
        StartSendingCoapUspRecord(Next, w, 1);
      }
    }

    method HandleNoCoapAck(w: World)
      requires Writable(Value())
      modifies this
      ensures Value() == OnNoAck(old(Value()), w)
    {
      timers := timers.(retransmissions := timers.retransmissions + 1, reconnects := timers.reconnects + 1);
      if timers.retransmissions >= MAX_RETRANSMIT {
        StartSendingCoapUspRecord(Next, w, 1);
        return;
      }
      if socket.encrypted {
        RetryClientSendLater(true, w, 1);
        return;
      }
      timers := timers.(ackTimeoutMs := timers.ackTimeoutMs * 2);
      var ok := SendCoapBlock(w(0));
      if !ok {
        RetryClientSendLater(false, w, 1);
      }
    }

    method ProcessSocketActivity(ready: Option<Reading>, now: int, w: World)
      requires Sound(Value())
      modifies this
      ensures Value() == Handle(old(Value()), Turn(ready, now), w)
    {
      if socket.open {
        if ready.Some? {
          HandleCoapAck(ready.value, w);
        } else if timers.ackDeadline.Some? && now >= timers.ackDeadline.value {
          HandleNoCoapAck(w);
        } else if timers.lingerUntil.Some? && now >= timers.lingerUntil.value {
          StopSendingToController();
        }
      } else if timers.reconnectAt.Some? && now >= timers.reconnectAt.value {
        StartSendingCoapUspRecord(Again, w, 0);
      }
    }

    method QueueBinaryMessage(item: Item, w: World)
      requires Sound(Value())
      modifies this
      ensures Value() == Handle(old(Value()), Submit(item), w)
    {
      var duplicate := IsUspRecordInCoapQueue(item.record);
      if duplicate {
        return;
      }
      RemoveExpiredCoapMessages(w(0).now);
      queue := queue + [item];
      if |queue| == 1 {
        StartSendingCoapUspRecord(Current, w, 1);
      }
    }
  }
}
