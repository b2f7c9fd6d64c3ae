/** The queue of the client: records are sent in the order of their submission, and the one being sent leaves the queue
    only when it has been reported as received or given up. */
module CoapQueue {
  import opened CoapPdu
  import opened Options
  import opened CoapClient
  import opened CoapClientProofs
  import opened CoapNetwork

  /** What is left of `b` when some of its elements have been removed. */
  predicate Part(a: seq<Item>, b: seq<Item>) {
    if a == [] then true
    else if b == [] then false
    else (a[0] == b[0] && Part(a[1..], b[1..])) || Part(a, b[1..])
  }

  lemma {:induction false} AllIsPart(a: seq<Item>)
    ensures Part(a, a)
  {
    if a != [] {
      AllIsPart(a[1..]);
    }
  }

  lemma {:induction false} RestIsPart(a: seq<Item>, b: seq<Item>)
    requires a != [] && Part(a, b)
    ensures Part(a[1..], b)
    decreases |b|
  {
    if !(a[0] == b[0] && Part(a[1..], b[1..])) {
      RestIsPart(a, b[1..]);
    }
  }

  lemma {:induction false} PartOfPart(a: seq<Item>, b: seq<Item>, c: seq<Item>)
    requires Part(a, b) && Part(b, c)
    ensures Part(a, c)
    decreases |c|
  {
    if a != [] && b != [] {
      if b[0] == c[0] && Part(b[1..], c[1..]) {
        if a[0] == b[0] && Part(a[1..], b[1..]) {
          PartOfPart(a[1..], b[1..], c[1..]);
        } else {
          PartOfPart(a, b[1..], c[1..]);
        }
      } else {
        PartOfPart(a, b, c[1..]);
      }
    }
  }

  lemma {:induction false} PartWithMore(a: seq<Item>, b: seq<Item>, more: seq<Item>)
    requires Part(a, b)
    ensures Part(a + more, b + more) && Part(a, b + more)
    decreases |b|
  {
    if b == [] {
      assert a + more == more && b + more == more;
      AllIsPart(more);
    } else {
      assert (b + more)[1..] == b[1..] + more;
      if a != [] && a[0] == b[0] && Part(a[1..], b[1..]) {
        assert (a + more)[1..] == a[1..] + more;
        PartWithMore(a[1..], b[1..], more);
      } else if a != [] {
        PartWithMore(a, b[1..], more);
      } else {
        assert [] + more == more;
        PartWithMore([], b[1..], more);
      }
    }
  }

  lemma {:induction false} FreshIsPart(items: seq<Item>, now: int)
    ensures Part(Fresh(items, now), items)
  {
    if items != [] {
      FreshIsPart(items[1..], now);
      if now <= items[0].expiry {
        assert Fresh(items, now)[1..] == Fresh(items[1..], now);
      } else {
        assert Fresh(items, now) == Fresh(items[1..], now);
      }
    }
  }

  lemma {:induction false} UnexpiredIsPart(queue: seq<Item>, now: int)
    ensures Part(Unexpired(queue, now), queue)
  {
    if queue != [] {
      FreshIsPart(queue[1..], now);
      assert Unexpired(queue, now)[1..] == Fresh(queue[1..], now);
    }
  }

  // ---------------------------------------------------------------------------------------
  // Nothing overtakes.

  lemma {:induction false} StartInOrder(c: Client, mode: Mode, w: World, k: nat)
    ensures Part(Start(c, mode, w, k).queue, c.queue)
    decreases |c.queue|, if mode == Next then 0 else 2, 0
  {
    AllIsPart(c.queue);
    if !(mode == Next && c.queue == []) {
      var idle := Cleared(c, mode, w(k));
      var kept := if mode == Next then c.queue[1..] else c.queue;
      if mode == Next {
        RestIsPart(c.queue, c.queue);
      }
      UnexpiredIsPart(kept, w(k).now);
      PartOfPart(idle.queue, kept, c.queue);
      if idle.queue != [] {
        BeginInOrder(idle, w, k);
        PartOfPart(Begin(idle, w, k).queue, idle.queue, c.queue);
      }
    }
  }

  lemma {:induction false} BeginInOrder(c: Client, w: World, k: nat)
    requires c.queue != []
    ensures Part(Begin(c, w, k).queue, c.queue)
    decreases |c.queue|, 1, 3
  {
    if w(k).address.None? {
      RetryInOrder(c, false, w, k + 1);
    } else {
      var ready := Ready(c, w(k));
      if ready.open {
        SendFirstInOrder(ready, w, k);
      } else if !w(k).connectOk {
        RetryInOrder(Addressed(ready, w(k)), false, w, k + 1);
      } else {
        SendFirstInOrder(Connected(Addressed(ready, w(k))), w, k);
      }
    }
  }

  lemma {:induction false} SendFirstInOrder(c: Client, w: World, k: nat)
    requires c.queue != []
    ensures Part(SendFirst(c, w, k).queue, c.queue)
    decreases |c.queue|, 1, 2
  {
    if w(k).uriQuery.None? {
      RetryInOrder(First(c, w(k)), false, w, k + 1);
    } else {
      SendInOrder(First(c, w(k)).(uriQuery := w(k).uriQuery.value), w, k);
    }
  }

  lemma {:induction false} SendInOrder(c: Client, w: World, k: nat)
    requires Writable(c)
    ensures Part(SendOrRetry(c, w, k).queue, c.queue)
    decreases |c.queue|, 1, 1
  {
    AllIsPart(c.queue);
    if !w(k).sendOk {
      RetryInOrder(SendBlock(c, w(k)), false, w, k + 1);
    }
  }

  lemma {:induction false} RetryInOrder(c: Client, zeroDelay: bool, w: World, k: nat)
    ensures Part(RetryLater(c, zeroDelay, w, k).queue, c.queue)
    decreases |c.queue|, 1, 0
  {
    AllIsPart(c.queue);
    var s := Stopped(c).(reconnects := c.reconnects + 1);
    if s.reconnects >= MAX_RECONNECTS {
      StartInOrder(s, Next, w, k);
    }
  }

  lemma {:induction false} PduInOrder(c: Client, p: Pdu, w: World)
    requires Sound(c) && c.open
    ensures Part(OnPdu(c, p, w).queue, c.queue)
  {
    AllIsPart(c.queue);
    match JudgeAck(c, p)
    case Ignore =>
    case Restart => RetryInOrder(c, false, w, 1);
    case RefuseAndRestart => RetryInOrder(AfterRst(c, p.token, w(0)), false, w, 1);
    case Finish => StartInOrder(c, Next, w, 1);
    case Advance => SendInOrder(Advanced(c, p, w(0)), w, 0);
  }

  lemma {:induction false} TurnInOrder(c: Client, ready: Option<Reading>, now: int, w: World)
    requires Sound(c)
    ensures Part(Poll(c, ready, now, w).queue, c.queue)
  {
    AllIsPart(c.queue);
    if c.open && ready.Some? {
      match ready.value {
        case ConnectionLost => RetryInOrder(c, false, w, 0);
        case NothingToRead =>
        case Received(p) => PduInOrder(c, p, w);
        case Unreadable(token, flags) => RetryInOrder(AfterRst(c, token, w(0)), false, w, 1);
      }
    } else if AckOverdue(c, now) {
      NoAckInOrder(c, w);
    } else if ReconnectDue(c, now) {
      StartInOrder(c, Again, w, 0);
    }
  }

  lemma {:induction false} NoAckInOrder(c: Client, w: World)
    requires Writable(c)
    ensures Part(OnNoAck(c, w).queue, c.queue)
  {
    StartInOrder(Late(c), Next, w, 1);
    RetryInOrder(Late(c), true, w, 1);
    SendInOrder(Late(c).(ackTimeoutMs := 2 * c.ackTimeoutMs), w, 0);
  }

  lemma {:induction false} SubmitInOrder(c: Client, item: Item, w: World)
    ensures Part(Enqueue(c, item, w).queue, c.queue + [item])
  {
    AllIsPart(c.queue);
    PartWithMore(c.queue, c.queue, [item]);
    if !Queued(c, item.record) {
      var grown := c.(queue := Unexpired(c.queue, w(0).now) + [item]);
      UnexpiredIsPart(c.queue, w(0).now);
      PartWithMore(Unexpired(c.queue, w(0).now), c.queue, [item]);
      StartInOrder(grown, Current, w, 1);
      PartOfPart(Start(grown, Current, w, 1).queue, grown.queue, c.queue + [item]);
    }
  }

  function Submitted(ev: Event): seq<Item> {
    if ev.Submit? then [ev.item] else []
  }

  /** No event changes the order of the queue, and a record submitted goes behind all others. */
  lemma {:induction false} HandleInOrder(c: Client, ev: Event, w: World)
    requires Sound(c)
    ensures Part(Handle(c, ev, w).queue, c.queue + Submitted(ev))
  {
    match ev
    case Submit(item) => SubmitInOrder(c, item, w);
    case Turn(ready, now) =>
      TurnInOrder(c, ready, now, w);
      assert c.queue + [] == c.queue;
  }

  /** A record is queued once: if it is there already nothing changes, otherwise it is the last one, or the only one and
      tried at once. */
  lemma {:induction false} QueuedOnce(c: Client, item: Item, w: World)
    requires Sound(c)
    ensures var c' := Handle(c, Submit(item), w);
            && (Queued(c, item.record) ==> c' == c)
            && (!Queued(c, item.record) && c.queue != [] ==>
                  && |c'.queue| > 1 && c'.queue[|c'.queue| - 1] == item && c'.queue[0] == c.queue[0]
                  && c' == c.(queue := c'.queue)
                  && forall i :: 0 < i < |c.queue| && w(0).now <= c.queue[i].expiry ==> c.queue[i] in c'.queue)
  {
    if c.queue != [] {
      forall i | 0 < i < |c.queue| && w(0).now <= c.queue[i].expiry
        ensures c.queue[i] in Unexpired(c.queue, w(0).now)
      {
        StaysQueued(c.queue, i, w(0).now);
      }
    }
  }

  lemma {:induction false} StaysQueued(queue: seq<Item>, i: nat, now: int)
    requires 0 < i < |queue| && now <= queue[i].expiry
    ensures queue[i] in Unexpired(queue, now)
  {
    PurgesExpired(queue, i, now);
    var kept, n := Unexpired(queue, now), |Unexpired(queue[..i], now)|;
    assert kept[n..][0] == queue[i];
    assert kept[n] == kept[n..][0];
  }

  // ---------------------------------------------------------------------------------------
  // Runs.

  function Submissions(acts: seq<Action>): seq<Item> {
    if acts == [] then []
    else Submissions(acts[..|acts| - 1]) + (var a := acts[|acts| - 1]; if a.Act? then Submitted(a.ev) else [])
  }

  lemma {:induction false} StepInOrder(net: Net, listen: seq<byte>, act: Action)
    requires Enabled(net, act)
    ensures Part(Step(net, listen, act).client.queue, net.client.queue + (if act.Act? then Submitted(act.ev) else []))
  {
    match act
    case Act(ev, w) => HandleInOrder(net.client, ev, w);
    case Answered(n, now, w) =>
      ReachedSame(net, listen, n, now, w);
      HandleInOrder(net.client, AnswerEvent(Reached(net, n), n, now), w);
    case Deliver(_, _, _) =>
      AllIsPart(net.client.queue);
      assert net.client.queue + [] == net.client.queue;
  }

  /** In every run the queue is what is left of the records submitted, in the order in which they were submitted. */
  lemma {:induction false} FirstInFirstOut(nets: seq<Net>, acts: seq<Action>, listen: seq<byte>, k: nat)
    requires IsRun(nets, acts, listen) && k < |nets|
    ensures Part(nets[k].client.queue, Submissions(acts[..k]))
  {
    if k > 0 {
      assert StepAt(nets, acts, listen, k - 1);
      FirstInFirstOut(nets, acts, listen, k - 1);
      StepInOrder(nets[k - 1], listen, acts[k - 1]);
      assert acts[..k][..k - 1] == acts[..k - 1] && acts[..k][k - 1] == acts[k - 1];
      var more := if acts[k - 1].Act? then Submitted(acts[k - 1].ev) else [];
      PartWithMore(nets[k - 1].client.queue, Submissions(acts[..k - 1]), more);
      PartOfPart(nets[k].client.queue, nets[k - 1].client.queue + more, Submissions(acts[..k - 1]) + more);
    }
  }

  // ---------------------------------------------------------------------------------------
  // The record being sent stays.

  lemma {:induction false} RetryKeepsQueue(c: Client, zeroDelay: bool, w: World, k: nat)
    requires c.reconnects + 1 < MAX_RECONNECTS
    ensures RetryLater(c, zeroDelay, w, k).queue == c.queue
  {
  }

  lemma {:induction false} BeginKeepsQueue(c: Client, w: World, k: nat)
    requires c.queue != [] && c.reconnects + 1 < MAX_RECONNECTS
    ensures Begin(c, w, k).queue == c.queue
  {
    if w(k).address.Some? {
      var ready := Ready(c, w(k));
      var open := if ready.open then ready else Connected(Addressed(ready, w(k)));
      SendFirstKeepsQueue(open, w, k);
    }
  }

  lemma {:induction false} SendFirstKeepsQueue(c: Client, w: World, k: nat)
    requires c.queue != [] && c.reconnects + 1 < MAX_RECONNECTS
    ensures SendFirst(c, w, k).queue == c.queue
  {
    if w(k).uriQuery.None? {
      RetryKeepsQueue(First(c, w(k)), false, w, k + 1);
    } else {
      SendKeepsQueue(First(c, w(k)).(uriQuery := w(k).uriQuery.value), w, k);
    }
  }

  lemma {:induction false} SendKeepsQueue(c: Client, w: World, k: nat)
    requires Writable(c) && c.reconnects + 1 < MAX_RECONNECTS
    ensures SendOrRetry(c, w, k).queue == c.queue
  {
    if !w(k).sendOk {
      RetryKeepsQueue(SendBlock(c, w(k)), false, w, k + 1);
    }
  }

  /** The client has run out of patience: four transmissions without an answer, or too many failed attempts. */
  predicate GivesUp(c: Client, ev: Event) {
    var overdue := ev.Turn? && (!c.open || ev.ready.None?) && AckOverdue(c, ev.now);
    || (overdue && c.retransmissions + 1 >= MAX_RETRANSMIT)
    || c.reconnects + (if overdue then 2 else 1) >= MAX_RECONNECTS
  }

  /** The server has had its say on the record. */
  predicate Settled(c: Client, ev: Event) {
    c.open && ev.Turn? && ev.ready.Some? && ev.ready.value.Received? && JudgeAck(c, ev.ready.value.pdu) == Finish
  }

  lemma {:induction false} ReadingKeepsQueue(c: Client, r: Reading, w: World)
    requires Sound(c) && c.open && c.queue != [] && c.reconnects + 1 < MAX_RECONNECTS
    requires r.Received? ==> JudgeAck(c, r.pdu) != Finish
    ensures OnReading(c, r, w).queue == c.queue
  {
    match r
    case ConnectionLost => RetryKeepsQueue(c, false, w, 0);
    case NothingToRead =>
    case Received(p) =>
      match JudgeAck(c, p) {
        case Ignore =>
        case Restart => RetryKeepsQueue(c, false, w, 1);
        case RefuseAndRestart => RetryKeepsQueue(AfterRst(c, p.token, w(0)), false, w, 1);
        case Advance => SendKeepsQueue(Advanced(c, p, w(0)), w, 0);
      }
    case Unreadable(token, flags) =>
      RetryKeepsQueue(AfterRst(c, token, w(0)), false, w, 1);
  }

  lemma {:induction false} NoAckKeepsQueue(c: Client, w: World)
    requires Writable(c) && c.reconnects + 2 < MAX_RECONNECTS && c.retransmissions + 1 < MAX_RETRANSMIT
    ensures OnNoAck(c, w).queue == c.queue
  {
    if c.encrypted {
      RetryKeepsQueue(Late(c), true, w, 1);
    } else {
      SendKeepsQueue(Late(c).(ackTimeoutMs := 2 * c.ackTimeoutMs), w, 0);
    }
  }

  /** A record stays at the head of the queue until the server has settled it or the client has run out of patience:
      it is not dropped because it has expired, nor because of anything else that is read, lost or submitted. */
  lemma {:induction false} HeadStays(c: Client, ev: Event, w: World)
    requires Sound(c) && c.queue != [] && !Settled(c, ev) && !GivesUp(c, ev)
    ensures var c' := Handle(c, ev, w); c'.queue != [] && c'.queue[0] == c.queue[0]
  {
    match ev
    case Submit(_) =>
    case Turn(ready, now) =>
      if c.open && ready.Some? {
        ReadingKeepsQueue(c, ready.value, w);
      } else if AckOverdue(c, now) {
        NoAckKeepsQueue(c, w);
      } else if ReconnectDue(c, now) {
        assert Start(c, Again, w, 0) == Begin(Cleared(c, Again, w(0)), w, 0);
        BeginKeepsQueue(Cleared(c, Again, w(0)), w, 0);
      }
  }
}
