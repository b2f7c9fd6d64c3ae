/** When a record arrives as it was sent: exactly if its session held nothing when its first block came. */
module CoapIntegrity {
  import opened CoapPdu
  import opened Options
  import opened CoapClient
  import opened CoapClientProofs
  import opened CoapWire
  import opened CoapAttempts
  import opened Network = CoapNetwork
  import Server = CoapServer

  // ---------------------------------------------------------------------------------------
  // What one step of a run does to a link.

  predicate Delivers(act: Action, a: nat) {
    act.Deliver? && act.a == a
  }

  lemma {:induction false} MovedLogs(net: Net, ev: Event, w: World, a: nat)
    requires Inv(net) && Sound(net.client) && FreshTokens(w, net.client.wire) && Parsable(ev)
    ensures var net' := Moved(net, ev, w);
            && |net.links| == |net.client.wire| <= |net'.client.wire| == |net'.links|
            && (a < |net.links| ==> net.client.wire[a] <= net'.client.wire[a] && net'.links[a] == net.links[a])
            && (|net.links| <= a < |net'.links| ==> net'.links[a] == NewLink)
  {
    HandleKeepsClient(net, ev, w);
  }

  /** What step k has done to link a. */
  ghost predicate LinkMoves(net: Net, net': Net, listen: seq<byte>, act: Action, a: nat) {
    && |net.links| == |net.client.wire| && |net'.links| == |net'.client.wire| && a < |net'.links|
    && (a < |net.links| ==> net.client.wire[a] <= net'.client.wire[a])
    && if a >= |net.links| then net'.links[a] == NewLink
       else if Delivers(act, a) then
         && act.i < |net.client.wire[a]| && net'.client == net.client
         && net'.links[a] == Serviced(net.links[a], net.client.wire[a], act.i, listen, act.e)
       else net'.links[a] == net.links[a].(answered := net'.links[a].answered)
  }

  lemma {:induction false} DeliverMoves(net: Net, listen: seq<byte>, act: Action, a: nat)
    requires Inv(net) && Enabled(net, act) && act.Deliver? && a < |net.links|
    ensures LinkMoves(net, Serve(net, listen, act.a, act.i, act.e), listen, act, a)
  {
  }

  lemma {:induction false} ActMoves(net: Net, listen: seq<byte>, act: Action, a: nat)
    requires Inv(net) && Enabled(net, act) && act.Act? && a < |Moved(net, act.ev, act.w).links|
    ensures LinkMoves(net, Moved(net, act.ev, act.w), listen, act, a)
  {
    MovedLogs(net, act.ev, act.w, a);
  }

  lemma {:induction false} StepMoves(net: Net, listen: seq<byte>, act: Action, a: nat)
    requires Inv(net) && Enabled(net, act) && a < |Step(net, listen, act).links|
    ensures LinkMoves(net, Step(net, listen, act), listen, act, a)
  {
    match act
    case Act(_, _) => ActMoves(net, listen, act, a);
    case Answered(n, now, w) =>
      ReachedSame(net, listen, n, now, w);
      AnsweredMoves(net, listen, act, a);
    case Deliver(_, _, _) => DeliverMoves(net, listen, act, a);
  }

  lemma {:induction false} AnsweredMoves(net: Net, listen: seq<byte>, act: Action, a: nat)
    requires Inv(net) && act.Answered? && Enabled(net, act) && net.links != []
    requires var before := Reached(net, act.n);
             && act.n < |before.links[|before.links| - 1].answers| && Sound(before.client)
             && a < |Moved(before, AnswerEvent(before, act.n, act.now), act.w).links|
    ensures var before := Reached(net, act.n);
            LinkMoves(net, Moved(before, AnswerEvent(before, act.n, act.now), act.w), listen, act, a)
  {
    var before := Reached(net, act.n);
    PositionIrrelevant(net, act.n);
    AnswerParses(before, act.n);
    MovedLogs(before, AnswerEvent(before, act.n, act.now), act.w, a);
    Unreached(net, before, act.n, Moved(before, AnswerEvent(before, act.n, act.now), act.w), listen, act, a);
  }

  /** What has moved from the state after a position was reached has moved from the state before. */
  lemma {:induction false} Unreached(net: Net, before: Net, n: nat, net': Net, listen: seq<byte>, act: Action, a: nat)
    requires net.links != [] && before == Reached(net, n) && act.Answered?
    requires |before.links| == |before.client.wire| <= |net'.client.wire| == |net'.links| && a < |net'.links|
    requires a < |before.links| ==> before.client.wire[a] <= net'.client.wire[a] && net'.links[a] == before.links[a]
    requires a >= |before.links| ==> net'.links[a] == NewLink
    ensures LinkMoves(net, net', listen, act, a)
  {
  }

  lemma {:induction false} LinkStep(nets: seq<Net>, acts: seq<Action>, listen: seq<byte>, k: nat, a: nat)
    requires IsRun(nets, acts, listen) && k < |acts| && a < |nets[k + 1].links|
    ensures Inv(nets[k]) && Enabled(nets[k], acts[k])
    ensures LinkMoves(nets[k], nets[k + 1], listen, acts[k], a)
  {
    RunKeeps(nets, acts, listen, k);
    assert StepAt(nets, acts, listen, k);
    StepMoves(nets[k], listen, acts[k], a);
  }

  /** Logs and sessions only go forward. */
  lemma {:induction false} GoesForward(nets: seq<Net>, acts: seq<Action>, listen: seq<byte>, m: nat, k: nat, a: nat)
    requires IsRun(nets, acts, listen) && m <= k < |nets| && a < |nets[m].links|
    ensures |nets[m].links| == |nets[m].client.wire| && a < |nets[k].links| == |nets[k].client.wire|
    ensures nets[m].client.wire[a] <= nets[k].client.wire[a]
    ensures nets[m].links[a].handled <= nets[k].links[a].handled
    decreases k - m
  {
    if m < k {
      GoesForward(nets, acts, listen, m, k - 1, a);
      LinksStay(nets, acts, listen, k - 1);
      LinkStep(nets, acts, listen, k - 1, a);
      HandledForward(nets[k - 1], nets[k], listen, acts[k - 1], a);
    } else {
      RunKeeps(nets, acts, listen, k);
    }
  }

  lemma {:induction false} LinksStay(nets: seq<Net>, acts: seq<Action>, listen: seq<byte>, k: nat)
    requires IsRun(nets, acts, listen) && k < |acts|
    ensures |nets[k].links| <= |nets[k + 1].links|
    ensures nets[k].completed <= nets[k + 1].completed
    ensures nets[k].submitted <= nets[k + 1].submitted
  {
    assert StepAt(nets, acts, listen, k);
  }

  lemma {:induction false} HandledForward(net: Net, net': Net, listen: seq<byte>, act: Action, a: nat)
    requires Inv(net) && Enabled(net, act) && LinkMoves(net, net', listen, act, a) && a < |net.links|
    ensures net.links[a].handled <= net'.links[a].handled
  {
    assert LinkOk(net.completed, a, net.client.wire[a], net.links[a]);
  }

  // ---------------------------------------------------------------------------------------
  // Where a record begins.

  /** The session of link a takes the first block of the attempt with this token. */
  predicate OpensOn(net: Net, listen: seq<byte>, act: Action, a: nat, token: seq<byte>) {
    && Delivers(act, a) && a < |net.links| && a < |net.client.wire| && act.i < |net.client.wire[a]|
    && net.client.wire[a][act.i].Block? && net.client.wire[a][act.i].pdu.token == token
    && var v := Judged(net.links[a], net.client.wire[a], act.i, listen); v.Take? && v.opening
  }

  /** The server starts a record on top of another one. */
  predicate MixingAction(net: Net, listen: seq<byte>, act: Action) {
    act.Deliver? && act.a < |net.links| && act.a < |net.client.wire| && act.i < |net.client.wire[act.a]| &&
    Mixes(net.links[act.a], net.client.wire[act.a], act.i, listen)
  }

  /** A delivery that leaves a session in the middle of a record has either begun it, on top of what the session
      held, or found it so. */
  lemma {:induction false} BegunOrFound(completed: seq<Completion>, a: nat, log: Log, link: Link, i: nat,
                                        listen: seq<byte>, e: Server.Surroundings)
    requires LogOk(log) && LinkOk(completed, a, log, link) && link.reached <= i < |log|
    requires Serviced(link, log, i, listen, e).session.assembly.Partial?
    ensures var v, link' := Judged(link, log, i, listen), Serviced(link, log, i, listen, e);
            if v.Take? && v.opening then
              && log[i].Block? && link'.session.assembly.token == log[i].pdu.token
              && link'.leftover == Server.Held(link.session.assembly)
            else
              && link.session.assembly.Partial? && link'.leftover == link.leftover
              && link'.session.assembly.token == link.session.assembly.token
  {
    VerdictOnEntry(completed, a, log, link, i, listen);
    if Judged(link, log, i, listen).Take? {
      TakesNextPiece(completed, a, log, link, i, listen);
      Server.TakenBlock(link.session, log[i].pdu, listen);
    }
  }

  lemma {:induction false} StepBegunOrFound(net: Net, net': Net, listen: seq<byte>, act: Action, a: nat)
    requires Inv(net) && Enabled(net, act) && LinkMoves(net, net', listen, act, a)
    requires net'.links[a].session.assembly.Partial?
    ensures var token := net'.links[a].session.assembly.token;
            && a < |net.links|
            && if OpensOn(net, listen, act, a, token) then net'.links[a].leftover == Server.Held(net.links[a].session.assembly)
               else
                 && net.links[a].session.assembly.Partial? && net.links[a].session.assembly.token == token
                 && net'.links[a].leftover == net.links[a].leftover
  {
    if Delivers(act, a) {
      assert LogOk(net.client.wire[a]) && LinkOk(net.completed, a, net.client.wire[a], net.links[a]);
      BegunOrFound(net.completed, a, net.client.wire[a], net.links[a], act.i, listen, act.e);
    }
  }

  /** The step at which the record being assembled was begun. */
  lemma {:induction false} HeldSince(nets: seq<Net>, acts: seq<Action>, listen: seq<byte>, k: nat, a: nat) returns (m: nat)
    requires IsRun(nets, acts, listen) && k < |nets| && a < |nets[k].links|
    requires nets[k].links[a].session.assembly.Partial?
    ensures m < k && OpensOn(nets[m], listen, acts[m], a, nets[k].links[a].session.assembly.token)
    ensures nets[k].links[a].leftover == Server.Held(nets[m].links[a].session.assembly)
  {
    if k == 0 {
      assert false;
    } else {
      LinkStep(nets, acts, listen, k - 1, a);
      StepBegunOrFound(nets[k - 1], nets[k], listen, acts[k - 1], a);
      if OpensOn(nets[k - 1], listen, acts[k - 1], a, nets[k].links[a].session.assembly.token) {
        m := k - 1;
      } else {
        m := HeldSince(nets, acts, listen, k - 1, a);
      }
    }
  }

  lemma {:induction false} StepCompletes(net: Net, listen: seq<byte>, act: Action)
    requires Enabled(net, act)
    ensures var completed := Step(net, listen, act).completed;
            || completed == net.completed
            || (act.Deliver? && |completed| == |net.completed| + 1 && net.completed <= completed)
  {
  }

  /** A completion is made by a delivery of the last block of its record. */
  lemma {:induction false} CompletedBy(nets: seq<Net>, acts: seq<Action>, listen: seq<byte>, k: nat, n: nat) returns (m: nat)
    requires IsRun(nets, acts, listen) && k < |nets| && n < |nets[k].completed|
    ensures m < k && |nets[m].completed| == n && n < |nets[m + 1].completed|
    ensures nets[m + 1].completed[n] == nets[k].completed[n] && acts[m].Deliver?
  {
    if k == 0 {
      assert false;
    } else {
      assert StepAt(nets, acts, listen, k - 1);
      StepCompletes(nets[k - 1], listen, acts[k - 1]);
      if n < |nets[k - 1].completed| {
        m := CompletedBy(nets, acts, listen, k - 1, n);
      } else {
        m := k - 1;
      }
    }
  }

  /** The last block of a record is also its first, or continues the record its session is in the middle of. */
  lemma {:induction false} CompletesOrOpens(completed: seq<Completion>, a: nat, log: Log, link: Link, i: nat,
                                            listen: seq<byte>, e: Server.Surroundings)
    requires LogOk(log) && LinkOk(completed, a, log, link) && link.reached <= i < |log|
    requires Network.Received(link, log, i, listen, e).completed.Some?
    ensures log[i].Block?
    ensures var v := Judged(link, log, i, listen);
            && v.Take?
            && Leftover(link, log, i, listen) == (if v.opening then Server.Held(link.session.assembly) else link.leftover)
            && (!v.opening ==> link.session.assembly.Partial? && link.session.assembly.token == log[i].pdu.token)
  {
    CompletesWhole(completed, a, log, link, i, listen, e);
    Server.TakenBlock(link.session, log[i].pdu, listen);
  }

  /** The step at which a completed record was begun. */
  lemma {:induction false} BegunAt(nets: seq<Net>, acts: seq<Action>, listen: seq<byte>, k: nat, n: nat) returns (m: nat)
    requires IsRun(nets, acts, listen) && k < |nets| && n < |nets[k].completed|
    ensures CompletionOk(nets[k], nets[k].completed[n])
    ensures var done := nets[k].completed[n];
            && m < k && OpensOn(nets[m], listen, acts[m], done.link, Of(nets[k], done).pdu.token)
            && done.leftover == Server.Held(nets[m].links[done.link].session.assembly)
  {
    CompletedWasSubmitted(nets, acts, listen, k, n);
    var done := nets[k].completed[n];
    var j := CompletedBy(nets, acts, listen, k, n);
    m := BegunBy(nets, acts, listen, j, done);
    var a := done.link;
    LinksStay(nets, acts, listen, j);
    GoesForward(nets, acts, listen, j, k, a);
    assert nets[j].client.wire[a][done.entry] == nets[k].client.wire[a][done.entry];
  }

  lemma {:induction false} BegunBy(nets: seq<Net>, acts: seq<Action>, listen: seq<byte>, j: nat, done: Completion) returns (m: nat)
    requires IsRun(nets, acts, listen) && j < |acts| && acts[j].Deliver?
    requires |nets[j].completed| < |nets[j + 1].completed| && nets[j + 1].completed[|nets[j].completed|] == done
    ensures done.link < |nets[j].links| && done.link < |nets[j].client.wire| && done.entry < |nets[j].client.wire[done.link]|
    ensures m <= j && OpensOn(nets[m], listen, acts[m], done.link, nets[j].client.wire[done.link][done.entry].pdu.token)
    ensures done.leftover == Server.Held(nets[m].links[done.link].session.assembly)
  {
    RunKeeps(nets, acts, listen, j);
    assert StepAt(nets, acts, listen, j);
    var net, a, i, e := nets[j], acts[j].a, acts[j].i, acts[j].e;
    assert LogOk(net.client.wire[a]) && LinkOk(net.completed, a, net.client.wire[a], net.links[a]);
    CompletesOrOpens(net.completed, a, net.client.wire[a], net.links[a], i, listen, e);
    if Judged(net.links[a], net.client.wire[a], i, listen).opening {
      m := j;
    } else {
      m := HeldSince(nets, acts, listen, j, a);
    }
  }

  /** The first block that an opening takes. */
  lemma {:induction false} OpeningTakes(net: Net, listen: seq<byte>, act: Action, a: nat, token: seq<byte>)
    requires Inv(net) && Enabled(net, act) && OpensOn(net, listen, act, a, token)
    ensures var log := net.client.wire[a];
            && LogOk(log) && WellCut(log[act.i]) && Num(log[act.i]) == 0 && net.links[a].handled < act.i
            && Serviced(net.links[a], log, act.i, listen, act.e).handled == act.i
  {
    var log, link := net.client.wire[a], net.links[a];
    assert LogOk(log) && LinkOk(net.completed, a, log, link);
    VerdictOnEntry(net.completed, a, log, link, act.i, listen);
    TakesNextPiece(net.completed, a, log, link, act.i, listen);
    Server.TakenBlock(link.session, log[act.i].pdu, listen);
  }

  lemma {:induction false} OneFirstBlock(log: Log, i: nat, j: nat)
    requires LogOk(log) && i < j < |log| && SameAttempt(log, i, j)
    ensures WellCut(log[j]) && Num(log[j]) > 0
  {
    assert StepOk(Before(log, j), log[j]);
  }

  /** No attempt is begun twice. */
  lemma {:induction false} BegunOnce(nets: seq<Net>, acts: seq<Action>, listen: seq<byte>, m: nat, j: nat, a: nat, token: seq<byte>)
    requires IsRun(nets, acts, listen) && m < j < |acts|
    requires OpensOn(nets[m], listen, acts[m], a, token)
    ensures !OpensOn(nets[j], listen, acts[j], a, token)
  {
    var i := acts[m].i;
    HandledSince(nets, acts, listen, m, j, a, token);
    if OpensOn(nets[j], listen, acts[j], a, token) {
      RunKeeps(nets, acts, listen, j);
      assert StepAt(nets, acts, listen, j);
      OpeningTakes(nets[j], listen, acts[j], a, token);
      OneFirstBlock(nets[j].client.wire[a], i, acts[j].i);
    }
  }

  /** The first block stays handled. */
  lemma {:induction false} HandledSince(nets: seq<Net>, acts: seq<Action>, listen: seq<byte>, m: nat, j: nat, a: nat, token: seq<byte>)
    requires IsRun(nets, acts, listen) && m < j < |nets| && OpensOn(nets[m], listen, acts[m], a, token)
    ensures a < |nets[j].links| == |nets[j].client.wire|
    ensures acts[m].i <= nets[j].links[a].handled && acts[m].i < |nets[j].client.wire[a]|
    ensures nets[j].client.wire[a][acts[m].i] == nets[m].client.wire[a][acts[m].i]
  {
    LinksStay(nets, acts, listen, m);
    LinkStep(nets, acts, listen, m, a);
    OpeningTakes(nets[m], listen, acts[m], a, token);
    GoesForward(nets, acts, listen, m + 1, j, a);
  }

  // ---------------------------------------------------------------------------------------
  // What a session holds besides the record it assembles.

  /** `bytes` is made of beginnings of these records, one behind the other; a beginning may be the whole record. */
  ghost predicate Beginnings(bytes: seq<byte>, records: set<seq<byte>>)
    decreases |bytes|
  {
    bytes == [] ||
    exists k, r :: 0 <= k < |bytes| && r in records && bytes[k..] <= r && Beginnings(bytes[..k], records)
  }

  lemma {:induction false} BeginningsMonotone(bytes: seq<byte>, records: set<seq<byte>>, more: set<seq<byte>>)
    requires Beginnings(bytes, records) && records <= more
    ensures Beginnings(bytes, more)
    decreases |bytes|
  {
    if bytes != [] {
      var k, r :| 0 <= k < |bytes| && r in records && bytes[k..] <= r && Beginnings(bytes[..k], records);
      BeginningsMonotone(bytes[..k], records, more);
    }
  }

  lemma {:induction false} OneMoreBeginning(bytes: seq<byte>, r: seq<byte>, n: nat, records: set<seq<byte>>)
    requires Beginnings(bytes, records) && r in records && n <= |r|
    ensures Beginnings(bytes + r[..n], records)
  {
    var all := bytes + r[..n];
    if n == 0 {
      assert all == bytes;
    } else {
      assert all[..|bytes|] == bytes && all[|bytes|..] == r[..n];
    }
  }

  /** A session holds its leftover and the beginning of the record it is in the middle of. */
  lemma {:induction false} HeldIsOneMore(net: Net, a: nat)
    requires Inv(net) && a < |net.links| && Beginnings(net.links[a].leftover, net.submitted)
    ensures Beginnings(Server.Held(net.links[a].session.assembly), net.submitted)
  {
    var link, log := net.links[a], net.client.wire[a];
    assert LinkOk(net.completed, a, log, link);
    if link.session.assembly.Partial? {
      var e := log[link.handled];
      CutPieces(e);
      OneMoreBeginning(link.leftover, e.record, e.offset + |e.pdu.payload|, net.submitted);
    }
  }

  lemma {:induction false} BeginningsMove(net: Net, net': Net, listen: seq<byte>, act: Action, a: nat)
    requires LinkMoves(net, net', listen, act, a) && net.submitted <= net'.submitted
    requires a < |net.links| ==>
               && Beginnings(net.links[a].leftover, net.submitted)
               && Beginnings(Server.Held(net.links[a].session.assembly), net.submitted)
    ensures Beginnings(net'.links[a].leftover, net'.submitted)
  {
    if a < |net.links| {
      BeginningsMonotone(net.links[a].leftover, net.submitted, net'.submitted);
      BeginningsMonotone(Server.Held(net.links[a].session.assembly), net.submitted, net'.submitted);
    }
  }

  /** What a session holds is made of beginnings of submitted records. */
  lemma {:induction false} HoldsBeginnings(nets: seq<Net>, acts: seq<Action>, listen: seq<byte>, k: nat, a: nat)
    requires IsRun(nets, acts, listen) && k < |nets| && a < |nets[k].links|
    ensures Beginnings(nets[k].links[a].leftover, nets[k].submitted)
    ensures Beginnings(Server.Held(nets[k].links[a].session.assembly), nets[k].submitted)
  {
    if k > 0 {
      if a < |nets[k - 1].links| {
        HoldsBeginnings(nets, acts, listen, k - 1, a);
      }
      LinkStep(nets, acts, listen, k - 1, a);
      LinksStay(nets, acts, listen, k - 1);
      BeginningsMove(nets[k - 1], nets[k], listen, acts[k - 1], a);
    }
    RunKeeps(nets, acts, listen, k);
    HeldIsOneMore(nets[k], a);
  }

  // ---------------------------------------------------------------------------------------
  // Integrity.

  /** The record of a completion, byte for byte. */
  ghost predicate Intact(net: Net, n: nat) {
    n < |net.completed| && CompletionOk(net, net.completed[n]) && net.completed[n].bytes == Of(net, net.completed[n]).record
  }

  /** The first block of the record of completion n is taken by this action. */
  ghost predicate Begins(net: Net, listen: seq<byte>, act: Action, last: Net, n: nat) {
    && n < |last.completed| && CompletionOk(last, last.completed[n])
    && OpensOn(net, listen, act, last.completed[n].link, Of(last, last.completed[n]).pdu.token)
  }

  lemma {:induction false} BehindNothing(front: seq<byte>, record: seq<byte>)
    ensures front + record == record <==> front == []
  {
    if front + record == record {
      assert |front + record| == |front| + |record|;
    }
  }

  /** Whatever was lost, repeated, restarted or given up: a record the server takes for complete is a submitted
      record, behind what its session held at the one step at which the record was begun. So it is byte for byte
      the submitted one exactly if that session held nothing; else it has beginnings of submitted records in front. */
  lemma {:induction false} Integrity(nets: seq<Net>, acts: seq<Action>, listen: seq<byte>, k: nat, n: nat) returns (m: nat)
    requires IsRun(nets, acts, listen) && k < |nets| && n < |nets[k].completed|
    ensures CompletionOk(nets[k], nets[k].completed[n]) && Of(nets[k], nets[k].completed[n]).record in nets[k].submitted
    ensures m < k && Begins(nets[m], listen, acts[m], nets[k], n)
    ensures forall j :: 0 <= j < k && Begins(nets[j], listen, acts[j], nets[k], n) ==> j == m
    ensures var held := Server.Held(nets[m].links[acts[m].a].session.assembly);
            && nets[k].completed[n].bytes == held + Of(nets[k], nets[k].completed[n]).record
            && Beginnings(held, nets[m].submitted)
    ensures Intact(nets[k], n) <==> !MixingAction(nets[m], listen, acts[m])
  {
    CompletedWasSubmitted(nets, acts, listen, k, n);
    m := BegunAt(nets, acts, listen, k, n);
    var done, token := nets[k].completed[n], Of(nets[k], nets[k].completed[n]).pdu.token;
    forall j | 0 <= j < k && Begins(nets[j], listen, acts[j], nets[k], n) ensures j == m {
      if j < m {
        BegunOnce(nets, acts, listen, j, m, done.link, token);
      } else if m < j {
        BegunOnce(nets, acts, listen, m, j, done.link, token);
      }
    }
    HoldsBeginnings(nets, acts, listen, m, done.link);
    BehindNothing(done.leftover, Of(nets[k], done).record);
  }

  /** So all records of a run are intact exactly if none of them was begun on top of another one. */
  lemma {:induction false} IntactUnlessMixed(nets: seq<Net>, acts: seq<Action>, listen: seq<byte>, k: nat)
    requires IsRun(nets, acts, listen) && k < |nets|
    ensures (forall n :: 0 <= n < |nets[k].completed| ==> Intact(nets[k], n)) <==>
            (forall m, n :: 0 <= m < k && 0 <= n && Begins(nets[m], listen, acts[m], nets[k], n) ==>
               !MixingAction(nets[m], listen, acts[m]))
  {
    if forall n :: 0 <= n < |nets[k].completed| ==> Intact(nets[k], n) {
      forall m, n: int | 0 <= m < k && 0 <= n && Begins(nets[m], listen, acts[m], nets[k], n)
        ensures !MixingAction(nets[m], listen, acts[m])
      {
        var m' := Integrity(nets, acts, listen, k, n);
        assert Intact(nets[k], n);
      }
    }
    if forall m, n :: 0 <= m < k && 0 <= n && Begins(nets[m], listen, acts[m], nets[k], n) ==>
        !MixingAction(nets[m], listen, acts[m])
    {
      forall n: int | 0 <= n < |nets[k].completed| ensures Intact(nets[k], n) {
        var m := Integrity(nets, acts, listen, k, n);
      }
    }
  }
}
