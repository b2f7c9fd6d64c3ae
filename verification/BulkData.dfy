/** Bulk data profiles: when the next report is due, and which unsent reports are retained. */
module BulkData {
  import opened Options

  // ---------------------------------------------------------------------------------------
  // The reporting grid.

  /** The remainder of C: it has the sign of the dividend. */
  function TruncatedRemainder(a: int, b: int): int
    requires b > 0
  {
    if a >= 0 then a % b else -((-a) % b)
  }

  function NextInterval(now: int, interval: int, reference: int): int
    requires interval > 0
  {
    var wait := interval - TruncatedRemainder(now - reference, interval);
    if wait > interval then wait - interval else wait
  }

  /** A report is due at `time`: it is a whole number of intervals away from the reference. */
  predicate OnGrid(time: int, interval: int, reference: int)
    requires interval > 0
  {
    (time - reference) % interval == 0
  }

  lemma {:induction false} RemainderWithin(x: int, w: int, interval: int)
    requires interval > 0 && 0 < w <= interval
    ensures (x + w) % interval == 0 <==> w == interval - x % interval
  {
    var q, r := x / interval, x % interval;
    assert x == q * interval + r;
    if w == interval - r {
      assert x + w == (q + 1) * interval;
      Multiple(q + 1, interval);
    } else if w < interval - r {
      Offset(q, interval, r + w);
    } else {
      assert x + w == (q + 1) * interval + (r + w - interval);
      Offset(q + 1, interval, r + w - interval);
    }
  }

  lemma {:induction false} Product(a: int, b: int)
    requires a >= 0 && b >= 0
    ensures a * b >= 0
  {
  }

  lemma {:induction false} AtLeastOneStep(k: int, d: int)
    requires k != 0 && d > 0
    ensures k * d >= d || k * d <= -d
  {
    if k > 0 {
      Product(k - 1, d);
      assert (k - 1) * d == k * d - d;
    } else {
      Product(-k - 1, d);
      assert (-k - 1) * d == -(k * d) - d;
    }
  }

  lemma {:induction false} Offset(q: int, d: int, r: int)
    requires 0 <= r < d
    ensures (q * d + r) % d == r
  {
    var p, s := (q * d + r) / d, (q * d + r) % d;
    assert (q - p) * d == s - r by {
      assert q * d + r == p * d + s;
      assert (q - p) * d == q * d - p * d;
    }
    if q != p {
      AtLeastOneStep(q - p, d);
    }
  }

  lemma {:induction false} Multiple(q: int, d: int)
    requires d > 0
    ensures (q * d) % d == 0
  {
    Offset(q, d, 0);
  }

  lemma {:induction false} NegatedRemainder(x: int, d: int)
    requires d > 0
    ensures (-x) % d == if x % d == 0 then 0 else d - x % d
  {
    var q, r := x / d, x % d;
    assert x == q * d + r;
    if r == 0 {
      assert -x == (-q) * d;
      Multiple(-q, d);
    } else {
      assert -x == (-q - 1) * d + (d - r);
      Offset(-q - 1, d, d - r);
    }
  }

  /** Whether the reference lies in the past or in the future, the wait is the least positive time after
      which a report is due; it is never zero. */
  lemma {:induction false} NextIntervalIsLeast(now: int, interval: int, reference: int)
    requires interval > 0
    ensures var w := NextInterval(now, interval, reference);
            && 0 < w <= interval && OnGrid(now + w, interval, reference)
            && forall time :: now < time < now + w ==> !OnGrid(time, interval, reference)
  {
    var w := NextInterval(now, interval, reference);
    WaitIsDistance(now, interval, reference);
    forall time | now < time <= now + w ensures OnGrid(time, interval, reference) <==> time == now + w {
      assert time - reference == (now - reference) + (time - now);
      RemainderWithin(now - reference, time - now, interval);
    }
  }

  lemma {:induction false} WaitIsDistance(now: int, interval: int, reference: int)
    requires interval > 0
    ensures NextInterval(now, interval, reference) == interval - (now - reference) % interval
  {
    NegatedRemainder(reference - now, interval);
    assert -(reference - now) == now - reference;
  }

  // ---------------------------------------------------------------------------------------
  // A profile.

  const MAX_RETAINED: nat := 3

  datatype Report = Report(collected: int, contents: string)

  /** `history` is everything collected since the reports were last cleared. */
  datatype Profile = Profile(retained: seq<Report>, retryCount: nat, history: seq<Report>)

  const NewProfile := Profile([], 0, [])

  function Cleared(p: Profile): Profile {
    NewProfile
  }

  function Newest(reports: seq<Report>, n: nat): seq<Report> {
    if |reports| <= n then reports else reports[|reports| - n..]
  }

  /** What is due next: the report of the grid, or the retry if it comes earlier. */
  datatype Due = Due(wait: int, retryCount: nat)

  /** The earlier of the two is taken, and a retry goes on exactly if it comes strictly first. */
  function NextSend(retryCount: nat, grid: int, retryWait: int): (d: Due)
    ensures d.wait <= grid && (retryCount != 0 ==> d.wait <= retryWait) && (d.wait == grid || d.wait == retryWait)
    ensures retryCount == 0 ==> d.wait == grid
    ensures d.retryCount == 0 || d.retryCount == retryCount
    ensures d.retryCount != 0 <==> retryCount != 0 && d.wait == retryWait < grid
  {
    if retryCount != 0 && retryWait < grid then Due(retryWait, retryCount) else Due(grid, 0)
  }

  datatype Event =
    | Process(limit: nat, report: Option<Report>, failed: bool, retry: bool, grid: int, retryWait: int)
    | TransferResult(success: bool, retry: bool, grid: int, retryWait: int)
    | PushEvent(push: Push, grid: int, retryWait: int)
    | Resync(grid: int, retryWait: int)
    | Stop

  /** How far sending a report as an event gets: notifications may not be enabled yet, the name of the time
      stamp may be unknown, the report may not be put together, or not be generated. */
  datatype Push = NotYet | NoTimestamp | NoReport | Pushed(report: Report, generated: bool)

  /** The retry is cancelled if the grid is not later. */
  function Resynced(p: Profile, grid: int, retryWait: int): Profile {
    p.(retryCount := NextSend(p.retryCount, grid, retryWait).retryCount)
  }

  /** A transfer ended: reports that have been sent are not retained, and a failure starts or continues the retries. */
  function AfterTransfer(p: Profile, success: bool, retry: bool, grid: int, retryWait: int): Profile {
    var q := if success then Cleared(p) else if retry then p.(retryCount := p.retryCount + 1) else p;
    Resynced(q, grid, retryWait)
  }

  /** A report is collected unless this is a retry; `report` is missing if it cannot be put together. */
  function Collected(p: Profile, limit: nat, report: Option<Report>): Profile {
    if p.retryCount != 0 then p
    else
      var kept := Newest(p.retained, limit);
      if report.None? then p.(retained := kept)
      else p.(retained := kept + [report.value], history := p.history + [report.value])
  }

  function Handle(p: Profile, ev: Event): Profile {
    match ev
    case Process(limit, report, failed, retry, grid, retryWait) =>
      var q := Collected(p, limit, report);
      if failed && !(p.retryCount == 0 && report.None?) then AfterTransfer(q, false, retry, grid, retryWait) else q
    case TransferResult(success, retry, grid, retryWait) => AfterTransfer(p, success, retry, grid, retryWait)
    case PushEvent(push, grid, retryWait) => AfterPush(p, push, grid, retryWait)
    case Resync(grid, retryWait) => Resynced(p, grid, retryWait)
    case Stop => Cleared(p)
  }

  /** Nothing is retained once a report has been generated; only one that was not generated stays. */
  function AfterPush(p: Profile, push: Push, grid: int, retryWait: int): Profile {
    match push
    case NotYet => Resynced(p, grid, retryWait)
    case NoTimestamp => p
    case NoReport => Cleared(p)
    case Pushed(report, generated) => if generated then Cleared(p) else Profile([report], 0, [report])
  }

  predicate Legal(ev: Event) {
    ev.Process? ==> ev.limit <= MAX_RETAINED
  }

  function Run(p: Profile, evs: seq<Event>): Profile
    decreases |evs|
  {
    if evs == [] then p else Run(Handle(p, evs[0]), evs[1..])
  }

  /** The retained reports are the newest ones collected since the last clearing, in the order of collection. */
  predicate Window(p: Profile) {
    && |p.retained| <= MAX_RETAINED + 1
    && |p.retained| <= |p.history|
    && p.retained == p.history[|p.history| - |p.retained|..]
  }

  lemma {:induction false} NewestKeepsWindow(p: Profile, n: nat)
    requires Window(p)
    ensures Window(p.(retained := Newest(p.retained, n))) && |Newest(p.retained, n)| <= n
  {
    var kept := Newest(p.retained, n);
    assert kept == p.history[|p.history| - |kept|..];
  }

  lemma {:induction false} OneMoreKeepsWindow(p: Profile, r: Report)
    requires Window(p) && |p.retained| <= MAX_RETAINED
    ensures Window(p.(retained := p.retained + [r], history := p.history + [r]))
  {
  }

  lemma {:induction false} SingleReport(r: Report)
    ensures Window(Profile([r], 0, [r]))
  {
    assert [r] == [r][0..];
  }

  lemma {:induction false} CollectedKeepsWindow(p: Profile, limit: nat, report: Option<Report>)
    requires Window(p) && limit <= MAX_RETAINED
    ensures var q := Collected(p, limit, report);
            Window(q) &&
            (p.retryCount == 0 && report.Some? ==> |q.retained| <= limit + 1 && report.value in q.retained)
  {
    var kept := Newest(p.retained, limit);
    NewestKeepsWindow(p, limit);
    if report.Some? {
      OneMoreKeepsWindow(p.(retained := kept), report.value);
      assert (kept + [report.value])[|kept|] == report.value;
    }
  }

  /** Ending a transfer or starting the timer anew touches the retry count only, unless everything is cleared. */
  lemma {:induction false} TransferKeepsReports(p: Profile, success: bool, retry: bool, grid: int, retryWait: int)
    ensures var q := AfterTransfer(p, success, retry, grid, retryWait);
            if success then q == NewProfile else q.retained == p.retained && q.history == p.history
  {
  }

  lemma {:induction false} ProcessKeepsReports(p: Profile, ev: Event)
    requires ev.Process?
    ensures var q := Collected(p, ev.limit, ev.report);
            Handle(p, ev).retained == q.retained && Handle(p, ev).history == q.history
  {
    TransferKeepsReports(Collected(p, ev.limit, ev.report), false, ev.retry, ev.grid, ev.retryWait);
  }

  lemma {:induction false} PushKeepsWindow(p: Profile, push: Push, grid: int, retryWait: int)
    requires Window(p)
    ensures Window(AfterPush(p, push, grid, retryWait))
  {
    if push.Pushed? {
      SingleReport(push.report);
    }
  }

  lemma {:induction false} HandleKeepsWindow(p: Profile, ev: Event)
    requires Window(p) && Legal(ev)
    ensures Window(Handle(p, ev))
    ensures ev.Process? && p.retryCount == 0 && ev.report.Some? ==>
              |Handle(p, ev).retained| <= ev.limit + 1 && ev.report.value in Handle(p, ev).retained
    ensures ev.Process? && p.retryCount != 0 ==>
              Handle(p, ev).retained == p.retained && Handle(p, ev).history == p.history
  {
    match ev
    case Process(limit, report, _, _, _, _) =>
      CollectedKeepsWindow(p, limit, report);
      ProcessKeepsReports(p, ev);
    case TransferResult(success, retry, grid, retryWait) => TransferKeepsReports(p, success, retry, grid, retryWait);
    case PushEvent(push, grid, retryWait) => PushKeepsWindow(p, push, grid, retryWait);
    case Resync(_, _) =>
    case Stop =>
  }

  /** In every run of collections, failures, retries, successes and changes of the limit. */
  lemma {:induction false} RunKeepsWindow(p: Profile, evs: seq<Event>)
    requires Window(p) && forall i :: 0 <= i < |evs| ==> Legal(evs[i])
    ensures Window(Run(p, evs))
    decreases |evs|
  {
    if evs != [] {
      HandleKeepsWindow(p, evs[0]);
      RunKeepsWindow(Handle(p, evs[0]), evs[1..]);
    }
  }

  // ---------------------------------------------------------------------------------------
  // What is not lost.

  /** The report collected as number `k` since the last clearing is still retained. */
  predicate Retains(p: Profile, k: nat)
    requires Window(p)
  {
    |p.history| - |p.retained| <= k < |p.history|
  }

  lemma {:induction false} CollectedExactly(p: Profile, limit: nat, report: Option<Report>)
    requires p.retryCount == 0
    ensures var q, one := Collected(p, limit, report), if report.Some? then [report.value] else [];
            && |q.retained| == (if |p.retained| < limit then |p.retained| else limit) + |one|
            && q.history == p.history + one
  {
  }

  /** A collection drops a report only if as many newer ones as the limit allows were retained; the report collected,
      if there is one, is retained besides. Whether the transfer then fails makes no difference. */
  lemma {:induction false} DropsOnlyOldest(p: Profile, ev: Event, k: nat)
    requires Window(p) && Legal(ev) && ev.Process? && p.retryCount == 0
    ensures var q := Handle(p, ev);
            && Window(q) && q.history == p.history + (if ev.report.Some? then [ev.report.value] else [])
            && |q.retained| == (if |p.retained| < ev.limit then |p.retained| else ev.limit) + (if ev.report.Some? then 1 else 0)
            && (Retains(p, k) ==> (Retains(q, k) <==> |p.history| - k <= ev.limit))
            && (ev.report.Some? ==> Retains(q, |p.history|))
  {
    HandleKeepsWindow(p, ev);
    ProcessKeepsReports(p, ev);
    CollectedExactly(p, ev.limit, ev.report);
  }

  /** At least the newest `n` reports are retained. */
  predicate Enough(p: Profile, n: nat) {
    |p.retained| >= n || p.retained == p.history
  }

  predicate Allows(ev: Event, n: nat) {
    Legal(ev) && (ev.Process? ==> n <= ev.limit)
  }

  lemma {:induction false} HandleRetains(p: Profile, ev: Event, n: nat)
    requires Window(p) && Enough(p, n) && Allows(ev, n)
    ensures Window(Handle(p, ev)) && Enough(Handle(p, ev), n)
  {
    HandleKeepsWindow(p, ev);
    if ev.Process? {
      if p.retryCount == 0 {
        DropsOnlyOldest(p, ev, 0);
        var q := Handle(p, ev);
        if |q.retained| == |q.history| {
          assert q.retained == q.history[0..];
        }
      }
    } else if ev.TransferResult? {
      TransferKeepsReports(p, ev.success, ev.retry, ev.grid, ev.retryWait);
    }
  }

  /** If the limit never falls below `n`, at least the newest `n` reports that have not been sent are retained in every
      run, however often transfers fail, are retried or are given up. */
  lemma {:induction false} RunRetains(p: Profile, evs: seq<Event>, n: nat)
    requires Window(p) && Enough(p, n) && forall i :: 0 <= i < |evs| ==> Allows(evs[i], n)
    ensures Window(Run(p, evs)) && Enough(Run(p, evs), n)
    decreases |evs|
  {
    if evs != [] {
      HandleRetains(p, evs[0], n);
      RunRetains(Handle(p, evs[0]), evs[1..], n);
    }
  }

  /** A transfer that failed counts as one more try if it may be tried again. The next try goes on exactly if it comes
      before the next report; otherwise the reports wait for that. */
  lemma {:induction false} FailureIsRetried(p: Profile, retry: bool, grid: int, retryWait: int)
    ensures var q := Handle(p, TransferResult(false, retry, grid, retryWait));
            && q.retained == p.retained && q.history == p.history
            && (q.retryCount != 0 <==> (retry || p.retryCount != 0) && retryWait < grid)
            && (q.retryCount != 0 ==> q.retryCount == p.retryCount + (if retry then 1 else 0))
  {
  }

  /** Sending as an event retains no more than the one report that could not be sent, and loses nothing before
      notifications are enabled. */
  lemma {:induction false} PushRetains(p: Profile, push: Push, grid: int, retryWait: int)
    ensures var q := Handle(p, PushEvent(push, grid, retryWait));
            match push
            case NotYet => q.retained == p.retained
            case NoTimestamp => q == p
            case NoReport => q.retained == []
            case Pushed(report, generated) => q.retained == if generated then [] else [report]
  {
  }

  /** A failed transfer of what has just been collected is treated like a failure reported later; a report that cannot
      be put together is no transfer. */
  lemma {:induction false} FailsLater(p: Profile, limit: nat, report: Option<Report>, retry: bool, grid: int, retryWait: int)
    ensures Handle(p, Process(limit, report, true, retry, grid, retryWait)) ==
              var q := Handle(p, Process(limit, report, false, retry, grid, retryWait));
              if p.retryCount == 0 && report.None? then q else Handle(q, TransferResult(false, retry, grid, retryWait))
  {
  }

  // ---------------------------------------------------------------------------------------
  // The object.

  class BulkDataProfile {
    const reports: array<Report>
    var numRetained: nat
    var retryCount: nat
    ghost var history: seq<Report>

    ghost predicate Valid()
      reads this, reports
    {
      reports.Length == MAX_RETAINED + 1 && numRetained <= reports.Length
    }

    ghost function Value(): Profile
      requires numRetained <= reports.Length
      reads this, reports
    {
      Profile(reports[..numRetained], retryCount, history)
    }

    constructor ()
      ensures Valid() && fresh(reports) && Value() == NewProfile
    {
      reports := new Report[MAX_RETAINED + 1](_ => Report(0, ""));
      numRetained, retryCount, history := 0, 0, [];
    }

    method ClearRetainedReports()
      requires Valid()
      modifies this, reports
      ensures Valid() && Value() == NewProfile && retryCount == 0
    {
      var i := 0;
      while i < numRetained
        invariant i <= numRetained <= reports.Length
      {
        reports[i] := Report(0, "");
        i := i + 1;
      }
      numRetained, retryCount, history := 0, 0, [];
    }

    /** Moves the newest reports down over the oldest. */
    method DropOldestRetainedReports(keep: nat)
      requires Valid() && keep < numRetained
      modifies this`numRetained, reports
      ensures Valid() && Value() == old(Value()).(retained := Newest(old(Value()).retained, keep))
    {
      MoveDown(numRetained - keep, keep);
      assert reports[..keep] == old(reports[..numRetained])[numRetained - keep..];
      numRetained := keep;
    }

    /** Moves `n` reports down by `drop` positions. */
    method MoveDown(drop: nat, n: nat)
      requires drop > 0 && drop + n <= reports.Length
      modifies reports
      ensures forall k :: 0 <= k < n ==> reports[k] == old(reports[k + drop])
    {
      var i := 0;
      while i < n
        invariant i <= n
        invariant forall k :: 0 <= k < i ==> reports[k] == old(reports[k + drop])
        invariant forall k :: i <= k < reports.Length ==> reports[k] == old(reports[k])
      {
        reports[i] := reports[i + drop];
        i := i + 1;
      }
    }

    /** Collects the report of this interval, unless a retry is due. */
    method CollectReport(limit: nat, report: Option<Report>) returns (ok: bool)
      requires Valid() && limit <= MAX_RETAINED
      modifies this, reports
      ensures Valid() && Value() == Collected(old(Value()), limit, report)
      ensures ok == (old(retryCount) != 0 || report.Some?)
    {
      if retryCount != 0 {
        return true;
      }
      if numRetained > limit {
        DropOldestRetainedReports(limit);
      }
      if report.None? {
        return false;
      }
      ghost var kept := reports[..numRetained];
      reports[numRetained] := report.value;
      numRetained := numRetained + 1;
      history := history + [report.value];
      assert reports[..numRetained] == kept + [report.value];
      return true;
    }

    method NotifyTransferResult(success: bool, retry: bool, grid: int, retryWait: int) returns (wait: int)
      requires Valid()
      modifies this, reports
      ensures Valid() && Value() == AfterTransfer(old(Value()), success, retry, grid, retryWait)
      ensures var tries := if success then 0 else if retry then old(retryCount) + 1 else old(retryCount);
              wait == NextSend(tries, grid, retryWait).wait
    {
      if success {
        ClearRetainedReports();
      } else if retry {
        retryCount := retryCount + 1;
      }
      wait := ResyncProfile(grid, retryWait);
    }

    /** When the profile is serviced next; a retry that would come later than the next report is cancelled. */
    method ResyncProfile(grid: int, retryWait: int) returns (wait: int)
      requires Valid()
      modifies this`retryCount
      ensures Valid() && Value() == Resynced(old(Value()), grid, retryWait)
      ensures wait == NextSend(old(retryCount), grid, retryWait).wait
    {
      wait := grid;
      if retryCount != 0 {
        if retryWait < grid {
          wait := retryWait;
        } else {
          retryCount := 0;
        }
      }
    }

    method ProcessHttp(limit: nat, report: Option<Report>, failed: bool, retry: bool, grid: int, retryWait: int)
      requires Valid() && limit <= MAX_RETAINED
      modifies this, reports
      ensures Valid() && Value() == Handle(old(Value()), Process(limit, report, failed, retry, grid, retryWait))
    {
      var ok := CollectReport(limit, report);
      if ok && failed {
        var wait := NotifyTransferResult(false, retry, grid, retryWait);
      }
    }
  
    /** Sends the report of this interval as an event; nothing is retained once it has been generated. */
    method ProcessUspEvent(push: Push, grid: int, retryWait: int)
      requires Valid()
      modifies this, reports
      ensures Valid() && Value() == Handle(old(Value()), PushEvent(push, grid, retryWait))
    {
      var wait;
      if push.NotYet? {
        wait := ResyncProfile(grid, retryWait);
        return;
      }
      if push.NoTimestamp? {
        return;
      }
      ClearRetainedReports();
      if push.NoReport? {
        return;
      }
      KeepOnly(push.report);
      if !push.generated {
        return;
      }
      ClearRetainedReports();
      wait := ResyncProfile(grid, retryWait);
    }

    method KeepOnly(r: Report)
      requires reports.Length == MAX_RETAINED + 1 && retryCount == 0
      modifies this`numRetained, this`history, reports
      ensures Valid() && Value() == Profile([r], 0, [r])
    {
      reports[0] := r;
      numRetained := 1;
      history := [r];
      assert reports[..numRetained] == [r];
    }
  }
}
