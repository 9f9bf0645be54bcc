/** Runtime limits: what the sweeper's test means, and how long a limited task can stay running
    when sweeps come at least every `interval` nanoseconds and take no time. */
module RuntimeLimit {
  import opened Model
  import opened Table
  import opened Machine
  import opened Invariant
  import Races
  import Tightness

  function Limit(cfg: Config, r: Row): int {
    EffectiveMaxRuntime(r.work.maxRuntime, cfg.defaultMaxRuntime)
  }

  /** The limit in nanoseconds fits a 64-bit duration: at most 9223372036 seconds. */
  predicate Fits(limit: int) {
    limit * NANOS_PER_SECOND <= MAX_INT64
  }

  /** The test the code means to make. */
  predicate TimeIsUp(limit: int, start: int, now: int) {
    now - start >= limit * NANOS_PER_SECOND
  }

  /** The test the code makes. */
  predicate SweeperSaysSo(limit: int, start: int, now: int) {
    Elapsed(start, now) >= WrapInt64(limit * NANOS_PER_SECOND)
  }

  lemma FittingLimitIsExact(limit: int, start: int, now: int)
    requires 0 < limit && Fits(limit)
    ensures SweeperSaysSo(limit, start, now) <==> TimeIsUp(limit, start, now)
  {
    assert WrapInt64(limit * NANOS_PER_SECOND) == limit * NANOS_PER_SECOND;
  }

  /** 64-bit arithmetic: the one number in range that differs by a multiple of 2^64. */
  lemma WrapInRange(x: int)
    ensures -0x8000_0000_0000_0000 <= WrapInt64(x) < 0x8000_0000_0000_0000
    ensures (WrapInt64(x) - x) % 0x1_0000_0000_0000_0000 == 0
  {
  }

  /** `Time.Sub` is exact as long as the difference fits, and the nearest bound otherwise. */
  lemma ElapsedSaturates(from: int, to: int)
    ensures -0x8000_0000_0000_0000 <= to - from < 0x8000_0000_0000_0000 ==> Elapsed(from, to) == to - from
    ensures to - from >= 0x8000_0000_0000_0000 ==> Elapsed(from, to) == 0x7FFF_FFFF_FFFF_FFFF
    ensures to - from < -0x8000_0000_0000_0000 ==> Elapsed(from, to) == -0x8000_0000_0000_0000
  {
  }

  /** The limit that applies to a row: its own if positive, the default if zero, and none if
      negative. */
  lemma LimitByColumn(cfg: Config, r: Row)
    ensures r.work.maxRuntime > 0 ==> Limit(cfg, r) == r.work.maxRuntime
    ensures r.work.maxRuntime == 0 ==> Limit(cfg, r) == cfg.defaultMaxRuntime
    ensures r.work.maxRuntime < 0 ==> Limit(cfg, r) < 0
  {
  }

  /** The sweeper judges every elapsed time up to the horizon as it means to. */
  ghost predicate JudgesRight(limit: int, horizon: int) {
    forall start, now :: now - start <= horizon ==>
      (SweeperSaysSo(limit, start, now) <==> TimeIsUp(limit, start, now))
  }

  /** Exactly when the sweeper's test can be trusted.  Within any horizon there is no wrong answer
      if and only if the limit fits or its product with the nanoseconds, wrapped around, still
      lies beyond the horizon. */
  lemma JudgesRightIff(limit: int, horizon: nat)
    requires 0 < limit
    ensures JudgesRight(limit, horizon) <==> Fits(limit) || WrapInt64(limit * NANOS_PER_SECOND) > horizon
  {
    var wrapped := WrapInt64(limit * NANOS_PER_SECOND);
    WrapInRange(limit * NANOS_PER_SECOND);
    if Fits(limit) || wrapped > horizon {
      forall start, now | now - start <= horizon
        ensures SweeperSaysSo(limit, start, now) <==> TimeIsUp(limit, start, now)
      {
        if Fits(limit) {
          FittingLimitIsExact(limit, start, now);
        }
      }
    } else {
      WrongAtWrapped(limit);
      assert JudgesRight(limit, horizon) ==>
        (SweeperSaysSo(limit, 0, wrapped) <==> TimeIsUp(limit, 0, wrapped));
    }
  }

  /** Where a limit that does not fit goes wrong first: at its wrapped product, too early. */
  lemma WrongAtWrapped(limit: int)
    requires 0 < limit && !Fits(limit)
    ensures var wrapped := WrapInt64(limit * NANOS_PER_SECOND);
            SweeperSaysSo(limit, 0, wrapped) && !TimeIsUp(limit, 0, wrapped)
  {
    WrapInRange(limit * NANOS_PER_SECOND);
  }

  /** The first limit that does not fit wraps below zero: a row is overdue the moment it runs. */
  lemma FirstWrongLimit(start: int)
    ensures !Fits(9223372037) && Fits(9223372036)
    ensures SweeperSaysSo(9223372037, start, start) && !TimeIsUp(9223372037, start, start)
  {
  }

  /** Not every limit that does not fit is dangerous: this one, some 877 years, is judged right for
      the first 285 of them. */
  lemma HarmlessWrap()
    ensures !Fits(27670116109) && JudgesRight(27670116109, 9_000_000_000_000_000_000)
  {
    JudgesRightIff(27670116109, 9_000_000_000_000_000_000);
  }

  /** Over all times the test is the intended one exactly when the limit fits. */
  lemma TestIsExactIffLimitFits(limit: int)
    requires 0 < limit
    ensures (forall horizon: nat :: JudgesRight(limit, horizon)) <==> Fits(limit)
  {
    if Fits(limit) {
      forall horizon: nat ensures JudgesRight(limit, horizon) {
        JudgesRightIff(limit, horizon);
      }
    } else {
      JudgesRightIff(limit, MAX_INT64);
      WrapInRange(limit * NANOS_PER_SECOND);
    }
  }

  const TOO_LONG := Tightness.PLAIN.(maxRuntime := 9223372037)

  /** It happens: a task submitted with that limit is started, and the sweep that comes at the very
      moment of its start clears it and marks it failed. */
  lemma FreshRowFails(cfg: Config, reg: Regime, s0: State, v: WorkerId) returns (s: State)
    requires Initial(s0) && Tightness.TakesWork(cfg) && cfg.runtimeSweep && v in s0.workers
    ensures Reaches(cfg, reg, s0, s)
    ensures 0 in s.tasks && s.tasks[0].status == Failed && s.tasks[0].runningAt == Some(s.now)
    ensures Limit(cfg, s.tasks[0]) == 9223372037
  {
    hide Reaches, Tightness.IsJob, Tightness.OnlyJobs;
    var p := Tightness.SomeProvider(cfg);
    var j := Tightness.Job(Fast, p, TOO_LONG);
    var s1 := Races.OneAdmitted(cfg, reg, s0, j, v);
    var s2 := Tightness.WalkToIdle(cfg, reg, s1, j, v);
    ReachesTrans(cfg, reg, s0, s1, s2);
    Tightness.JobKept(j, s1.tasks[0], s2.tasks[0]);
    s := SweptAtOnce(cfg, reg, s2, j);
    ReachesTrans(cfg, reg, s0, s2, s);
  }

  lemma SweptAtOnce(cfg: Config, reg: Regime, s: State, j: Tightness.Job) returns (s': State)
    requires s.tasks.Keys == {0} && Tightness.IsJob(j, s.tasks[0]) && j.work == TOO_LONG && Registered(j.prov)
    requires s.tasks[0].status == Running && s.tasks[0].ref == Tightness.FINE.ref
    requires s.tasks[0].runningAt == Some(s.now) && s.sweeps == map[] && cfg.runtimeSweep
    ensures Reaches(cfg, reg, s, s')
    ensures 0 in s'.tasks && s'.tasks[0].status == Failed && s'.tasks[0].runningAt == Some(s'.now)
    ensures Limit(cfg, s'.tasks[0]) == 9223372037
  {
    hide Reaches, NextRecords, NextRequests, NextRecon, NextListed, NextReapers, NextMarks, NextHistory, NextWorkers;
    hide CallsOf;
    var e1, e2, e3 := SweepList(0, true), SweepClear(0, 0, true, true), SweepFail(0, true);
    var s1 := Next(cfg, s, e1);
    var s2 := Next(cfg, s1, e2);
    s' := Next(cfg, s2, e3);
    assert s.tasks[0].ref[0] != ' ';
    assert s1.sweeps[0].snap[0] == s.tasks[0];
    FirstWrongLimit(s.now);
    ReachesNext(cfg, reg, s, e1);
    ReachesNext(cfg, reg, s1, e2);
    ReachesNext(cfg, reg, s2, e3);
    ReachesTrans(cfg, reg, s, s1, s2);
    ReachesTrans(cfg, reg, s, s2, s');
  }

  /** A running row the sweeper has to watch. */
  predicate Watched(cfg: Config, r: Row) {
    SweepListed(r) && Registered(r.prov) && Limit(cfg, r) > 0 && Fits(Limit(cfg, r))
  }

  // ---- Punctual runs: one sweeper process `p`, its database calls succeed ----

  /** Time passes only between sweeps and never beyond the next sweep's due time. */
  predicate OnTime(interval: int, p: ProcId, s: State, last: int, e: Event) {
    match e
    case Advance(to) => p !in s.sweeps && to <= last + interval
    case ProcDies(q) => q != p
    case SweepFail(q, db) => q == p ==> db
    case _ => true
  }

  /** When `p` last began a sweep. */
  ghost function LastSweep(cfg: Config, p: ProcId, s: State, es: seq<Event>): int
    requires IsRun(cfg, ANYTHING, s, es)
  {
    if es == [] then s.now
    else if es[|es| - 1] == SweepList(p, true) then Exec(cfg, ANYTHING, s, es[..|es| - 1]).now
    else LastSweep(cfg, p, s, es[..|es| - 1])
  }

  ghost predicate Punctual(cfg: Config, interval: int, p: ProcId, s: State, es: seq<Event>)
    requires IsRun(cfg, ANYTHING, s, es)
  {
    es == [] ||
    var init := es[..|es| - 1];
    && Punctual(cfg, interval, p, s, init)
    && OnTime(interval, p, Exec(cfg, ANYTHING, s, init), LastSweep(cfg, p, s, init), es[|es| - 1])
  }

  /** The row was within its limit when the last sweep began, or that sweep has yet to deal with
      it. */
  ghost predicate Handled(cfg: Config, p: ProcId, s: State, last: int, id: TaskId)
    requires id in s.tasks && s.tasks[id].runningAt.Some?
  {
    var r := s.tasks[id];
    || !TimeIsUp(Limit(cfg, r), r.runningAt.value, last)
    || (p in s.sweeps && s.sweeps[p].cur == Some(id))
    || (p in s.sweeps && id in s.sweeps[p].snap && s.sweeps[p].snap[id].runningAt == r.runningAt)
  }

  ghost predicate InTime(cfg: Config, interval: int, s: State, id: TaskId)
    requires id in s.tasks && s.tasks[id].runningAt.Some?
  {
    s.now - s.tasks[id].runningAt.value < Limit(cfg, s.tasks[id]) * NANOS_PER_SECOND + interval
  }

  ghost predicate Timely(cfg: Config, interval: int, p: ProcId, s: State, last: int) {
    && last <= s.now <= last + interval
    && (p in s.sweeps ==> s.sweeps[p].at == last == s.now)
    && (forall id :: id in s.tasks && Watched(cfg, s.tasks[id]) ==>
          s.tasks[id].runningAt.Some? && Handled(cfg, p, s, last, id) && InTime(cfg, interval, s, id))
  }

  lemma WatchedStep(cfg: Config, s: State, stmt: Statement, id: TaskId)
    requires Legal(s, stmt) && id in Apply(s.tasks, stmt, s.now) && Watched(cfg, Apply(s.tasks, stmt, s.now)[id])
    ensures var r' := Apply(s.tasks, stmt, s.now)[id];
            || (id in s.tasks && Watched(cfg, s.tasks[id]) && r'.runningAt == s.tasks[id].runningAt
                && r'.work == s.tasks[id].work && (stmt.UpdateStatus? ==> stmt.id != id))
            || (stmt.UpdateRuntime? && stmt.id == id && r'.runningAt == Some(s.now))
  {
  }

  lemma FreshIsTimely(cfg: Config, interval: int, p: ProcId, s: State, last: int, id: TaskId)
    requires id in s.tasks && Watched(cfg, s.tasks[id]) && s.tasks[id].runningAt == Some(s.now)
    requires last <= s.now && interval >= 0
    ensures Handled(cfg, p, s, last, id) && InTime(cfg, interval, s, id)
  {
  }

  /** A row waved through by the scan was within its limit. */
  lemma SkippedIsInTime(cfg: Config, s: State, p: ProcId, id: TaskId)
    requires Watchers(s) && Enabled(cfg, s, SweepSkip(p, id))
    requires id in s.tasks && Watched(cfg, s.tasks[id]) && s.tasks[id].runningAt.Some?
    requires s.sweeps[p].snap[id].runningAt == s.tasks[id].runningAt
    ensures !TimeIsUp(Limit(cfg, s.tasks[id]), s.tasks[id].runningAt.value, s.sweeps[p].at)
  {
    var snap := s.sweeps[p].snap[id];
    assert SnapshotFits(s, id, snap);
    FittingLimitIsExact(Limit(cfg, snap), snap.runningAt.value, s.sweeps[p].at);
  }

  lemma HandledStep(cfg: Config, interval: int, p: ProcId, s: State, last: int, e: Event, id: TaskId)
    requires Watchers(s) && Enabled(cfg, s, e) && OnTime(interval, p, s, last, e)
    requires id in s.tasks && Watched(cfg, s.tasks[id]) && s.tasks[id].runningAt.Some?
    requires Handled(cfg, p, s, last, id) && (p in s.sweeps ==> s.sweeps[p].at == last)
    requires StatementOf(s, e).UpdateStatus? ==> StatementOf(s, e).id != id
    ensures var r, sweeps' := s.tasks[id], NextSweeps(s, e);
            var last' := if e == SweepList(p, true) then s.now else last;
            || !TimeIsUp(Limit(cfg, r), r.runningAt.value, last')
            || (p in sweeps' && sweeps'[p].cur == Some(id))
            || (p in sweeps' && id in sweeps'[p].snap && sweeps'[p].snap[id].runningAt == r.runningAt)
  {
    hide NextRecords, NextRequests, NextRecon, NextListed, NextReapers, NextMarks, NextHistory, NextWorkers, CallsOf;
    hide Apply, WorkStatement, WorkPc, StartPc, StopPc, WorkCalls, WorkHistory, Legal, HolderFits, Finished, Rows;
    hide Holding, Watchers, Reapers, Requests, Counters;
    if e.SweepSkip? && e.p == p && e.id == id && s.sweeps[p].snap[id].runningAt == s.tasks[id].runningAt {
      SkippedIsInTime(cfg, s, p, id);
    }
  }

  lemma TimelyRow(cfg: Config, interval: int, p: ProcId, s: State, last: int, e: Event, id: TaskId)
    requires Inv(s) && Timely(cfg, interval, p, s, last) && Enabled(cfg, s, e) && OnTime(interval, p, s, last, e)
    requires id in Next(cfg, s, e).tasks && Watched(cfg, Next(cfg, s, e).tasks[id])
    ensures var s' := Next(cfg, s, e);
            var last' := if e == SweepList(p, true) then s.now else last;
            s'.tasks[id].runningAt.Some? && Handled(cfg, p, s', last', id) && InTime(cfg, interval, s', id)
  {
    hide NextRecords, NextRequests, NextRecon, NextSweeps, NextListed, NextReapers, NextMarks, NextHistory;
    hide NextWorkers, CallsOf, WorkPc, StartPc, StopPc, WorkCalls, WorkHistory, Legal, HolderFits, Rows, Holding;
    hide Watchers, Reapers, Requests, Counters;
    var s' := Next(cfg, s, e);
    StatementIsLegal(cfg, s, e);
    WatchedStep(cfg, s, StatementOf(s, e), id);
    if StatementOf(s, e).UpdateRuntime? && StatementOf(s, e).id == id {
      FreshIsTimely(cfg, interval, p, s', if e == SweepList(p, true) then s.now else last, id);
    } else {
      assert InTime(cfg, interval, s, id) && Handled(cfg, p, s, last, id);
      HandledStep(cfg, interval, p, s, last, e, id);
    }
  }

  lemma SweepTimes(cfg: Config, interval: int, p: ProcId, s: State, last: int, e: Event)
    requires Timely(cfg, interval, p, s, last) && Enabled(cfg, s, e) && OnTime(interval, p, s, last, e) && interval >= 0
    ensures var now' := if e.Advance? then e.to else s.now;
            var last' := if e == SweepList(p, true) then s.now else last;
            && last' <= now' <= last' + interval
            && (p in NextSweeps(s, e) ==> NextSweeps(s, e)[p].at == last' == now')
  {
  }

  lemma TimelyStep(cfg: Config, interval: int, p: ProcId, s: State, last: int, e: Event)
    requires Inv(s) && Timely(cfg, interval, p, s, last) && Enabled(cfg, s, e) && OnTime(interval, p, s, last, e)
    requires interval >= 0
    ensures Timely(cfg, interval, p, Next(cfg, s, e), if e == SweepList(p, true) then s.now else last)
  {
    hide NextRecords, NextRequests, NextRecon, NextSweeps, NextListed, NextReapers, NextMarks, NextHistory;
    hide NextWorkers, CallsOf, Apply, StatementOf, WorkStatement, WorkPc, StartPc, StopPc, WorkCalls, WorkHistory;
    hide Legal, HolderFits, Finished, Rows, Holding, Watchers, Reapers, Requests, Counters;
    var s' := Next(cfg, s, e);
    var last' := if e == SweepList(p, true) then s.now else last;
    SweepTimes(cfg, interval, p, s, last, e);
    forall id | id in s'.tasks && Watched(cfg, s'.tasks[id])
      ensures s'.tasks[id].runningAt.Some? && Handled(cfg, p, s', last', id) && InTime(cfg, interval, s', id)
    {
      TimelyRow(cfg, interval, p, s, last, e, id);
    }
  }

  lemma {:induction false} TimelyRun(cfg: Config, interval: int, p: ProcId, s: State, es: seq<Event>)
    requires Inv(s) && interval >= 0 && Timely(cfg, interval, p, s, s.now)
    requires IsRun(cfg, ANYTHING, s, es) && Punctual(cfg, interval, p, s, es)
    ensures Timely(cfg, interval, p, Exec(cfg, ANYTHING, s, es), LastSweep(cfg, p, s, es))
  {
    if es == [] {
    } else {
      var init := es[..|es| - 1];
      TimelyRun(cfg, interval, p, s, init);
      InvRun(cfg, ANYTHING, s, init);
      TimelyStep(cfg, interval, p, Exec(cfg, ANYTHING, s, init), LastSweep(cfg, p, s, init), es[|es| - 1]);
    }
  }

  /** No start row with a reference, a registered provider and a positive limit that fits stays
      running for its limit plus one sweep interval, whatever everybody else does. */
  lemma {:induction false} RuntimeBound(cfg: Config, interval: int, p: ProcId, s0: State, es: seq<Event>, id: TaskId)
    requires Initial(s0) && interval >= 0 && IsRun(cfg, ANYTHING, s0, es) && Punctual(cfg, interval, p, s0, es)
    requires var s := Exec(cfg, ANYTHING, s0, es); id in s.tasks && Watched(cfg, s.tasks[id])
    ensures var s := Exec(cfg, ANYTHING, s0, es);
            s.tasks[id].runningAt.Some? &&
            s.now - s.tasks[id].runningAt.value < Limit(cfg, s.tasks[id]) * NANOS_PER_SECOND + interval
  {
    InitialInv(s0);
    TimelyRun(cfg, interval, p, s0, es);
    assert InTime(cfg, interval, Exec(cfg, ANYTHING, s0, es), id);
  }
}
