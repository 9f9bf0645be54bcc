/** What the provider was asked, and what the table may claim because of it.  `State.calls` lists
    every provider call with its outcome; for any number of workers and any faults, a status or
    reference that speaks about the outside world is backed by such a call. */
module Provenance {
  import opened Model
  import opened Table
  import opened Machine
  import opened Providers
  import opened Invariant
  import Safety

  /** How often `Run` was called for a task. */
  function RunsOf(calls: seq<Call>, id: TaskId): nat {
    if calls == [] then 0
    else
      var last := calls[|calls| - 1];
      RunsOf(calls[..|calls| - 1], id) + if last.Ran? && last.id == id then 1 else 0
  }

  lemma RunsOfStep(cfg: Config, s: State, e: Event, id: TaskId)
    requires Enabled(cfg, s, e) && RunsOf(s.calls, id) == s.hist.launches[id]
    ensures RunsOf(Next(cfg, s, e).calls, id) == Next(cfg, s, e).hist.launches[id]
  {
    RunsOfConcat(s.calls, CallsOf(s, e), id);
    OneRunPerLaunch(cfg, s, e, id);
  }

  lemma {:induction false} RunsOfConcat(calls: seq<Call>, more: seq<Call>, id: TaskId)
    ensures RunsOf(calls + more, id) == RunsOf(calls, id) + RunsOf(more, id)
    decreases |more|
  {
    if more == [] {
      assert calls + more == calls;
    } else {
      RunsOfConcat(calls, more[..|more| - 1], id);
      assert (calls + more)[..|calls + more| - 1] == calls + more[..|more| - 1];
    }
  }

  lemma {:induction false} NoRuns(calls: seq<Call>, id: TaskId)
    requires forall c :: c in calls ==> !c.Ran?
    ensures RunsOf(calls, id) == 0
  {
    if calls == [] {
    } else {
      NoRuns(calls[..|calls| - 1], id);
    }
  }

  lemma OneRunPerLaunch(cfg: Config, s: State, e: Event, id: TaskId)
    requires Enabled(cfg, s, e)
    ensures Next(cfg, s, e).hist.launches[id] == s.hist.launches[id] + RunsOf(CallsOf(s, e), id)
  {
    hide Apply, StatementOf, CallsOf, NextHistory, NextWorkers, NextRecords, NextRequests, NextRecon, NextSweeps;
    hide NextListed, NextReapers, NextMarks, RunsOf;
    if e.Work? && s.workers[e.w].Launch? {
      LaunchRuns(s, e, id);
    } else {
      NoLaunchNoRun(s, e);
      NoRuns(CallsOf(s, e), id);
    }
  }

  lemma LaunchRuns(s: State, e: Event, id: TaskId)
    requires e.Work? && e.w in s.workers && s.workers[e.w].Launch?
    ensures NextHistory(s, e).launches[id] == s.hist.launches[id] + RunsOf(CallsOf(s, e), id)
  {
    var started := if e.o.prov then Some(e.o.ref) else None;
    assert CallsOf(s, e) == [Ran(s.workers[e.w].id, started)];
  }

  lemma NoLaunchNoRun(s: State, e: Event)
    requires !(e.Work? && e.w in s.workers && s.workers[e.w].Launch?) && (e.NoEffect? ==> Harmless(e.c))
    ensures NextHistory(s, e).launches == s.hist.launches
    ensures forall c :: c in CallsOf(s, e) ==> !c.Ran?
  {
  }

  lemma {:induction false} RunsAreLaunches(cfg: Config, reg: Regime, s0: State, es: seq<Event>, id: TaskId)
    requires Initial(s0) && IsRun(cfg, reg, s0, es)
    ensures RunsOf(Exec(cfg, reg, s0, es).calls, id) == Exec(cfg, reg, s0, es).hist.launches[id]
  {
    if es == [] {
    } else {
      var init := es[..|es| - 1];
      RunsAreLaunches(cfg, reg, s0, init, id);
      RunsOfStep(cfg, Exec(cfg, reg, s0, init), es[|es| - 1], id);
    }
  }

  /** The provider's `Run` is called for a task at most once, whatever crashes or fails. */
  lemma {:induction false} RunAtMostOnce(cfg: Config, reg: Regime, s0: State, es: seq<Event>, id: TaskId)
    requires Initial(s0) && IsRun(cfg, reg, s0, es)
    ensures RunsOf(Exec(cfg, reg, s0, es).calls, id) <= 1
  {
    RunsAreLaunches(cfg, reg, s0, es, id);
    Safety.AtMostOnce(cfg, reg, s0, es, id);
  }

  // ---- What backs a row ----

  ghost predicate RowBacked(r: Row, id: TaskId, calls: seq<Call>) {
    (r.ref != "" ==> Ran(id, Some(r.ref)) in calls) && OutcomeBacked(r, id, calls)
  }

  ghost predicate OutcomeBacked(r: Row, id: TaskId, calls: seq<Call>) {
    && (r.op.Start? && r.status == Succeeded ==> Looked(id, PhaseSucceeded) in calls)
    && (r.op.Start? && r.status == Stopped ==> AskedToStop(id, true) in calls)
    && (r.op.Stop? && r.status == Succeeded ==> r.target.Some? && AskedToStop(r.target.value, true) in calls)
  }

  ghost predicate PcBacked(pc: Pc, calls: seq<Call>) {
    && (pc.Record? ==> Ran(pc.id, Some(pc.ref)) in calls)
    && (pc.StopTarget? || pc.StopSucceed? ==> AskedToStop(pc.target, true) in calls)
  }

  ghost predicate Backed(s: State) {
    && (forall id :: id in s.tasks ==> RowBacked(s.tasks[id], id, s.calls))
    && (forall w :: w in s.workers ==> PcBacked(s.workers[w], s.calls))
  }

  /** Only a status write to the row itself makes it succeeded or stopped. */
  lemma WhoFinishes(s: State, stmt: Statement, id: TaskId)
    requires Legal(s, stmt) && id in s.tasks
    requires var r' := Apply(s.tasks, stmt, s.now)[id]; r'.status == Succeeded || r'.status == Stopped
    requires Apply(s.tasks, stmt, s.now)[id].status != s.tasks[id].status
    ensures stmt == UpdateStatus(id, Apply(s.tasks, stmt, s.now)[id].status)
  {
  }

  /** `succeeded` is written by a reconciler that saw it, or by a stop for its own row. */
  lemma SucceededBy(cfg: Config, s: State, e: Event, id: TaskId)
    requires Enabled(cfg, s, e) && StatementOf(s, e) == UpdateStatus(id, Succeeded)
    ensures (e.ReconItem? && Looked(id, PhaseSucceeded) in CallsOf(s, e))
         || (e.Work? && s.workers[e.w].StopSucceed? && s.workers[e.w].id == id)
  {
  }

  /** `stopped` is written only by a stop whose provider call went through: docker's `Status`
      never reports it. */
  lemma StoppedBy(cfg: Config, s: State, e: Event, id: TaskId)
    requires Enabled(cfg, s, e) && StatementOf(s, e) == UpdateStatus(id, Status.Stopped)
    ensures e.Work? && s.workers[e.w].StopTarget? && s.workers[e.w].target == id
  {
  }

  lemma FinishBacked(cfg: Config, s: State, e: Event, id: TaskId)
    requires Inv(s) && Backed(s) && Enabled(cfg, s, e) && id in s.tasks && id in Next(cfg, s, e).tasks
    ensures OutcomeBacked(Next(cfg, s, e).tasks[id], id, Next(cfg, s, e).calls)
  {
    hide WorkPc, WorkStatement, NextWorkers, NextHistory, Apply, StatementOf, CallsOf, Enabled;
    hide Holding, Watchers, Reapers, Requests, Counters;
    StatementIsLegal(cfg, s, e);
    RowStep(s, StatementOf(s, e), s.now, id);
    var r' := Next(cfg, s, e).tasks[id];
    if (r'.status == Succeeded || r'.status == Stopped) && r'.status != s.tasks[id].status {
      WhoFinishes(s, StatementOf(s, e), id);
      WriterBacked(cfg, s, e, id, r'.status);
    } else {
      assert RowBacked(s.tasks[id], id, s.calls);
    }
  }

  /** Whoever writes one of the two statuses has a call to show for it. */
  lemma WriterBacked(cfg: Config, s: State, e: Event, id: TaskId, to: Status)
    requires Inv(s) && Backed(s) && Enabled(cfg, s, e) && id in s.tasks
    requires (to == Succeeded || to == Stopped) && StatementOf(s, e) == UpdateStatus(id, to)
    ensures var r, calls' := s.tasks[id], Next(cfg, s, e).calls;
            OutcomeBacked(r.(status := to), id, calls')
  {
    hide WorkPc, WorkStatement, NextWorkers, NextHistory, Apply, CallsOf;
    if to == Succeeded {
      SucceededBy(cfg, s, e, id);
    } else {
      StoppedBy(cfg, s, e, id);
    }
    if e.Work? {
      assert HolderFits(s, s.workers[e.w]) && PcBacked(s.workers[e.w], s.calls);
    } else {
      OutsiderStatement(cfg, s, e);
    }
  }

  lemma RefBacked(cfg: Config, s: State, e: Event, id: TaskId)
    requires Inv(s) && Backed(s) && Enabled(cfg, s, e) && id in Next(cfg, s, e).tasks
    requires Next(cfg, s, e).tasks[id].ref != ""
    ensures Ran(id, Some(Next(cfg, s, e).tasks[id].ref)) in Next(cfg, s, e).calls
  {
    hide WorkPc, NextWorkers, NextHistory, CallsOf, Enabled, Watchers, Reapers, Requests, Counters, NextRecords;
    hide NextRequests, NextRecon, NextSweeps, NextListed, NextReapers, NextMarks, StartPc, StopPc, WorkCalls;
    hide WorkHistory, Legal, HolderFits, Finished, Rows, Holding;
    StatementIsLegal(cfg, s, e);
    if StatementOf(s, e).UpdateRuntime? {
      RuntimeWriter(s, e);
      assert PcBacked(s.workers[e.w], s.calls);
    }
  }

  lemma OwnPcBacked(cfg: Config, s: State, w: WorkerId, o: Outcome)
    requires w in s.workers && !s.workers[w].Idle? && PcBacked(s.workers[w], s.calls)
    ensures PcBacked(WorkPc(cfg, s, s.workers[w], o), Logged(s.calls, WorkCalls(s, s.workers[w], o)))
  {
  }

  lemma BackedStep(cfg: Config, s: State, e: Event)
    requires Inv(s) && Backed(s) && Enabled(cfg, s, e)
    ensures Backed(Next(cfg, s, e))
  {
    hide NextRecords, NextRequests, NextRecon, NextSweeps, NextListed, NextReapers, NextMarks, NextHistory, Apply;
    hide StatementOf, WorkStatement, WorkPc, StartPc, StopPc, WorkCalls, WorkHistory, Legal, HolderFits, Finished;
    hide Rows, Holding, Watchers, Reapers, Requests, Counters;
    var s' := Next(cfg, s, e);
    forall id | id in s'.tasks ensures RowBacked(s'.tasks[id], id, s'.calls) {
      RowBackedStep(cfg, s, e, id);
    }
    forall w | w in s'.workers ensures PcBacked(s'.workers[w], s'.calls) {
      if e.Work? && e.w == w {
        OwnPcBacked(cfg, s, w, e.o);
      }
    }
  }

  lemma RowBackedStep(cfg: Config, s: State, e: Event, id: TaskId)
    requires Inv(s) && Backed(s) && Enabled(cfg, s, e) && id in Next(cfg, s, e).tasks
    ensures RowBacked(Next(cfg, s, e).tasks[id], id, Next(cfg, s, e).calls)
  {
    hide Apply, StatementOf, NextWorkers, CallsOf, NextHistory;
    StatementIsLegal(cfg, s, e);
    if id in s.tasks {
      RowStep(s, StatementOf(s, e), s.now, id);
      FinishBacked(cfg, s, e, id);
    } else {
      NewRowStep(s, StatementOf(s, e), s.now, id);
    }
    if Next(cfg, s, e).tasks[id].ref != "" {
      RefBacked(cfg, s, e, id);
    }
  }

  /** In every reachable state, for every row: a reference is one that `Run` returned for this
      very task; a succeeded start row was seen succeeded by some `Status`; a stopped start row,
      and the target of a succeeded stop, has a `Stop` call that reported success. */
  lemma {:induction false} RowsAreBacked(cfg: Config, reg: Regime, s0: State, es: seq<Event>)
    requires Initial(s0) && IsRun(cfg, reg, s0, es)
    ensures Backed(Exec(cfg, reg, s0, es))
  {
    if es == [] {
    } else {
      var init := es[..|es| - 1];
      RowsAreBacked(cfg, reg, s0, init);
      Safety.Reachable(cfg, reg, s0, init);
      BackedStep(cfg, Exec(cfg, reg, s0, init), es[|es| - 1]);
    }
  }

  // ---- Whom the provider is asked about ----

  /** A provider call. */
  predicate AboutRow(c: Call) {
    c.Checked? || c.Ran? || c.AskedToStop? || c.Looked?
  }

  ghost predicate Aimed(s: State) {
    forall c :: c in s.calls && AboutRow(c) ==> LaunchedStart(s, c.id)
  }

  lemma CallIsAimed(cfg: Config, s: State, e: Event, c: Call)
    requires Inv(s) && Enabled(cfg, s, e) && c in CallsOf(s, e) && AboutRow(c)
    ensures LaunchedStart(s, c.id)
  {
    hide Apply, StatementOf, WorkStatement, RowShape, Counters, Rows, Requests;
    if e.Work? {
      assert HolderFits(s, s.workers[e.w]);
    } else if e.ReconItem? {
      assert SnapshotFits(s, e.id, s.recon[e.p][e.id]);
    } else if e.SweepClear? {
      assert SnapshotFits(s, e.id, s.sweeps[e.p].snap[e.id]);
    } else {
      assert Finished(s, e.id);
    }
  }

  /** No provider is ever asked to check, run, look at or stop anything but a start row that has
      been admitted. */
  lemma {:induction false} CallsAreAimed(cfg: Config, reg: Regime, s0: State, es: seq<Event>)
    requires Initial(s0) && IsRun(cfg, reg, s0, es)
    ensures Aimed(Exec(cfg, reg, s0, es))
  {
    if es == [] {
    } else {
      var init := es[..|es| - 1];
      CallsAreAimed(cfg, reg, s0, init);
      Safety.Reachable(cfg, reg, s0, init);
      AimedStep(cfg, Exec(cfg, reg, s0, init), es[|es| - 1]);
    }
  }

  lemma AimedStep(cfg: Config, s: State, e: Event)
    requires Inv(s) && Enabled(cfg, s, e) && Aimed(s)
    ensures Aimed(Next(cfg, s, e))
  {
    hide CallsOf, Enabled, StatementOf, Apply, NextWorkers, LaunchedStart;
    var s' := Next(cfg, s, e);
    StepFlows(cfg, s, e);
    forall c | c in s'.calls && AboutRow(c) ensures LaunchedStart(s', c.id) {
      if c !in s.calls {
        CallIsAimed(cfg, s, e, c);
      }
    }
  }
}
