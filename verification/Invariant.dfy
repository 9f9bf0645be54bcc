/** What every step keeps, for any number of workers, crashes, database errors and background
    writers. */
module Invariant {
  import opened Model
  import opened Table
  import opened Machine

  ghost predicate Launched(st: Status) {
    st != Pending && st != Processing
  }

  /** Between commit and the end of the unguarded tail of `executeStart`. */
  ghost predicate InFlight(pc: Pc) {
    pc.Reload? || pc.Precheck? || pc.Launch? || pc.Record? || pc.MarkFailed?
  }

  /** In flight and not yet handed to the provider. */
  ghost predicate Unlaunched(pc: Pc) {
    pc.Reload? || pc.Precheck? || pc.Launch?
  }

  ghost predicate BeforeCommit(pc: Pc) {
    || pc.Claimed? || pc.Begin? || pc.CountTotal? || pc.CountFast? || pc.CountSlow?
    || pc.CheckGpu? || pc.Commit? || pc.Refused?
  }

  ghost predicate Stopping(pc: Pc) {
    pc.StopLoad? || pc.StopCall? || pc.StopTarget? || pc.StopSucceed? || pc.StopFail?
  }

  ghost predicate HasTarget(pc: Pc) {
    pc.StopCall? || pc.StopTarget? || pc.StopSucceed?
  }

  /** A start row that has left the queue and that no worker is still about to write `running`
      into. */
  ghost predicate Detached(s: State, id: TaskId) {
    && LaunchedStart(s, id)
    && forall w :: w in s.workers && InFlight(s.workers[w]) ==> s.workers[w].id != id
  }

  /** Detached and terminal: out of its slot for good. */
  ghost predicate Finished(s: State, id: TaskId) {
    Detached(s, id) && Terminal(s.tasks[id].status)
  }

  ghost predicate LaunchedStart(s: State, id: TaskId) {
    id in s.tasks && s.tasks[id].op.Start? && Launched(s.tasks[id].status)
  }

  /** The shape of a row, by status. */
  ghost predicate RowShape(r: Row) {
    && (r.status in {Pending, Processing, Admitted} ==> r.ref == "" && r.runningAt.None?)
    && (r.status == Running ==> r.runningAt.Some?)
    && (r.ref != "" ==> r.runningAt.Some?)
    && (r.op.Stop? ==> r.status in {Pending, Processing, Succeeded, Failed} && r.target.Some?
                       && r.runningAt.None?)
  }

  ghost predicate Rows(s: State) {
    forall id :: id in s.tasks ==>
      RowShape(s.tasks[id]) && (s.tasks[id].runningAt.Some? ==> Detached(s, id))
  }

  ghost predicate HolderFits(s: State, pc: Pc)
    requires !pc.Idle?
  {
    && pc.id in s.tasks
    && var r := s.tasks[pc.id];
    && (BeforeCommit(pc) ==> r.status == Processing && (pc.Claimed? || r.op.Start?))
    && (pc.CheckGpu? ==> r.prov.Docker?)
    && (InFlight(pc) ==> Launched(r.status) && r.op.Start?)
    && (Stopping(pc) ==> r.status == Processing && r.op.Stop?)
    && (pc.StopRec? ==> r.op.Stop? && r.status in {Processing, Succeeded, Failed})
    && (HasTarget(pc) ==> SnapshotFits(s, pc.target, pc.row) && InSlot(pc.row.status)
                          && r.target == Some(pc.target) && r.prov == pc.row.prov)
  }

  /** A row read earlier and still held in memory: its columns are current, and if it carried a
      reference or a running stamp no worker is in flight on it any more. */
  ghost predicate SnapshotFits(s: State, id: TaskId, row: Row) {
    && LaunchedStart(s, id) && SameColumns(row, s.tasks[id]) && RowShape(row)
    && (row.runningAt.Some? ==> Detached(s, id) && s.tasks[id].runningAt.Some?)
  }

  ghost predicate Holding(s: State) {
    && (forall w :: w in s.workers && !s.workers[w].Idle? ==> HolderFits(s, s.workers[w]))
    && (forall v, w :: v in s.workers && w in s.workers && v != w && !s.workers[v].Idle? && !s.workers[w].Idle?
          ==> s.workers[v].id != s.workers[w].id)
  }

  ghost predicate Watchers(s: State) {
    && (forall p, id :: p in s.recon && id in s.recon[p] ==> SnapshotFits(s, id, s.recon[p][id]))
    && (forall p, id :: p in s.sweeps && id in s.sweeps[p].snap ==>
          SnapshotFits(s, id, s.sweeps[p].snap[id]) && s.sweeps[p].snap[id].runningAt.Some?)
    && (forall p :: p in s.sweeps && s.sweeps[p].cur.Some? ==>
          Detached(s, s.sweeps[p].cur.value) && s.tasks[s.sweeps[p].cur.value].runningAt.Some?)
  }

  ghost predicate Reapers(s: State) {
    && (forall p, id :: p in s.listed && id in s.listed[p] ==> Finished(s, id) && s.tasks[id].prov.Docker?)
    && (forall p, id :: (p, id) in s.reapers ==>
          Finished(s, id) && s.tasks[id].prov.Docker? && (p, id) in s.marks)
  }

  ghost predicate Requests(s: State) {
    forall q :: q in s.requests ==> SnapshotFits(s, s.requests[q].orig, s.requests[q].row)
  }

  ghost predicate Counters(s: State) {
    && (forall id :: s.hist.admits[id] == (if LaunchedStart(s, id) then 1 else 0))
    && (forall id :: s.hist.launches[id] <= s.hist.admits[id])
    && (forall w :: w in s.workers && Unlaunched(s.workers[w]) ==> s.hist.launches[s.workers[w].id] == 0)
  }

  ghost predicate Inv(s: State) {
    Rows(s) && Holding(s) && Watchers(s) && Reapers(s) && Requests(s) && Counters(s)
  }

  // ---- The statements a step may issue ----

  /** What the invariant guarantees about the statement issued next. */
  ghost predicate Legal(s: State, stmt: Statement) {
    match stmt
    case Nothing => true
    case Create(id, row) =>
      id !in s.tasks && row.status == Pending && RowShape(row)
    case Cas(id, from, to) =>
      || (from == Pending && to == Processing)
      || (from == Processing && (to == Pending || to == Admitted) && id in s.tasks && s.tasks[id].op.Start?)
    case UpdateStatus(id, to) =>
      || (LaunchedStart(s, id) && Terminal(to))
      || (id in s.tasks && s.tasks[id].op.Stop? && s.tasks[id].status == Processing && to in {Succeeded, Failed})
    case UpdateRuntime(id, _) => LaunchedStart(s, id)
    case ClearRuntimeRef(id) => LaunchedStart(s, id)
    case RevertAdmittedStuck(_) => true
  }

  lemma WorkStatementLegal(s: State, pc: Pc, o: Outcome)
    requires !pc.Idle? && HolderFits(s, pc)
    ensures Legal(s, WorkStatement(s, pc, o))
  {
  }

  /** What anyone but a worker may do: insert fresh pending rows, and finish or clear rows that
      have left the queue. */
  ghost predicate Outsider(s: State, stmt: Statement) {
    match stmt
    case Nothing => true
    case Create(id, row) => id !in s.tasks && row.status == Pending && RowShape(row)
    case UpdateStatus(id, to) => LaunchedStart(s, id) && Terminal(to)
    case ClearRuntimeRef(id) => LaunchedStart(s, id)
    case RevertAdmittedStuck(_) => true
    case _ => false
  }

  /** Only a worker changes the status of a stop row. */
  lemma OutsiderLeavesStop(s: State, stmt: Statement, id: TaskId)
    requires Outsider(s, stmt) && id in s.tasks && s.tasks[id].op.Stop? && RowShape(s.tasks[id])
    ensures var t' := Apply(s.tasks, stmt, s.now);
            id in t' && t'[id].status == s.tasks[id].status
  {
  }

  lemma OutsiderStatement(cfg: Config, s: State, e: Event)
    requires Watchers(s) && Reapers(s) && Enabled(cfg, s, e) && !e.Work? && !e.Claim?
    ensures Outsider(s, StatementOf(s, e))
  {
    if e.ReconItem? {
      assert SnapshotFits(s, e.id, s.recon[e.p][e.id]);
    } else if e.SweepClear? {
      assert SnapshotFits(s, e.id, s.sweeps[e.p].snap[e.id]);
    } else if e.Reap? {
      assert Finished(s, e.id);
    }
  }

  lemma StatementIsLegal(cfg: Config, s: State, e: Event)
    requires Holding(s) && Watchers(s) && Reapers(s) && Enabled(cfg, s, e)
    ensures Legal(s, StatementOf(s, e))
  {
    if e.Work? {
      WorkStatementLegal(s, s.workers[e.w], e.o);
    } else if !e.Claim? {
      OutsiderStatement(cfg, s, e);
    }
  }

  lemma RowStep(s: State, stmt: Statement, now: int, id: TaskId)
    requires Legal(s, stmt) && id in s.tasks && RowShape(s.tasks[id])
    ensures var t' := Apply(s.tasks, stmt, now);
            && id in t' && SameColumns(s.tasks[id], t'[id]) && RowShape(t'[id])
            && (Launched(s.tasks[id].status) ==> Launched(t'[id].status))
            && (t'[id].runningAt != s.tasks[id].runningAt ==> stmt.UpdateRuntime? && stmt.id == id)
            && (Terminal(s.tasks[id].status) && !Terminal(t'[id].status) ==> stmt.UpdateRuntime? && stmt.id == id)
  {
  }

  lemma NewRowStep(s: State, stmt: Statement, now: int, id: TaskId)
    requires Legal(s, stmt) && id !in s.tasks && id in Apply(s.tasks, stmt, now)
    ensures stmt.Create? && stmt.id == id && Apply(s.tasks, stmt, now)[id] == stmt.row
  {
  }

  // ---- What flows from one state to the next ----

  /** Rows survive with their columns, a launched row stays launched and stamped, and no worker comes to be
      in flight on a row that had already left the queue. */
  ghost predicate Flows(s: State, s': State) {
    && (forall id :: id in s.tasks ==> id in s'.tasks && SameColumns(s.tasks[id], s'.tasks[id]))
    && (forall id :: LaunchedStart(s, id) ==> LaunchedStart(s', id))
    && (forall id :: LaunchedStart(s, id) && s.tasks[id].runningAt.Some? ==> s'.tasks[id].runningAt.Some?)
    && (forall w :: w in s'.workers && InFlight(s'.workers[w]) ==>
          || (w in s.workers && InFlight(s.workers[w]) && s.workers[w].id == s'.workers[w].id)
          || !LaunchedStart(s, s'.workers[w].id))
  }

  lemma StepKeepsRowsAndShapes(cfg: Config, s: State, e: Event)
    requires Inv(s) && Enabled(cfg, s, e)
    ensures var s' := Next(cfg, s, e);
            && (forall id :: id in s.tasks ==> id in s'.tasks && SameColumns(s.tasks[id], s'.tasks[id]))
            && (forall id :: LaunchedStart(s, id) ==> LaunchedStart(s', id))
            && (forall id :: id in s.tasks && s.tasks[id].runningAt.Some? ==> s'.tasks[id].runningAt.Some?)
            && (forall id :: id in s'.tasks ==> RowShape(s'.tasks[id]))
  {
    var s' := Next(cfg, s, e);
    StatementIsLegal(cfg, s, e);
    forall id | id in s.tasks
      ensures id in s'.tasks && SameColumns(s.tasks[id], s'.tasks[id]) && RowShape(s'.tasks[id])
      ensures LaunchedStart(s, id) ==> LaunchedStart(s', id)
      ensures s.tasks[id].runningAt.Some? ==> s'.tasks[id].runningAt.Some?
    {
      RowStep(s, StatementOf(s, e), s.now, id);
    }
    forall id | id in s'.tasks && id !in s.tasks ensures RowShape(s'.tasks[id]) {
      NewRowStep(s, StatementOf(s, e), s.now, id);
    }
  }

  lemma StartPcFlight(cfg: Config, s: State, pc: Pc, o: Outcome)
    requires !pc.Idle? && HolderFits(s, pc)
    ensures var pc' := WorkPc(cfg, s, pc, o);
            && (pc'.Idle? || pc'.id == pc.id)
            && (InFlight(pc') ==> InFlight(pc) || !Launched(s.tasks[pc.id].status))
  {
  }

  lemma StepFlows(cfg: Config, s: State, e: Event)
    requires Inv(s) && Enabled(cfg, s, e)
    ensures Flows(s, Next(cfg, s, e))
  {
    StepKeepsRowsAndShapes(cfg, s, e);
    WorkersFlow(cfg, s, e);
  }

  lemma WorkersFlow(cfg: Config, s: State, e: Event)
    requires Holding(s) && Enabled(cfg, s, e)
    ensures var workers' := NextWorkers(cfg, s, e);
            forall w :: w in workers' && InFlight(workers'[w]) ==>
              || (w in s.workers && InFlight(s.workers[w]) && s.workers[w].id == workers'[w].id)
              || !LaunchedStart(s, workers'[w].id)
  {
    if e.Work? {
      StartPcFlight(cfg, s, s.workers[e.w], e.o);
    }
  }

  lemma DetachedFlows(s: State, s': State, id: TaskId)
    requires Flows(s, s') && Detached(s, id)
    ensures Detached(s', id)
  {
  }

  lemma SnapshotFlows(s: State, s': State, id: TaskId, row: Row)
    requires Flows(s, s') && SnapshotFits(s, id, row)
    ensures SnapshotFits(s', id, row)
  {
    if row.runningAt.Some? {
      DetachedFlows(s, s', id);
    }
  }

  /** Only a worker about to record a launch writes `running`. */
  lemma RuntimeWriter(s: State, e: Event)
    requires StatementOf(s, e).UpdateRuntime?
    ensures e.Work? && e.w in s.workers && s.workers[e.w].Record? && s.workers[e.w].id == StatementOf(s, e).id
  {
  }

  /** A finished row stays finished. */
  lemma FinishedStep(cfg: Config, s: State, e: Event, id: TaskId)
    requires Inv(s) && Enabled(cfg, s, e) && Finished(s, id)
    ensures Finished(Next(cfg, s, e), id)
  {
    StepFlows(cfg, s, e);
    DetachedFlows(s, Next(cfg, s, e), id);
    StatementIsLegal(cfg, s, e);
    RowStep(s, StatementOf(s, e), s.now, id);
    if StatementOf(s, e).UpdateRuntime? {
      RuntimeWriter(s, e);
    }
  }

  // ---- Each part of the invariant ----

  lemma RowsStep(cfg: Config, s: State, e: Event)
    requires Inv(s) && Enabled(cfg, s, e)
    ensures Rows(Next(cfg, s, e))
  {
    var s' := Next(cfg, s, e);
    var stmt := StatementOf(s, e);
    StepKeepsRowsAndShapes(cfg, s, e);
    StepFlows(cfg, s, e);
    StatementIsLegal(cfg, s, e);
    forall id | id in s'.tasks && s'.tasks[id].runningAt.Some? ensures Detached(s', id) {
      if id !in s.tasks {
        NewRowStep(s, stmt, s.now, id);
      } else {
        RowStep(s, stmt, s.now, id);
        if s.tasks[id].runningAt.Some? {
          DetachedFlows(s, s', id);
        } else {
          RuntimeWriter(s, e);
          RecordingDetaches(cfg, s, e.w, e.o);
        }
      }
    }
  }

  lemma RecordingDetaches(cfg: Config, s: State, w: WorkerId, o: Outcome)
    requires Inv(s) && w in s.workers && s.workers[w].Record?
    ensures Detached(Next(cfg, s, Work(w, o)), s.workers[w].id)
  {
    assert HolderFits(s, s.workers[w]);
  }

  // The lemmas below speak of the successor `s'` only through the component they are about and
  // through `Flows`.

  lemma RequestsStep(cfg: Config, s: State, e: Event, s': State)
    requires Rows(s) && Requests(s) && Enabled(cfg, s, e)
    requires Flows(s, s') && s'.requests == NextRequests(s, e)
    ensures Requests(s')
  {
    forall q | q in s'.requests ensures SnapshotFits(s', s'.requests[q].orig, s'.requests[q].row) {
      if e.RestartBegin? && e.q == q {
        assert SnapshotFits(s, e.orig, s.tasks[e.orig]);
      }
      SnapshotFlows(s, s', s'.requests[q].orig, s'.requests[q].row);
    }
  }

  lemma ReconStep(cfg: Config, s: State, e: Event, s': State)
    requires Rows(s) && Watchers(s) && Enabled(cfg, s, e)
    requires Flows(s, s') && s'.recon == NextRecon(s, e)
    ensures forall p, id :: p in s'.recon && id in s'.recon[p] ==> SnapshotFits(s', id, s'.recon[p][id])
  {
    forall p, id | p in s'.recon && id in s'.recon[p] ensures SnapshotFits(s', id, s'.recon[p][id]) {
      var row := s'.recon[p][id];
      if !(e.ReconList? && e.p == p && e.db) {
        assert id in s.recon[p] && row == s.recon[p][id];
      }
      assert SnapshotFits(s, id, row);
      SnapshotFlows(s, s', id, row);
    }
  }

  lemma SweepSnapStep(cfg: Config, s: State, e: Event, s': State)
    requires Rows(s) && Watchers(s) && Enabled(cfg, s, e)
    requires Flows(s, s') && s'.sweeps == NextSweeps(s, e)
    ensures forall p, id :: p in s'.sweeps && id in s'.sweeps[p].snap ==>
              SnapshotFits(s', id, s'.sweeps[p].snap[id]) && s'.sweeps[p].snap[id].runningAt.Some?
  {
    hide Rows, Watchers, Enabled, Flows, SnapshotFits, NextSweeps;
    forall p, id | p in s'.sweeps && id in s'.sweeps[p].snap
      ensures SnapshotFits(s', id, s'.sweeps[p].snap[id]) && s'.sweeps[p].snap[id].runningAt.Some?
    {
      SnapFits(cfg, s, e, p, id);
      SnapshotFlows(s, s', id, s'.sweeps[p].snap[id]);
    }
  }

  lemma SnapFits(cfg: Config, s: State, e: Event, p: ProcId, id: TaskId)
    requires Rows(s) && Watchers(s) && Enabled(cfg, s, e)
    requires p in NextSweeps(s, e) && id in NextSweeps(s, e)[p].snap
    ensures SnapshotFits(s, id, NextSweeps(s, e)[p].snap[id]) && NextSweeps(s, e)[p].snap[id].runningAt.Some?
  {
    hide Overdue, HasRef;
    var row := NextSweeps(s, e)[p].snap[id];
    if !(e.SweepList? && e.p == p && e.db) {
      assert id in s.sweeps[p].snap && row == s.sweeps[p].snap[id];
    }
  }

  lemma SweepCurStep(cfg: Config, s: State, e: Event, s': State)
    requires Watchers(s) && Enabled(cfg, s, e)
    requires Flows(s, s') && s'.sweeps == NextSweeps(s, e)
    ensures forall p :: p in s'.sweeps && s'.sweeps[p].cur.Some? ==>
      Detached(s', s'.sweeps[p].cur.value) && s'.tasks[s'.sweeps[p].cur.value].runningAt.Some?
  {
    forall p | p in s'.sweeps && s'.sweeps[p].cur.Some?
      ensures Detached(s', s'.sweeps[p].cur.value) && s'.tasks[s'.sweeps[p].cur.value].runningAt.Some?
    {
      var id := s'.sweeps[p].cur.value;
      if e.SweepClear? && e.p == p {
        assert SnapshotFits(s, id, s.sweeps[p].snap[id]);
      }
      assert Detached(s, id);
      DetachedFlows(s, s', id);
    }
  }

  lemma ReapersStep(cfg: Config, s: State, e: Event, s': State)
    requires Rows(s) && Reapers(s) && Enabled(cfg, s, e)
    requires Flows(s, s') && s'.listed == NextListed(s, e)
    requires s'.reapers == NextReapers(cfg, s, e) && s'.marks == NextMarks(s, e)
    requires forall id :: Finished(s, id) ==> Finished(s', id)
    ensures Reapers(s')
  {
    hide Enabled, NextListed, NextReapers, NextMarks, Finished;
    ListedStep(s, e, s');
    ReapingStep(cfg, s, e, s');
  }

  lemma ListedStep(s: State, e: Event, s': State)
    requires Rows(s) && Reapers(s) && Flows(s, s') && s'.listed == NextListed(s, e)
    requires forall id :: Finished(s, id) ==> Finished(s', id)
    ensures forall p, id :: p in s'.listed && id in s'.listed[p] ==> Finished(s', id) && s'.tasks[id].prov.Docker?
  {
    forall p, id | p in s'.listed && id in s'.listed[p] ensures Finished(s', id) && s'.tasks[id].prov.Docker? {
      assert Finished(s, id);
    }
  }

  lemma ReapingStep(cfg: Config, s: State, e: Event, s': State)
    requires Reapers(s) && Enabled(cfg, s, e) && Flows(s, s')
    requires s'.reapers == NextReapers(cfg, s, e) && s'.marks == NextMarks(s, e)
    requires forall id :: Finished(s, id) ==> Finished(s', id)
    ensures forall p, id :: (p, id) in s'.reapers ==>
      Finished(s', id) && s'.tasks[id].prov.Docker? && (p, id) in s'.marks
  {
    forall p, id | (p, id) in s'.reapers
      ensures Finished(s', id) && s'.tasks[id].prov.Docker? && (p, id) in s'.marks
    {
      if (p, id) !in s.reapers {
        assert p in s.listed && id in s.listed[p];
      }
      assert Finished(s, id);
    }
  }

  predicate Commits(s: State, stmt: Statement, id: TaskId) {
    stmt == Cas(id, Processing, Admitted) && id in s.tasks && s.tasks[id].status == Processing
  }

  /** A start row leaves the queue by a commit and in no other way. */
  lemma LaunchedStep(s: State, s': State, stmt: Statement, id: TaskId)
    requires Legal(s, stmt) && s'.tasks == Apply(s.tasks, stmt, s.now)
    ensures LaunchedStart(s', id) <==> LaunchedStart(s, id) || Commits(s, stmt, id)
  {
  }

  lemma AdmitCount(s: State, e: Event, id: TaskId)
    ensures NextHistory(s, e).admits[id] == s.hist.admits[id] + if Commits(s, StatementOf(s, e), id) then 1 else 0
  {
  }

  lemma AdmitsStep(cfg: Config, s: State, e: Event, s': State, id: TaskId)
    requires Counters(s) && Legal(s, StatementOf(s, e)) && Enabled(cfg, s, e)
    requires s'.tasks == Apply(s.tasks, StatementOf(s, e), s.now) && s'.hist == NextHistory(s, e)
    ensures s'.hist.admits[id] == if LaunchedStart(s', id) then 1 else 0
  {
    LaunchedStep(s, s', StatementOf(s, e), id);
    AdmitCount(s, e, id);
  }

  lemma LaunchCount(s: State, e: Event, id: TaskId)
    ensures NextHistory(s, e).launches[id] == s.hist.launches[id] +
      if e.Work? && e.w in s.workers && s.workers[e.w] == Launch(id) then 1 else 0
  {
  }

  lemma LaunchesStep(cfg: Config, s: State, e: Event, s': State, id: TaskId)
    requires Holding(s) && Counters(s) && Enabled(cfg, s, e)
    requires s'.hist == NextHistory(s, e)
    ensures s'.hist.launches[id] <= s'.hist.admits[id]
  {
    LaunchCount(s, e, id);
    AdmitCount(s, e, id);
    if e.Work? && s.workers[e.w] == Launch(id) {
      assert HolderFits(s, s.workers[e.w]);
    }
  }

  lemma UnlaunchedStep(cfg: Config, s: State, e: Event, s': State, w: WorkerId)
    requires Holding(s) && Counters(s) && Enabled(cfg, s, e)
    requires s'.workers == NextWorkers(cfg, s, e) && s'.hist == NextHistory(s, e)
    requires w in s'.workers && Unlaunched(s'.workers[w])
    ensures s'.hist.launches[s'.workers[w].id] == 0
  {
    LaunchCount(s, e, s'.workers[w].id);
    if e.Work? && e.w == w {
      assert HolderFits(s, s.workers[w]);
      StartPcFlight(cfg, s, s.workers[w], e.o);
    }
  }

  lemma CountersStep(cfg: Config, s: State, e: Event, s': State)
    requires Holding(s) && Counters(s) && Enabled(cfg, s, e) && Legal(s, StatementOf(s, e))
    requires s'.tasks == Apply(s.tasks, StatementOf(s, e), s.now)
    requires s'.workers == NextWorkers(cfg, s, e) && s'.hist == NextHistory(s, e)
    ensures Counters(s')
  {
    forall id ensures s'.hist.admits[id] == (if LaunchedStart(s', id) then 1 else 0)
                   && s'.hist.launches[id] <= s'.hist.admits[id] {
      AdmitsStep(cfg, s, e, s', id);
      LaunchesStep(cfg, s, e, s', id);
    }
    forall w | w in s'.workers && Unlaunched(s'.workers[w]) ensures s'.hist.launches[s'.workers[w].id] == 0 {
      UnlaunchedStep(cfg, s, e, s', w);
    }
  }

  // ---- Who holds what ----

  /** What a statement may do to a row it is not issued for by the row's own holder. */
  ghost predicate Foreign(s: State, stmt: Statement, id: TaskId) {
    match stmt
    case Nothing => true
    case Create(j, _) => j != id
    case Cas(j, from, _) => j != id || (id in s.tasks && s.tasks[id].status != from)
    case UpdateStatus(j, _) => j != id || LaunchedStart(s, id)
    case UpdateRuntime(j, _) => j != id
    case ClearRuntimeRef(j) => j != id || LaunchedStart(s, id)
    case RevertAdmittedStuck(_) => true
  }

  lemma HeldRowUntouched(s: State, s': State, pc: Pc, stmt: Statement)
    requires !pc.Idle? && HolderFits(s, pc) && Legal(s, stmt) && Foreign(s, stmt, pc.id)
    requires s'.tasks == Apply(s.tasks, stmt, s.now) && Flows(s, s')
    ensures HolderFits(s', pc)
  {
    if HasTarget(pc) {
      SnapshotFlows(s, s', pc.target, pc.row);
    }
  }

  lemma WorkerIsForeign(s: State, pc: Pc, other: Pc, o: Outcome)
    requires !pc.Idle? && !other.Idle? && pc.id != other.id
    requires HolderFits(s, pc)
    ensures Foreign(s, WorkStatement(s, pc, o), other.id)
  {
  }

  lemma OtherHolders(cfg: Config, s: State, e: Event, v: WorkerId)
    requires Holding(s) && Watchers(s) && Reapers(s) && Enabled(cfg, s, e)
    requires v in s.workers && !s.workers[v].Idle? && !(e.Work? && e.w == v)
    ensures Foreign(s, StatementOf(s, e), s.workers[v].id)
  {
    assert HolderFits(s, s.workers[v]);
    if e.Work? {
      assert HolderFits(s, s.workers[e.w]);
      WorkerIsForeign(s, s.workers[e.w], s.workers[v], e.o);
    } else if !e.Claim? {
      OutsiderStatement(cfg, s, e);
    }
  }

  lemma OwnStartHolder(cfg: Config, s: State, pc: Pc, o: Outcome, s': State)
    requires !pc.Idle? && HolderFits(s, pc) && !IsStopPc(pc)
    requires s'.tasks == Apply(s.tasks, WorkStatement(s, pc, o), s.now)
    ensures var pc' := StartPc(cfg, s, pc, o); !pc'.Idle? ==> HolderFits(s', pc')
  {
  }

  lemma StopTargetFits(s: State, pc: Pc, o: Outcome, s': State)
    requires Rows(s) && !pc.Idle? && HolderFits(s, pc) && IsStopPc(pc) && Flows(s, s')
    requires HasTarget(StopPc(s, pc, o))
    ensures var pc' := StopPc(s, pc, o);
            && SnapshotFits(s', pc'.target, pc'.row) && InSlot(pc'.row.status)
            && s'.tasks[pc.id].target == Some(pc'.target) && s'.tasks[pc.id].prov == pc'.row.prov
  {
    var pc' := StopPc(s, pc, o);
    SnapshotFlows(s, s', pc'.target, pc'.row);
  }

  lemma OwnStopRow(s: State, pc: Pc, o: Outcome)
    requires !pc.Idle? && HolderFits(s, pc) && IsStopPc(pc) && !StopPc(s, pc, o).Idle?
    ensures var pc', t' := StopPc(s, pc, o), Apply(s.tasks, WorkStatement(s, pc, o), s.now);
            && IsStopPc(pc') && pc'.id == pc.id && pc.id in t' && t'[pc.id].op.Stop?
            && t'[pc.id].status in (if pc'.StopRec? then {Processing, Succeeded, Failed} else {Processing})
  {
  }

  lemma OwnStopHolder(s: State, pc: Pc, o: Outcome, s': State)
    requires Rows(s) && !pc.Idle? && HolderFits(s, pc) && IsStopPc(pc)
    requires s'.tasks == Apply(s.tasks, WorkStatement(s, pc, o), s.now) && Flows(s, s')
    ensures var pc' := StopPc(s, pc, o); !pc'.Idle? ==> HolderFits(s', pc')
  {
    hide StopPc, WorkStatement, Apply, SnapshotFits, Rows, Flows;
    var pc' := StopPc(s, pc, o);
    if !pc'.Idle? {
      OwnStopRow(s, pc, o);
      if HasTarget(pc') {
        StopTargetFits(s, pc, o, s');
      }
    }
  }

  lemma HoldersFit(cfg: Config, s: State, e: Event, s': State)
    requires Rows(s) && Holding(s) && Watchers(s) && Reapers(s) && Enabled(cfg, s, e) && Flows(s, s')
    requires s'.tasks == Apply(s.tasks, StatementOf(s, e), s.now) && s'.workers == NextWorkers(cfg, s, e)
    ensures forall v :: v in s'.workers && !s'.workers[v].Idle? ==> HolderFits(s', s'.workers[v])
  {
    hide NextRecords, NextRequests, NextRecon, NextSweeps, NextListed, NextReapers, NextMarks, NextHistory, CallsOf;
    hide WorkStatement, StartPc, StopPc, WorkCalls, WorkHistory, Legal, Finished, Rows, Watchers, Reapers, Requests;
    hide Counters;
    StatementIsLegal(cfg, s, e);
    forall v | v in s'.workers && !s'.workers[v].Idle? ensures HolderFits(s', s'.workers[v]) {
      if e.Work? && e.w == v {
        if IsStopPc(s.workers[v]) {
          OwnStopHolder(s, s.workers[v], e.o, s');
        } else {
          OwnStartHolder(cfg, s, s.workers[v], e.o, s');
        }
      } else if !(e.Claim? && e.w == v) {
        OtherHolders(cfg, s, e, v);
        HeldRowUntouched(s, s', s.workers[v], StatementOf(s, e));
      }
    }
  }

  lemma HoldingStep(cfg: Config, s: State, e: Event)
    requires Inv(s) && Enabled(cfg, s, e)
    ensures Holding(Next(cfg, s, e))
  {
    StepFlows(cfg, s, e);
    HoldersFit(cfg, s, e, Next(cfg, s, e));
    HoldersDistinct(cfg, s, e);
  }

  lemma HoldersDistinct(cfg: Config, s: State, e: Event)
    requires Holding(s) && Enabled(cfg, s, e)
    ensures var workers' := NextWorkers(cfg, s, e);
            forall v, w :: v in workers' && w in workers' && v != w && !workers'[v].Idle? && !workers'[w].Idle?
              ==> workers'[v].id != workers'[w].id
  {
    if e.Work? {
      StartPcFlight(cfg, s, s.workers[e.w], e.o);
    } else if e.Claim? {
      forall v | v in s.workers && !s.workers[v].Idle? ensures s.workers[v].id != e.picked {
        assert HolderFits(s, s.workers[v]);
      }
    }
  }

  lemma InvStep(cfg: Config, s: State, e: Event)
    requires Inv(s) && Enabled(cfg, s, e)
    ensures Inv(Next(cfg, s, e))
  {
    hide NextRecords, NextRequests, NextRecon, NextSweeps, NextListed, NextReapers, NextMarks, NextHistory;
    hide NextWorkers, CallsOf, Apply, StatementOf, WorkStatement, WorkPc, StartPc, StopPc, WorkCalls, WorkHistory;
    hide Legal, HolderFits, Finished, Rows, Holding, Reapers, Requests, Counters;
    var s' := Next(cfg, s, e);
    StatementIsLegal(cfg, s, e);
    StepFlows(cfg, s, e);
    forall id | Finished(s, id) ensures Finished(s', id) {
      FinishedStep(cfg, s, e, id);
    }
    RowsStep(cfg, s, e);
    HoldingStep(cfg, s, e);
    ReconStep(cfg, s, e, s');
    SweepSnapStep(cfg, s, e, s');
    SweepCurStep(cfg, s, e, s');
    ReapersStep(cfg, s, e, s');
    RequestsStep(cfg, s, e, s');
    CountersStep(cfg, s, e, s');
  }

  lemma WorkersKept(cfg: Config, s: State, e: Event)
    requires Enabled(cfg, s, e)
    ensures NextWorkers(cfg, s, e).Keys == s.workers.Keys
    ensures |NextWorkers(cfg, s, e)| == |s.workers|
  {
    assert |NextWorkers(cfg, s, e)| == |NextWorkers(cfg, s, e).Keys| && |s.workers| == |s.workers.Keys|;
  }

  // ---- Whole runs ----

  lemma {:induction false} InvRun(cfg: Config, reg: Regime, s: State, es: seq<Event>)
    requires Inv(s) && IsRun(cfg, reg, s, es)
    ensures Inv(Exec(cfg, reg, s, es))
  {
    if es == [] {
    } else {
      var init := es[..|es| - 1];
      InvRun(cfg, reg, s, init);
      InvStep(cfg, Exec(cfg, reg, s, init), es[|es| - 1]);
    }
  }

  lemma InitialInv(s: State)
    requires Initial(s)
    ensures Inv(s)
  {
  }

  lemma {:induction false} WorkersCount(cfg: Config, reg: Regime, s: State, es: seq<Event>)
    requires IsRun(cfg, reg, s, es)
    ensures Exec(cfg, reg, s, es).workers.Keys == s.workers.Keys
    ensures |Exec(cfg, reg, s, es).workers| == |s.workers|
  {
    if es == [] {
    } else {
      var init := es[..|es| - 1];
      WorkersCount(cfg, reg, s, init);
      WorkersKept(cfg, Exec(cfg, reg, s, init), es[|es| - 1]);
    }
  }
}
