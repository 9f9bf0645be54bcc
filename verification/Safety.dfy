/** What holds in every reachable state and along every run, for any number of workers. */
module Safety {
  import opened Model
  import opened Table
  import opened Machine
  import opened Providers
  import opened Invariant

  /** Reachable from an empty table with idle workers, with every fault allowed. */
  lemma Reachable(cfg: Config, reg: Regime, s0: State, es: seq<Event>)
    requires Initial(s0) && IsRun(cfg, reg, s0, es)
    ensures Inv(Exec(cfg, reg, s0, es))
  {
    InitialInv(s0);
    InvRun(cfg, reg, s0, es);
  }

  /** A task is moved to `admitted` at most once and handed to its provider at most once, and it
      has been admitted exactly when it is a start row that has left the queue. */
  lemma {:induction false} AtMostOnce(cfg: Config, reg: Regime, s0: State, es: seq<Event>, id: TaskId)
    requires Initial(s0) && IsRun(cfg, reg, s0, es)
    ensures var s := Exec(cfg, reg, s0, es);
            && s.hist.launches[id] <= s.hist.admits[id] <= 1
            && (s.hist.admits[id] == 1 <==> LaunchedStart(s, id))
  {
    Reachable(cfg, reg, s0, es);
  }

  /** Row shapes: queued and admitted rows carry neither reference nor running stamp, running
      rows carry a stamp, and a stop row is never admitted, running or stopped. */
  lemma {:induction false} Shapes(cfg: Config, reg: Regime, s0: State, es: seq<Event>, id: TaskId)
    requires Initial(s0) && IsRun(cfg, reg, s0, es)
    requires id in Exec(cfg, reg, s0, es).tasks
    ensures var r := Exec(cfg, reg, s0, es).tasks[id];
            && (r.status in {Pending, Processing, Admitted} ==> r.ref == "" && r.runningAt.None?)
            && (r.status == Running ==> r.runningAt.Some?)
            && (r.op.Stop? ==> r.status in {Pending, Processing, Succeeded, Failed})
            && (SweepListed(r) ==> r.runningAt.Some?)
            && (forall before :: Stuck(r, before) ==> r.op.Start?)
  {
    Reachable(cfg, reg, s0, es);
    assert RowShape(Exec(cfg, reg, s0, es).tasks[id]);
  }

  /** The reconciler never touches a row that was listed without a reference, and never one that
      is still admitted, however stale its listing. */
  lemma ReconcilerWrites(cfg: Config, s: State, p: ProcId, id: TaskId, phase: Phase, db: bool)
    requires Inv(s) && Enabled(cfg, s, ReconItem(p, id, phase, db))
    requires StatementOf(s, ReconItem(p, id, phase, db)) != Nothing
    ensures s.recon[p][id].ref != ""
    ensures Detached(s, id) && s.tasks[id].status != Admitted
  {
    assert SnapshotFits(s, id, s.recon[p][id]);
  }

  lemma {:induction false} FinishedForever(cfg: Config, reg: Regime, s: State, es: seq<Event>, id: TaskId)
    requires Inv(s) && IsRun(cfg, reg, s, es) && Finished(s, id)
    ensures Finished(Exec(cfg, reg, s, es), id)
  {
    if es == [] {
    } else {
      var init := es[..|es| - 1];
      FinishedForever(cfg, reg, s, init, id);
      InvRun(cfg, reg, s, init);
      FinishedStep(cfg, Exec(cfg, reg, s, init), es[|es| - 1], id);
    }
  }

  /** A start row that is terminal and still carries a reference is terminal in every later
      state, so acting on a listing of such rows needs no second look at the status. */
  lemma {:induction false} TerminalWithRefIsFinal(cfg: Config, reg: Regime, s: State, es: seq<Event>, id: TaskId)
    requires Inv(s) && IsRun(cfg, reg, s, es)
    requires id in s.tasks && s.tasks[id].op.Start? && Terminal(s.tasks[id].status) && HasRef(s.tasks[id])
    ensures var s' := Exec(cfg, reg, s, es);
            id in s'.tasks && Terminal(s'.tasks[id].status) && !Occupies(s'.tasks[id])
  {
    assert RowShape(s.tasks[id]);
    FinishedForever(cfg, reg, s, es, id);
  }

  /** Whatever a reaper is about to do, its row is a docker start row out of its slot for good. */
  lemma {:induction false} ReaperIsSafe(cfg: Config, reg: Regime, s0: State, es: seq<Event>, p: ProcId, id: TaskId)
    requires Initial(s0) && IsRun(cfg, reg, s0, es)
    requires (p, id) in Exec(cfg, reg, s0, es).reapers
    ensures var s := Exec(cfg, reg, s0, es);
            Finished(s, id) && s.tasks[id].prov.Docker? && !Occupies(s.tasks[id])
  {
    Reachable(cfg, reg, s0, es);
  }

  // ---- Stop finality ----

  /** The stop is final: its target was seen running, or there is only one worker. */
  predicate FinalRead(s: State, before: Status) {
    before == Running || |s.workers| == 1
  }

  ghost predicate InProgress(s: State, pc: Pc, single: bool)
    requires HasTarget(pc)
  {
    && pc.id in s.hist.seen && s.hist.seen[pc.id] == Read(pc.target, pc.row.status)
    && (pc.StopSucceed? && (pc.row.status == Running || single) ==> Finished(s, pc.target))
  }

  ghost predicate StopsInProgress(s: State) {
    forall w :: w in s.workers && HasTarget(s.workers[w]) ==> InProgress(s, s.workers[w], |s.workers| == 1)
  }

  ghost predicate StopsDone(s: State) {
    forall id :: id in s.tasks && s.tasks[id].op.Stop? && s.tasks[id].status == Succeeded ==>
      && id in s.hist.seen && s.tasks[id].target == Some(s.hist.seen[id].target)
      && InSlot(s.hist.seen[id].status)
      && (FinalRead(s, s.hist.seen[id].status) ==> Finished(s, s.hist.seen[id].target))
  }

  ghost predicate Stops(s: State) {
    StopsInProgress(s) && StopsDone(s)
  }

  /** A single worker that is processing a stop leaves nobody in flight. */
  lemma AloneMeansDetached(s: State, w: WorkerId, id: TaskId)
    requires |s.workers| == 1 && w in s.workers && !InFlight(s.workers[w]) && LaunchedStart(s, id)
    ensures Detached(s, id)
  {
    forall v | v in s.workers ensures v == w {
      if v != w {
        SubsetCard({v, w}, s.workers.Keys);
      }
    }
  }

  lemma TargetIsDetached(s: State, w: WorkerId)
    requires Holding(s) && w in s.workers && HasTarget(s.workers[w])
    requires FinalRead(s, s.workers[w].row.status)
    ensures Detached(s, s.workers[w].target)
  {
    var pc := s.workers[w];
    assert HolderFits(s, pc);
    if pc.row.status != Running {
      AloneMeansDetached(s, w, pc.target);
    }
  }

  lemma StoppingTarget(cfg: Config, s: State, w: WorkerId, o: Outcome)
    requires Inv(s) && w in s.workers && s.workers[w].StopTarget? && o.db
    requires FinalRead(s, s.workers[w].row.status)
    ensures Finished(Next(cfg, s, Work(w, o)), s.workers[w].target)
  {
    hide StartPc, StopPc, RowShape, SnapshotFits, NextRecords, NextRequests, NextRecon, NextSweeps, NextListed;
    hide NextReapers, NextMarks, NextHistory, NextWorkers, CallsOf, WorkPc, WorkCalls, WorkHistory, Legal;
    hide HolderFits, Rows, Holding, Watchers, Reapers, Requests, Counters;
    var e, target := Work(w, o), s.workers[w].target;
    TargetIsDetached(s, w);
    StepFlows(cfg, s, e);
    DetachedFlows(s, Next(cfg, s, e), target);
    assert StatementOf(s, e) == UpdateStatus(target, Stopped);
  }

  /** What a stop row read of its target is on record once and for all. */
  lemma SeenStep(cfg: Config, s: State, e: Event, id: TaskId)
    requires Holding(s) && Enabled(cfg, s, e) && id in s.hist.seen
    requires e.Work? ==> s.workers[e.w] != StopLoad(id)
    ensures id in NextHistory(s, e).seen && NextHistory(s, e).seen[id] == s.hist.seen[id]
  {
  }

  lemma StopPcOrigin(s: State, pc: Pc, o: Outcome)
    requires !pc.Idle? && HasTarget(StopPc(s, pc, o))
    ensures var pc' := StopPc(s, pc, o);
            && pc'.id == pc.id
            && (pc.StopLoad? ==>
                 && o.db && pc.id in s.tasks && s.tasks[pc.id].target == Some(pc'.target)
                 && pc'.target in s.tasks && pc'.row == s.tasks[pc'.target] && !pc'.StopSucceed?)
            && (!pc.StopLoad? ==> HasTarget(pc) && pc'.target == pc.target && pc'.row == pc.row
                                  && (pc'.StopSucceed? ==> pc.StopTarget? && o.db))
  {
  }

  /** A worker gets into the middle of a stop only from within that stop. */
  lemma StopFromStop(cfg: Config, s: State, pc: Pc, o: Outcome)
    requires IsStopPc(WorkPc(cfg, s, pc, o)) && !WorkPc(cfg, s, pc, o).StopLoad?
    ensures IsStopPc(pc) && WorkPc(cfg, s, pc, o) == StopPc(s, pc, o)
  {
  }

  lemma OwnStopProgress(cfg: Config, s: State, w: WorkerId, o: Outcome)
    requires Inv(s) && StopsInProgress(s) && w in s.workers && !s.workers[w].Idle?
    requires HasTarget(WorkPc(cfg, s, s.workers[w], o))
    ensures InProgress(Next(cfg, s, Work(w, o)), WorkPc(cfg, s, s.workers[w], o), |s.workers| == 1)
  {
    hide StartPc;
    var pc := s.workers[w];
    StopFromStop(cfg, s, pc, o);
    var pc' := StopPc(s, pc, o);
    StopPcOrigin(s, pc, o);
    assert Next(cfg, s, Work(w, o)).hist == WorkHistory(s, pc, o);
    if pc'.StopSucceed? && FinalRead(s, pc'.row.status) {
      StoppingTarget(cfg, s, w, o);
    }
  }

  lemma OtherStopProgress(cfg: Config, s: State, e: Event, w: WorkerId)
    requires Inv(s) && Stops(s) && Enabled(cfg, s, e)
    requires w in s.workers && HasTarget(s.workers[w]) && !(e.Work? && e.w == w)
    ensures InProgress(Next(cfg, s, e), s.workers[w], |s.workers| == 1)
  {
    hide StartPc, StopPc, Apply, StatementOf, NextRecords, NextRequests, NextRecon, NextSweeps, NextListed;
    hide NextReapers, NextMarks, NextHistory, NextWorkers, CallsOf, WorkStatement, WorkPc, WorkCalls, WorkHistory;
    hide Legal, HolderFits, Finished, Rows, Watchers, Reapers, Requests, Counters;
    var pc := s.workers[w];
    SeenStep(cfg, s, e, pc.id);
    if pc.StopSucceed? && FinalRead(s, pc.row.status) {
      FinishedStep(cfg, s, e, pc.target);
    }
  }

  lemma WorkLeavesStops(s: State, pc: Pc, o: Outcome, id: TaskId)
    requires !pc.Idle? && HolderFits(s, pc) && id in s.tasks && s.tasks[id].op.Stop?
    requires Apply(s.tasks, WorkStatement(s, pc, o), s.now)[id].status == Succeeded
    ensures s.tasks[id].status == Succeeded || (pc.StopSucceed? && pc.id == id)
  {
  }

  /** A stop row becomes `succeeded` only by its own worker's last status write. */
  lemma StopSucceeds(cfg: Config, s: State, e: Event, id: TaskId)
    requires Inv(s) && Enabled(cfg, s, e)
    requires id in Next(cfg, s, e).tasks
    requires var r := Next(cfg, s, e).tasks[id]; r.op.Stop? && r.status == Succeeded
    ensures id in s.tasks && s.tasks[id].op.Stop?
    ensures s.tasks[id].status != Succeeded ==>
      e.Work? && s.workers[e.w].StopSucceed? && s.workers[e.w].id == id
  {
    StatementIsLegal(cfg, s, e);
    if id !in s.tasks {
      NewRowStep(s, StatementOf(s, e), s.now, id);
    } else {
      RowStep(s, StatementOf(s, e), s.now, id);
      if e.Work? {
        WorkLeavesStops(s, s.workers[e.w], e.o, id);
      } else if !e.Claim? {
        OutsiderStatement(cfg, s, e);
        OutsiderLeavesStop(s, StatementOf(s, e), id);
      }
    }
  }

  lemma StopsDoneStep(cfg: Config, s: State, e: Event, id: TaskId)
    requires Inv(s) && Stops(s) && Enabled(cfg, s, e)
    requires id in Next(cfg, s, e).tasks
    requires var r := Next(cfg, s, e).tasks[id]; r.op.Stop? && r.status == Succeeded
    ensures var s' := Next(cfg, s, e);
            && id in s'.hist.seen && s'.tasks[id].target == Some(s'.hist.seen[id].target)
            && InSlot(s'.hist.seen[id].status)
            && (FinalRead(s, s'.hist.seen[id].status) ==> Finished(s', s'.hist.seen[id].target))
  {
    hide NextRecords, NextRequests, NextRecon, NextSweeps, NextListed, NextReapers, NextMarks, NextHistory;
    hide NextWorkers, CallsOf, Apply, StatementOf, WorkStatement, WorkPc, StartPc, StopPc, WorkCalls, WorkHistory;
    hide Legal, Finished, Rows, Watchers, Reapers, Requests, Counters;
    var s' := Next(cfg, s, e);
    StopSucceeds(cfg, s, e, id);
    StepFlows(cfg, s, e);
    if s.tasks[id].status != Succeeded {
      assert HolderFits(s, s.workers[e.w]);
    } else if e.Work? && !s.workers[e.w].Idle? {
      assert HolderFits(s, s.workers[e.w]);
    }
    SeenStep(cfg, s, e, id);
    if FinalRead(s, s.hist.seen[id].status) {
      FinishedStep(cfg, s, e, s.hist.seen[id].target);
    }
  }

  lemma StopsStep(cfg: Config, s: State, e: Event)
    requires Inv(s) && Stops(s) && Enabled(cfg, s, e)
    ensures Stops(Next(cfg, s, e))
  {
    hide WorkPc, Apply, StatementOf, Legal, Finished, InProgress, NextHistory, WorkStatement, StartPc, StopPc;
    hide WorkCalls, WorkHistory, CallsOf, NextRecords, NextRequests, NextRecon, NextSweeps, NextListed;
    hide NextReapers, NextMarks, Rows, Holding, Watchers, Reapers, Requests, Counters;
    var s' := Next(cfg, s, e);
    WorkersKept(cfg, s, e);
    forall w | w in s'.workers && HasTarget(s'.workers[w])
      ensures InProgress(s', s'.workers[w], |s'.workers| == 1)
    {
      if e.Work? && e.w == w {
        OwnStopProgress(cfg, s, w, e.o);
      } else {
        OtherStopProgress(cfg, s, e, w);
      }
    }
    forall id | id in s'.tasks && s'.tasks[id].op.Stop? && s'.tasks[id].status == Succeeded
      ensures && id in s'.hist.seen && s'.tasks[id].target == Some(s'.hist.seen[id].target)
              && InSlot(s'.hist.seen[id].status)
              && (FinalRead(s', s'.hist.seen[id].status) ==> Finished(s', s'.hist.seen[id].target))
    {
      StopsDoneStep(cfg, s, e, id);
    }
  }

  lemma InitialStops(s: State)
    requires Initial(s)
    ensures Stops(s)
  {
  }

  lemma {:induction false} StopsRun(cfg: Config, reg: Regime, s: State, es: seq<Event>)
    requires Inv(s) && Stops(s) && IsRun(cfg, reg, s, es)
    ensures Stops(Exec(cfg, reg, s, es))
  {
    if es == [] {
    } else {
      var init := es[..|es| - 1];
      StopsRun(cfg, reg, s, init);
      InvRun(cfg, reg, s, init);
      StopsStep(cfg, Exec(cfg, reg, s, init), es[|es| - 1]);
    }
  }

  /** A stop that ended `succeeded` after seeing its target running -- or, with a single worker,
      after seeing it admitted -- has taken the target out of its slot for good: no later step
      of any process brings it back. */
  lemma StopIsFinal(cfg: Config, reg: Regime, s0: State, es: seq<Event>, later: seq<Event>, id: TaskId)
    requires Initial(s0) && IsRun(cfg, reg, s0, es)
    requires var s := Exec(cfg, reg, s0, es);
             && id in s.tasks && s.tasks[id].op.Stop? && s.tasks[id].status == Succeeded
             && IsRun(cfg, reg, s, later)
    ensures var s := Exec(cfg, reg, s0, es);
            var s' := Exec(cfg, reg, s, later);
            && id in s.hist.seen && s.tasks[id].target == Some(s.hist.seen[id].target)
            && (FinalRead(s, s.hist.seen[id].status) ==> Finished(s', s.hist.seen[id].target))
  {
    var s := Exec(cfg, reg, s0, es);
    Reachable(cfg, reg, s0, es);
    StopsRun(cfg, reg, s0, es);
    if FinalRead(s, s.hist.seen[id].status) {
      FinishedForever(cfg, reg, s, later, s.hist.seen[id].target);
    }
  }

  lemma {:induction false} SucceededStopStays(cfg: Config, reg: Regime, s: State, es: seq<Event>, id: TaskId)
    requires Inv(s) && IsRun(cfg, reg, s, es)
    requires id in s.tasks && s.tasks[id].op.Stop? && Terminal(s.tasks[id].status)
    ensures id in Exec(cfg, reg, s, es).tasks
    ensures Exec(cfg, reg, s, es).tasks[id].status == s.tasks[id].status
  {
    if es == [] {
    } else {
      var init := es[..|es| - 1];
      SucceededStopStays(cfg, reg, s, init, id);
      InvRun(cfg, reg, s, init);
      ColumnsKept(cfg, reg, s, init, id);
      SucceededStopStep(cfg, Exec(cfg, reg, s, init), es[|es| - 1], id);
    }
  }

  lemma SucceededStopStep(cfg: Config, s: State, e: Event, id: TaskId)
    requires Inv(s) && Enabled(cfg, s, e)
    requires id in s.tasks && s.tasks[id].op.Stop? && Terminal(s.tasks[id].status)
    ensures var t' := Next(cfg, s, e).tasks; id in t' && t'[id].status == s.tasks[id].status
  {
    StatementIsLegal(cfg, s, e);
    assert RowShape(s.tasks[id]);
    TerminalStopKept(s, StatementOf(s, e), id);
  }

  lemma TerminalStopKept(s: State, stmt: Statement, id: TaskId)
    requires Legal(s, stmt) && id in s.tasks && RowShape(s.tasks[id])
    requires s.tasks[id].op.Stop? && Terminal(s.tasks[id].status)
    ensures var t' := Apply(s.tasks, stmt, s.now); id in t' && t'[id].status == s.tasks[id].status
  {
  }

  // ---- When a finished-looking row can come back ----

  /** Worker `w` is in flight on the row and can still get to `UpdateRuntime`. */
  predicate CanRevive(s: State, w: WorkerId, id: TaskId) {
    && w in s.workers && id in s.tasks
    && var pc := s.workers[w];
    && (pc.Reload? || pc.Precheck? || pc.Launch? || pc.Record?) && pc.id == id
    && (pc.Reload? ==> Registered(s.tasks[id].prov))
  }

  ghost predicate DeadRow(s: State, id: TaskId) {
    && LaunchedStart(s, id) && Terminal(s.tasks[id].status)
    && forall w :: !CanRevive(s, w, id)
  }

  lemma WorkRevives(cfg: Config, s: State, pc: Pc, o: Outcome)
    requires !pc.Idle? && HolderFits(s, pc)
    ensures var pc' := WorkPc(cfg, s, pc, o);
            pc'.Reload? || pc'.Precheck? || pc'.Launch? || pc'.Record? ==>
              && pc'.id == pc.id
              && (pc.Commit? ==> s.tasks[pc.id].status == Processing)
              && (!pc.Commit? ==> pc.Reload? || pc.Precheck? || pc.Launch?)
              && (pc.Reload? ==> Registered(s.tasks[pc.id].prov))
  {
  }

  lemma DeadRowStaysTerminal(cfg: Config, s: State, e: Event, id: TaskId)
    requires Inv(s) && Enabled(cfg, s, e) && DeadRow(s, id)
    ensures var t' := Next(cfg, s, e).tasks; id in t' && Terminal(t'[id].status)
  {
    var stmt := StatementOf(s, e);
    StatementIsLegal(cfg, s, e);
    RowStep(s, stmt, s.now, id);
    if stmt.UpdateRuntime? && stmt.id == id {
      RuntimeWriter(s, e);
      assert CanRevive(s, e.w, id);
    }
  }

  lemma DeadRowStep(cfg: Config, s: State, e: Event, id: TaskId)
    requires Inv(s) && Enabled(cfg, s, e) && DeadRow(s, id)
    ensures DeadRow(Next(cfg, s, e), id)
  {
    var s' := Next(cfg, s, e);
    StepFlows(cfg, s, e);
    DeadRowStaysTerminal(cfg, s, e, id);
    forall w ensures !CanRevive(s', w, id) {
      DeadRowNoReviver(cfg, s, e, s', id, w);
    }
  }

  lemma DeadRowNoReviver(cfg: Config, s: State, e: Event, s': State, id: TaskId, w: WorkerId)
    requires Holding(s) && Enabled(cfg, s, e) && DeadRow(s, id)
    requires Flows(s, s') && s'.workers == NextWorkers(cfg, s, e)
    ensures !CanRevive(s', w, id)
  {
    hide Holding, Enabled, Flows, CanRevive, NextWorkers;
    if CanRevive(s', w, id) {
      ReviverWas(cfg, s, e, s', id, w);
      assert false;
    }
  }

  /** Who can revive a terminal row could do so before the step. */
  lemma ReviverWas(cfg: Config, s: State, e: Event, s': State, id: TaskId, w: WorkerId)
    requires Holding(s) && Enabled(cfg, s, e) && id in s.tasks && Terminal(s.tasks[id].status)
    requires Flows(s, s') && s'.workers == NextWorkers(cfg, s, e) && CanRevive(s', w, id)
    ensures CanRevive(s, w, id)
  {
    hide WorkPc, Holding, HolderFits, StatementOf, Oldest, Lockable, Overdue, CanReport, Harmless;
    assert SameColumns(s.tasks[id], s'.tasks[id]);
    if e.Work? && e.w == w {
      OwnReviver(cfg, s, e.o, id, w);
    } else {
      assert s'.workers[w] == s.workers[w];
    }
  }

  lemma OwnReviver(cfg: Config, s: State, o: Outcome, id: TaskId, w: WorkerId)
    requires Holding(s) && w in s.workers && !s.workers[w].Idle?
    requires id in s.tasks && Terminal(s.tasks[id].status)
    requires CanRevive(s.(workers := s.workers[w := WorkPc(cfg, s, s.workers[w], o)]), w, id)
    ensures CanRevive(s, w, id)
  {
    hide WorkPc;
    WorkRevives(cfg, s, s.workers[w], o);
  }

  lemma {:induction false} DeadRowRun(cfg: Config, reg: Regime, s: State, es: seq<Event>, id: TaskId)
    requires Inv(s) && IsRun(cfg, reg, s, es) && DeadRow(s, id)
    ensures DeadRow(Exec(cfg, reg, s, es), id)
  {
    if es == [] {
    } else {
      var init := es[..|es| - 1];
      DeadRowRun(cfg, reg, s, init, id);
      InvRun(cfg, reg, s, init);
      DeadRowStep(cfg, Exec(cfg, reg, s, init), es[|es| - 1], id);
    }
  }

  const GOOD := Outcome(true, true, "container")

  function StepsToRecord(pc: Pc): nat {
    if pc.Reload? then 3 else if pc.Precheck? then 2 else if pc.Launch? then 1 else 0
  }

  /** The worker simply carries on. */
  lemma {:induction false} ReviveRun(cfg: Config, reg: Regime, s: State, w: WorkerId, id: TaskId)
    returns (es: seq<Event>)
    requires Inv(s) && CanRevive(s, w, id)
    ensures IsRun(cfg, reg, s, es)
    ensures id in Exec(cfg, reg, s, es).tasks && Exec(cfg, reg, s, es).tasks[id].status == Running
    decreases StepsToRecord(s.workers[w])
  {
    hide NextRecords, NextRequests, NextRecon, NextSweeps, NextListed, NextReapers, NextMarks, NextHistory, CallsOf;
    hide StopPc, WorkCalls, WorkHistory, Legal, HolderFits, Finished, Rows, Holding, Watchers, Reapers, Requests;
    hide Counters;
    var e := Work(w, GOOD);
    var s' := Next(cfg, s, e);
    if s.workers[w].Record? {
      es := [e];
      RunCons(cfg, reg, s, e, []);
    } else {
      InvStep(cfg, s, e);
      es := ReviveRun(cfg, reg, s', w, id);
      RunCons(cfg, reg, s, e, es);
      es := [e] + es;
    }
  }

  /** A terminal start row can occupy a slot again exactly when some worker is in flight on it
      and can still get to its `UpdateRuntime`; the guard is a fact of the present state. */
  lemma RevivedExactlyByLateWriters(cfg: Config, reg: Regime, s: State, id: TaskId)
    requires Inv(s) && LaunchedStart(s, id) && Terminal(s.tasks[id].status)
    ensures (exists es :: IsRun(cfg, reg, s, es)
                          && id in Exec(cfg, reg, s, es).tasks && Occupies(Exec(cfg, reg, s, es).tasks[id]))
       <==> (exists w :: CanRevive(s, w, id))
  {
    hide IsRun, Exec, Inv;
    if w :| CanRevive(s, w, id) {
      var es := ReviveRun(cfg, reg, s, w, id);
      InvRun(cfg, reg, s, es);
      ColumnsKept(cfg, reg, s, es, id);
    } else {
      forall es | IsRun(cfg, reg, s, es) ensures DeadRow(Exec(cfg, reg, s, es), id) {
        DeadRowRun(cfg, reg, s, es, id);
      }
    }
  }

  /** Rows are never removed, and the columns set at insertion never change. */
  lemma {:induction false} ColumnsKept(cfg: Config, reg: Regime, s: State, es: seq<Event>, id: TaskId)
    requires Inv(s) && IsRun(cfg, reg, s, es) && id in s.tasks
    ensures id in Exec(cfg, reg, s, es).tasks
    ensures SameColumns(s.tasks[id], Exec(cfg, reg, s, es).tasks[id])
  {
    if es == [] {
    } else {
      var init := es[..|es| - 1];
      ColumnsKept(cfg, reg, s, init, id);
      InvRun(cfg, reg, s, init);
      StepFlows(cfg, Exec(cfg, reg, s, init), es[|es| - 1]);
    }
  }

  // ---- What a process may still rely on after all others have run for a while ----

  /** Out of its slot for good, and with nothing left to reap. */
  ghost predicate Reaped(s: State, id: TaskId) {
    Finished(s, id) && s.tasks[id].ref == ""
  }

  lemma ReapedStep(cfg: Config, s: State, e: Event, id: TaskId)
    requires Inv(s) && Enabled(cfg, s, e) && Reaped(s, id)
    ensures Reaped(Next(cfg, s, e), id)
  {
    hide Enabled, StatementOf, Legal, CallsOf, NextHistory, Rows, Holding, Watchers, Reapers, Requests, Counters;
    FinishedStep(cfg, s, e, id);
    StatementIsLegal(cfg, s, e);
    if StatementOf(s, e).UpdateRuntime? {
      RuntimeWriter(s, e);
    }
  }

  lemma {:induction false} ReapedForever(cfg: Config, reg: Regime, s: State, es: seq<Event>, id: TaskId)
    requires Inv(s) && IsRun(cfg, reg, s, es) && Reaped(s, id)
    ensures Reaped(Exec(cfg, reg, s, es), id)
  {
    if es == [] {
    } else {
      var init := es[..|es| - 1];
      ReapedForever(cfg, reg, s, init, id);
      InvRun(cfg, reg, s, init);
      ReapedStep(cfg, Exec(cfg, reg, s, init), es[|es| - 1], id);
    }
  }

  lemma {:induction false} ClockRuns(cfg: Config, reg: Regime, s: State, es: seq<Event>)
    requires IsRun(cfg, reg, s, es)
    ensures s.now <= Exec(cfg, reg, s, es).now
  {
    if es == [] {
    } else {
      ClockRuns(cfg, reg, s, es[..|es| - 1]);
    }
  }

  lemma {:induction false} CallsAccumulate(cfg: Config, reg: Regime, s: State, es: seq<Event>)
    requires IsRun(cfg, reg, s, es)
    ensures s.calls <= Exec(cfg, reg, s, es).calls
  {
    if es == [] {
    } else {
      CallsAccumulate(cfg, reg, s, es[..|es| - 1]);
    }
  }

  /** A stop row whose outcome is written. */
  ghost predicate StopEnded(s: State, id: TaskId) {
    id in s.tasks && s.tasks[id].op.Stop? && Terminal(s.tasks[id].status)
  }

  ghost predicate Later(s: State, s': State) {
    && s'.workers.Keys == s.workers.Keys && s.now <= s'.now && s.calls <= s'.calls
    && (forall id :: id in s.tasks ==> id in s'.tasks && SameColumns(s.tasks[id], s'.tasks[id]))
    && (forall id :: Finished(s, id) ==> Finished(s', id))
    && (forall id :: StopEnded(s, id) ==> StopEnded(s', id) && s'.tasks[id].status == s.tasks[id].status)
    && (forall id :: Reaped(s, id) ==> Reaped(s', id))
  }

  ghost predicate AllFinished(s: State, ids: set<TaskId>) {
    forall id :: id in ids ==> Finished(s, id)
  }

  lemma ReachesLater(cfg: Config, reg: Regime, s: State, s': State)
    requires Inv(s) && Reaches(cfg, reg, s, s')
    ensures Inv(s') && Later(s, s')
  {
    hide Inv, Finished, Reaped, IsRun, Exec;
    var es :| IsRun(cfg, reg, s, es) && Exec(cfg, reg, s, es) == s';
    InvRun(cfg, reg, s, es);
    WorkersCount(cfg, reg, s, es);
    ClockRuns(cfg, reg, s, es);
    CallsAccumulate(cfg, reg, s, es);
    forall id | id in s.tasks ensures id in s'.tasks && SameColumns(s.tasks[id], s'.tasks[id]) {
      ColumnsKept(cfg, reg, s, es, id);
    }
    forall id | Finished(s, id) ensures Finished(s', id) {
      FinishedForever(cfg, reg, s, es, id);
    }
    forall id | StopEnded(s, id) ensures StopEnded(s', id) && s'.tasks[id].status == s.tasks[id].status {
      ColumnsKept(cfg, reg, s, es, id);
      SucceededStopStays(cfg, reg, s, es, id);
    }
    forall id | Reaped(s, id) ensures Reaped(s', id) {
      ReapedForever(cfg, reg, s, es, id);
    }
  }

  // ---- Every row has a registered provider ----

  ghost predicate ProvidersKnown(s: State) {
    forall id :: id in s.tasks ==> Registered(s.tasks[id].prov)
  }

  lemma ProvidersKnownStep(cfg: Config, s: State, e: Event)
    requires Inv(s) && ProvidersKnown(s) && Enabled(cfg, s, e)
    ensures ProvidersKnown(Next(cfg, s, e))
  {
    hide Apply, NextHistory, CallsOf, WorkPc, WorkStatement, Rows, Holding, Watchers, Reapers, Counters;
    var s' := Next(cfg, s, e);
    StatementIsLegal(cfg, s, e);
    StepFlows(cfg, s, e);
    forall id | id in s'.tasks ensures Registered(s'.tasks[id].prov) {
      if id in s.tasks {
        assert SameColumns(s.tasks[id], s'.tasks[id]);
      } else {
        NewRowStep(s, StatementOf(s, e), s.now, id);
        InsertsKnown(cfg, s, e);
      }
    }
  }

  lemma InsertsKnown(cfg: Config, s: State, e: Event)
    requires Requests(s) && ProvidersKnown(s) && Enabled(cfg, s, e) && StatementOf(s, e).Create?
    ensures Registered(StatementOf(s, e).row.prov)
  {
    if e.RestartInsertClone? {
      assert SnapshotFits(s, s.requests[e.q].orig, s.requests[e.q].row);
    }
  }

  /** The controller checks the provider of every request, and stops and clones take over that of
      an existing row. */
  lemma {:induction false} ProvidersKnownRun(cfg: Config, reg: Regime, s0: State, es: seq<Event>)
    requires Initial(s0) && IsRun(cfg, reg, s0, es)
    ensures ProvidersKnown(Exec(cfg, reg, s0, es))
  {
    if es == [] {
    } else {
      var init := es[..|es| - 1];
      ProvidersKnownRun(cfg, reg, s0, init);
      InitialInv(s0);
      InvRun(cfg, reg, s0, init);
      ProvidersKnownStep(cfg, Exec(cfg, reg, s0, init), es[|es| - 1]);
    }
  }
}
