/** Runs without crashes and without failing database calls; providers may still report errors
    and writers still interleave.  Every processing row is held, and every stop row that nobody
    holds is either untouched or finished with exactly one matching audit record. */
module Audit {
  import opened Model
  import opened Table
  import opened Machine
  import opened Invariant

  ghost predicate HeldBy(s: State, w: WorkerId, id: TaskId) {
    w in s.workers && !s.workers[w].Idle? && s.workers[w].id == id
  }

  ghost predicate Held(s: State, id: TaskId) {
    exists w :: HeldBy(s, w, id)
  }

  /** The audit records written for one stop request. */
  function RecordsOf(records: seq<StopRecord>, id: TaskId): seq<StopRecord> {
    if records == [] then []
    else
      var init, last := records[..|records| - 1], records[|records| - 1];
      RecordsOf(init, id) + if last.request == id then [last] else []
  }

  /** The record a finished stop row must have. */
  predicate Matches(rec: StopRecord, id: TaskId, r: Row) {
    && rec.request == id && r.target == Some(rec.target)
    && Terminal(r.status) && rec.ok == (r.status == Succeeded)
  }

  ghost predicate AuditedRow(s: State, id: TaskId)
    requires id in s.tasks
  {
    var rs := RecordsOf(s.records, id);
    if Held(s, id) || s.tasks[id].status == Pending then rs == []
    else |rs| == 1 && Matches(rs[0], id, s.tasks[id])
  }

  ghost predicate HolderCalm(s: State, pc: Pc)
    requires !pc.Idle?
  {
    && (pc.StopFail? ==> pc.id in s.tasks && s.tasks[pc.id].target == Some(pc.target))
    && (pc.StopRec? ==> pc.id in s.tasks && Matches(pc.rec, pc.id, s.tasks[pc.id]))
  }

  ghost predicate Calm(s: State) {
    && (forall id :: id in s.tasks && s.tasks[id].status == Processing ==> Held(s, id))
    && (forall w :: w in s.workers && !s.workers[w].Idle? ==> HolderCalm(s, s.workers[w]))
    && (forall id :: id in s.tasks && s.tasks[id].op.Stop? ==> AuditedRow(s, id))
    && (forall id :: id !in s.tasks ==> RecordsOf(s.records, id) == [])
  }

  // ---- Who changes a status to or from `processing` ----

  lemma WorkReleases(cfg: Config, s: State, pc: Pc, o: Outcome)
    requires !pc.Idle? && HolderFits(s, pc) && RowShape(s.tasks[pc.id]) && o.db
    ensures var t' := Apply(s.tasks, WorkStatement(s, pc, o), s.now);
            && pc.id in t'
            && (WorkPc(cfg, s, pc, o).Idle? ==> t'[pc.id].status != Processing || pc.StopRec?)
  {
  }

  lemma ProcessingStep(s: State, stmt: Statement, id: TaskId)
    requires Legal(s, stmt) && id in Apply(s.tasks, stmt, s.now)
    requires Apply(s.tasks, stmt, s.now)[id].status == Processing
    ensures (id in s.tasks && s.tasks[id].status == Processing) || stmt == Cas(id, Pending, Processing)
  {
  }

  /** A holder lets go of a row only by taking it out of `processing`. */
  lemma HolderKeeps(cfg: Config, s: State, w: WorkerId, o: Outcome)
    requires Inv(s) && Calm(s) && w in s.workers && !s.workers[w].Idle? && o.db
    requires var t' := Apply(s.tasks, WorkStatement(s, s.workers[w], o), s.now);
             s.workers[w].id in t' && t'[s.workers[w].id].status == Processing
    ensures var pc' := WorkPc(cfg, s, s.workers[w], o); !pc'.Idle? && pc'.id == s.workers[w].id
  {
    hide AuditedRow, Detached, SnapshotFits;
    assert HolderFits(s, s.workers[w]) && HolderCalm(s, s.workers[w]);
    WorkReleases(cfg, s, s.workers[w], o);
    StartPcFlight(cfg, s, s.workers[w], o);
  }

  lemma ProcessingHeldStep(cfg: Config, s: State, e: Event, id: TaskId)
    requires Inv(s) && Calm(s) && Enabled(cfg, s, e) && FaultFree(e)
    requires id in Next(cfg, s, e).tasks && Next(cfg, s, e).tasks[id].status == Processing
    ensures Held(Next(cfg, s, e), id)
  {
    hide WorkPc, WorkStatement, Legal, HolderCalm, HolderFits, AuditedRow, RecordsOf, Apply, StatementOf, HeldBy;
    var s' := Next(cfg, s, e);
    StatementIsLegal(cfg, s, e);
    ProcessingStep(s, StatementOf(s, e), id);
    if StatementOf(s, e) == Cas(id, Pending, Processing) {
      ClaimHolds(cfg, s, e, id);
    } else {
      var w :| HeldBy(s, w, id);
      StillHolds(cfg, s, e, w, id);
    }
  }

  lemma StillHolds(cfg: Config, s: State, e: Event, w: WorkerId, id: TaskId)
    requires Inv(s) && Calm(s) && Enabled(cfg, s, e) && FaultFree(e) && HeldBy(s, w, id)
    requires var t' := Apply(s.tasks, StatementOf(s, e), s.now); id in t' && t'[id].status == Processing
    ensures HeldBy(Next(cfg, s, e), w, id)
  {
    hide WorkPc, WorkStatement, Legal, HolderCalm, HolderFits, AuditedRow, RecordsOf, Apply, Inv, Calm;
    if e.Work? && e.w == w {
      HolderKeeps(cfg, s, w, e.o);
    }
  }

  lemma ClaimHolds(cfg: Config, s: State, e: Event, id: TaskId)
    requires Enabled(cfg, s, e) && StatementOf(s, e) == Cas(id, Pending, Processing)
    ensures Held(Next(cfg, s, e), id)
  {
    assert HeldBy(Next(cfg, s, e), e.w, id);
  }

  /** Nobody but its holder, or the worker that claims it, changes a stop row or its records. */
  lemma StopRowUntouched(cfg: Config, s: State, e: Event, id: TaskId)
    requires Inv(s) && Enabled(cfg, s, e) && id in s.tasks && s.tasks[id].op.Stop?
    requires !(e.Claim? && e.picked == id) && !(e.Work? && HeldBy(s, e.w, id))
    ensures id in Apply(s.tasks, StatementOf(s, e), s.now)
    ensures Apply(s.tasks, StatementOf(s, e), s.now)[id].status == s.tasks[id].status
  {
    StatementIsLegal(cfg, s, e);
    if e.Work? {
      assert HolderFits(s, s.workers[e.w]);
      ForeignStop(s, s.workers[e.w], e.o, id);
    } else if !e.Claim? {
      OutsiderStatement(cfg, s, e);
      OutsiderLeavesStop(s, StatementOf(s, e), id);
    }
  }

  lemma ForeignStop(s: State, pc: Pc, o: Outcome, id: TaskId)
    requires !pc.Idle? && HolderFits(s, pc) && id in s.tasks && s.tasks[id].op.Stop? && pc.id != id
    ensures var t' := Apply(s.tasks, WorkStatement(s, pc, o), s.now);
            id in t' && t'[id].status == s.tasks[id].status
  {
  }

  lemma RecordsStep(cfg: Config, s: State, e: Event, id: TaskId)
    requires Inv(s) && Calm(s) && Enabled(cfg, s, e) && FaultFree(e)
    ensures RecordsOf(NextRecords(s, e), id) == RecordsOf(s.records, id) +
      if e.Work? && s.workers[e.w].StopRec? && s.workers[e.w].id == id then [s.workers[e.w].rec] else []
  {
    if e.Work? && s.workers[e.w].StopRec? {
      assert HolderCalm(s, s.workers[e.w]);
      assert NextRecords(s, e)[..|s.records|] == s.records;
    }
  }

  /** The holder's own step, when it keeps the row. */
  lemma OwnCalm(cfg: Config, s: State, pc: Pc, o: Outcome, s': State)
    requires !pc.Idle? && HolderFits(s, pc) && HolderCalm(s, pc) && RowShape(s.tasks[pc.id]) && o.db
    requires s'.tasks == Apply(s.tasks, WorkStatement(s, pc, o), s.now)
    ensures var pc' := WorkPc(cfg, s, pc, o); !pc'.Idle? ==> HolderCalm(s', pc')
  {
  }

  lemma HoldersCalmStep(cfg: Config, s: State, e: Event, w: WorkerId)
    requires Inv(s) && Calm(s) && Enabled(cfg, s, e) && FaultFree(e)
    requires w in NextWorkers(cfg, s, e) && !NextWorkers(cfg, s, e)[w].Idle?
    ensures HolderCalm(Next(cfg, s, e), NextWorkers(cfg, s, e)[w])
  {
    hide Apply, StatementOf, WorkPc, WorkStatement;
    if e.Work? && e.w == w {
      assert HolderFits(s, s.workers[w]) && HolderCalm(s, s.workers[w]);
      StatementOfWork(s, e);
      OwnCalm(cfg, s, s.workers[w], e.o, Next(cfg, s, e));
    } else if !(e.Claim? && e.w == w) {
      OtherHolderCalm(cfg, s, e, w);
    }
  }

  lemma StatementOfWork(s: State, e: Event)
    requires e.Work? && e.w in s.workers
    ensures StatementOf(s, e) == WorkStatement(s, s.workers[e.w], e.o)
  {
  }

  lemma OtherHolderCalm(cfg: Config, s: State, e: Event, w: WorkerId)
    requires Inv(s) && Calm(s) && Enabled(cfg, s, e) && FaultFree(e)
    requires w in s.workers && !s.workers[w].Idle? && !(e.Work? && e.w == w)
    ensures HolderCalm(Next(cfg, s, e), s.workers[w])
  {
    hide Apply, StatementOf, WorkPc, WorkStatement, AuditedRow, RecordsOf, NextHistory, CallsOf;
    hide Rows, Watchers, Reapers, Requests, Counters;
    var pc := s.workers[w];
    assert HolderFits(s, pc) && HolderCalm(s, pc);
    StepFlows(cfg, s, e);
    if pc.StopRec? {
      assert e.Work? ==> s.workers[e.w].id != pc.id;
      StopRowUntouched(cfg, s, e, pc.id);
    }
  }

  lemma HeldStep(cfg: Config, s: State, e: Event, id: TaskId)
    requires Inv(s) && Enabled(cfg, s, e) && FaultFree(e)
    requires !(e.Claim? && e.picked == id) && !(e.Work? && HeldBy(s, e.w, id))
    ensures Held(Next(cfg, s, e), id) <==> Held(s, id)
  {
    var s' := Next(cfg, s, e);
    forall w | HeldBy(s, w, id) ensures HeldBy(s', w, id) {
    }
    forall w | HeldBy(s', w, id) ensures HeldBy(s, w, id) {
      if e.Work? && e.w == w {
        StartPcFlight(cfg, s, s.workers[w], e.o);
      }
    }
  }

  lemma AuditedStep(cfg: Config, s: State, e: Event, id: TaskId)
    requires Inv(s) && Calm(s) && Enabled(cfg, s, e) && FaultFree(e)
    requires id in Next(cfg, s, e).tasks && Next(cfg, s, e).tasks[id].op.Stop?
    ensures AuditedRow(Next(cfg, s, e), id)
  {
    hide NextRecords, NextRequests, NextRecon, NextSweeps, NextListed, NextReapers, NextMarks, NextHistory, CallsOf;
    hide Apply, StatementOf, WorkStatement, WorkPc, StartPc, StopPc, WorkCalls, WorkHistory, Legal, HolderFits;
    hide Finished, Rows, Holding, Watchers, Reapers, Requests, Counters;
    var s' := Next(cfg, s, e);
    RecordsStep(cfg, s, e, id);
    StepFlows(cfg, s, e);
    if id !in s.tasks {
      StatementIsLegal(cfg, s, e);
      NewRowStep(s, StatementOf(s, e), s.now, id);
    } else if e.Claim? && e.picked == id {
      assert HeldBy(s', e.w, id);
      assert AuditedRow(s, id);
    } else if e.Work? && HeldBy(s, e.w, id) {
      AuditedOwnStep(cfg, s, e.w, e.o);
    } else {
      HeldStep(cfg, s, e, id);
      StopRowUntouched(cfg, s, e, id);
      assert AuditedRow(s, id);
    }
  }

  lemma AuditedOwnStep(cfg: Config, s: State, w: WorkerId, o: Outcome)
    requires Inv(s) && Calm(s) && w in s.workers && !s.workers[w].Idle? && o.db
    requires s.workers[w].id in s.tasks && s.tasks[s.workers[w].id].op.Stop?
    ensures var s' := Next(cfg, s, Work(w, o)); s.workers[w].id in s'.tasks && AuditedRow(s', s.workers[w].id)
  {
    hide StartPc, StopPc, WorkStatement, Apply, RecordsOf, HolderFits, HolderCalm;
    hide Rows, Holding, Watchers, Reapers, Requests, Counters;
    var e, id, s' := Work(w, o), s.workers[w].id, Next(cfg, s, Work(w, o));
    assert HeldBy(s, w, id) && AuditedRow(s, id);
    RecordsStep(cfg, s, e, id);
    if s.workers[w].StopRec? {
      RecordedRow(cfg, s, w, o);
    } else {
      StopStaysHeld(cfg, s, w, o);
    }
  }

  lemma StopStaysHeld(cfg: Config, s: State, w: WorkerId, o: Outcome)
    requires Inv(s) && w in s.workers && !s.workers[w].Idle? && o.db && !s.workers[w].StopRec?
    requires s.workers[w].id in s.tasks && s.tasks[s.workers[w].id].op.Stop?
    ensures s.workers[w].id in Next(cfg, s, Work(w, o)).tasks
    ensures HeldBy(Next(cfg, s, Work(w, o)), w, s.workers[w].id)
  {
    hide StartPc, StopPc, Detached, SnapshotFits;
    assert HolderFits(s, s.workers[w]);
    StepFlows(cfg, s, Work(w, o));
    StartPcFlight(cfg, s, s.workers[w], o);
    StopRestsOnlyWhenRecorded(cfg, s, s.workers[w], o);
  }

  /** Writing the record is a stop's last step. */
  lemma RecordedRow(cfg: Config, s: State, w: WorkerId, o: Outcome)
    requires Inv(s) && Calm(s) && w in s.workers && s.workers[w].StopRec?
    ensures var s', id := Next(cfg, s, Work(w, o)), s.workers[w].id;
            && !Held(s', id) && id in s'.tasks && s'.tasks[id] == s.tasks[id]
            && Matches(s.workers[w].rec, id, s.tasks[id])
  {
    var id, s' := s.workers[w].id, Next(cfg, s, Work(w, o));
    assert HolderFits(s, s.workers[w]) && HolderCalm(s, s.workers[w]);
    forall v ensures !HeldBy(s', v, id) {
      assert v != w && v in s.workers && !s.workers[v].Idle? ==> s.workers[v].id != id;
    }
  }

  lemma StopRestsOnlyWhenRecorded(cfg: Config, s: State, pc: Pc, o: Outcome)
    requires !pc.Idle? && HolderFits(s, pc) && RowShape(s.tasks[pc.id]) && s.tasks[pc.id].op.Stop? && o.db
    ensures WorkPc(cfg, s, pc, o).Idle? <==> pc.StopRec?
  {
  }

  lemma NoStrayRecords(cfg: Config, s: State, e: Event, id: TaskId)
    requires Inv(s) && Calm(s) && Enabled(cfg, s, e) && FaultFree(e) && id !in Next(cfg, s, e).tasks
    ensures RecordsOf(Next(cfg, s, e).records, id) == []
  {
    StepFlows(cfg, s, e);
    RecordsStep(cfg, s, e, id);
    assert e.Work? && !s.workers[e.w].Idle? ==> HolderFits(s, s.workers[e.w]);
  }

  lemma CalmStep(cfg: Config, s: State, e: Event)
    requires Inv(s) && Calm(s) && Enabled(cfg, s, e) && FaultFree(e)
    ensures Calm(Next(cfg, s, e))
  {
    var s' := Next(cfg, s, e);
    forall id | id in s'.tasks && s'.tasks[id].status == Processing ensures Held(s', id) {
      ProcessingHeldStep(cfg, s, e, id);
    }
    forall w | w in s'.workers && !s'.workers[w].Idle? ensures HolderCalm(s', s'.workers[w]) {
      HoldersCalmStep(cfg, s, e, w);
    }
    forall id | id in s'.tasks && s'.tasks[id].op.Stop? ensures AuditedRow(s', id) {
      AuditedStep(cfg, s, e, id);
    }
    forall id | id !in s'.tasks ensures RecordsOf(s'.records, id) == [] {
      NoStrayRecords(cfg, s, e, id);
    }
  }

  lemma {:induction false} CalmRun(cfg: Config, reg: Regime, s: State, es: seq<Event>)
    requires Inv(s) && Calm(s) && !reg.faults && IsRun(cfg, reg, s, es)
    ensures Calm(Exec(cfg, reg, s, es))
  {
    if es == [] {
    } else {
      var init := es[..|es| - 1];
      CalmRun(cfg, reg, s, init);
      InvRun(cfg, reg, s, init);
      CalmStep(cfg, Exec(cfg, reg, s, init), es[|es| - 1]);
    }
  }

  /** The audit trail of a fault-free run, for any number of workers: a stop row that no worker
      holds is either pending without a record, or succeeded or failed with exactly one record,
      which names its target and whose OK flag says which of the two it was. */
  lemma {:induction false} StopAudit(cfg: Config, reg: Regime, s0: State, es: seq<Event>, id: TaskId)
    requires Initial(s0) && !reg.faults && IsRun(cfg, reg, s0, es)
    requires var s := Exec(cfg, reg, s0, es); id in s.tasks && s.tasks[id].op.Stop? && !Held(s, id)
    ensures var s := Exec(cfg, reg, s0, es);
            var r, rs := s.tasks[id], RecordsOf(s.records, id);
            || (r.status == Pending && rs == [])
            || (r.status in {Succeeded, Failed} && |rs| == 1 && rs[0].request == id
                && r.target == Some(rs[0].target) && rs[0].ok == (r.status == Succeeded))
  {
    InitialInv(s0);
    CalmRun(cfg, reg, s0, es);
    InvRun(cfg, reg, s0, es);
    assert AuditedRow(Exec(cfg, reg, s0, es), id);
    assert RowShape(Exec(cfg, reg, s0, es).tasks[id]);
  }
}
