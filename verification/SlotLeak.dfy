/** A slot can leak.  The runtime sweep clears a row's reference before it marks the row failed; if
    the sweep dies in between, or the second write fails, the row stays `running` without a
    reference, and neither sweep nor reconciler looks at it again.  Nor does anybody look at a
    running row whose reasons are the business of a process that is switched off, or at an
    admitted row whose worker has died. */
module SlotLeak {
  import opened Model
  import opened Table
  import opened Machine
  import opened Providers
  import opened Invariant
  import opened Tightness
  import Provenance
  import Races
  import RuntimeLimit

  /** A look at the container of a row read like this may show its end. */
  predicate ShowsItsEnd(r: Row) {
    r.prov.Docker? && r.ref != ""
  }

  /** The reconciler is on and may see the end of a row like this. */
  predicate WillBeSeen(cfg: Config, r: Row) {
    cfg.reconcile && ShowsItsEnd(r)
  }

  /** The runtime sweeper is on and will go after a row like this, sooner or later. */
  predicate WillExpire(cfg: Config, r: Row) {
    cfg.runtimeSweep && SweepListed(r) && Registered(r.prov) && RuntimeLimit.Limit(cfg, r) > 0
  }

  /** Some sweep has the row in hand: its reference is cleared, or about to be. */
  predicate SweepHas(cfg: Config, s: State, p: ProcId, id: TaskId) {
    && p in s.sweeps
    && (s.sweeps[p].cur == Some(id)
        || (id in s.sweeps[p].snap && Overdue(cfg, s.sweeps[p].snap[id], s.sweeps[p].at)
            && Registered(s.sweeps[p].snap[id].prov)))
  }

  /** Some tick remembers a row whose end it may see. */
  predicate TickHas(s: State, p: ProcId, id: TaskId) {
    p in s.recon && id in s.recon[p] && ShowsItsEnd(s.recon[p][id])
  }

  ghost predicate IsRunning(s: State, id: TaskId) {
    id in s.tasks && s.tasks[id].op.Start? && s.tasks[id].status == Running
  }

  /** Nobody will look at the running row again, and nobody remembers it from before. */
  ghost predicate Forgotten(cfg: Config, s: State, id: TaskId) {
    && IsRunning(s, id) && !WillBeSeen(cfg, s.tasks[id]) && !WillExpire(cfg, s.tasks[id])
    && (forall p :: !TickHas(s, p, id)) && (forall p :: !SweepHas(cfg, s, p, id))
  }

  // ---- A forgotten row keeps its slot, unless a stop request gets to it ----

  /** The run contains no stop's write to the row. */
  ghost predicate Spared(cfg: Config, s: State, es: seq<Event>, id: TaskId)
    requires IsRun(cfg, ANYTHING, s, es)
  {
    es == [] ||
    var init := es[..|es| - 1];
    Spared(cfg, s, init, id) && StatementOf(Exec(cfg, ANYTHING, s, init), es[|es| - 1]) != UpdateStatus(id, Stopped)
  }

  lemma ForgottenRowKept(cfg: Config, s: State, e: Event, id: TaskId)
    requires Inv(s) && Forgotten(cfg, s, id) && Enabled(cfg, s, e) && StatementOf(s, e) != UpdateStatus(id, Stopped)
    ensures id in Next(cfg, s, e).tasks && Next(cfg, s, e).tasks[id] == s.tasks[id]
  {
    hide StatementOf, Apply, CallsOf, NextHistory, NextMarks, Counters, Requests, TickHas, SweepHas;
    assert Detached(s, id);
    if e.Work? {
      assert HolderFits(s, s.workers[e.w]);
      WorkStatementOf(s, e);
      WorkerLeavesLaunched(s, s.workers[e.w], e.o, id);
    } else {
      BackgroundLeavesForgotten(cfg, s, e, id);
    }
  }

  lemma WorkStatementOf(s: State, e: Event)
    requires e.Work? && e.w in s.workers
    ensures StatementOf(s, e) == WorkStatement(s, s.workers[e.w], e.o)
  {
  }

  /** Nobody else writes to the row: the sweeps and ticks under way do not have it in hand, and
      reapers only deal with finished rows. */
  lemma BackgroundLeavesForgotten(cfg: Config, s: State, e: Event, id: TaskId)
    requires Reapers(s) && Forgotten(cfg, s, id) && Enabled(cfg, s, e) && !e.Work?
    ensures var t' := Apply(s.tasks, StatementOf(s, e), s.now); id in t' && t'[id] == s.tasks[id]
  {
    hide Overdue, Watchers, SweepListed;
    if e.ReconItem? {
      assert !TickHas(s, e.p, id);
    } else if e.SweepFail? || e.SweepClear? {
      assert !SweepHas(cfg, s, e.p, id);
    } else if e.Reap? {
      assert Finished(s, e.id);
    }
  }

  /** A worker that is not in flight on a row that has left the queue touches it only to stop it. */
  lemma WorkerLeavesLaunched(s: State, pc: Pc, o: Outcome, id: TaskId)
    requires !pc.Idle? && HolderFits(s, pc) && LaunchedStart(s, id) && (InFlight(pc) ==> pc.id != id)
    requires WorkStatement(s, pc, o) != UpdateStatus(id, Stopped)
    ensures id in Apply(s.tasks, WorkStatement(s, pc, o), s.now)
    ensures Apply(s.tasks, WorkStatement(s, pc, o), s.now)[id] == s.tasks[id]
  {
  }

  lemma ForgottenStep(cfg: Config, s: State, e: Event, id: TaskId)
    requires Inv(s) && Forgotten(cfg, s, id) && Enabled(cfg, s, e) && StatementOf(s, e) != UpdateStatus(id, Stopped)
    ensures Forgotten(cfg, Next(cfg, s, e), id)
  {
    var s' := Next(cfg, s, e);
    ForgottenRowKept(cfg, s, e, id);
    forall p ensures !TickHas(s', p, id) {
      NoTick(cfg, s, e, s', id, p);
    }
    forall p ensures !SweepHas(cfg, s', p, id) {
      NoSweep(cfg, s, e, s', id, p);
    }
  }

  lemma NoTick(cfg: Config, s: State, e: Event, s': State, id: TaskId, p: ProcId)
    requires Forgotten(cfg, s, id) && Enabled(cfg, s, e) && s'.recon == NextRecon(s, e)
    ensures !TickHas(s', p, id)
  {
    assert !TickHas(s, p, id);
  }

  lemma NoSweep(cfg: Config, s: State, e: Event, s': State, id: TaskId, p: ProcId)
    requires Forgotten(cfg, s, id) && Enabled(cfg, s, e) && s'.sweeps == NextSweeps(s, e)
    ensures !SweepHas(cfg, s', p, id)
  {
    hide StatementOf, Apply, WorkPc, WorkStatement;
    assert !SweepHas(cfg, s, p, id);
  }

  lemma {:induction false} ForgottenStays(cfg: Config, s: State, es: seq<Event>, id: TaskId)
    requires Inv(s) && Forgotten(cfg, s, id) && IsRun(cfg, ANYTHING, s, es) && Spared(cfg, s, es, id)
    ensures Forgotten(cfg, Exec(cfg, ANYTHING, s, es), id)
  {
    if es == [] {
    } else {
      var init := es[..|es| - 1];
      ForgottenStays(cfg, s, init, id);
      InvRun(cfg, ANYTHING, s, init);
      ForgottenStep(cfg, Exec(cfg, ANYTHING, s, init), es[|es| - 1], id);
    }
  }

  // ---- Any other running row can be ended without a stop request ----

  ghost predicate NoWork(es: seq<Event>) {
    forall i :: 0 <= i < |es| ==> !es[i].Work?
  }

  /** Background processes alone can take the row out of `running`. */
  ghost predicate CanEnd(cfg: Config, s: State, id: TaskId) {
    exists es :: IsRun(cfg, ANYTHING, s, es) && NoWork(es) && !IsRunning(Exec(cfg, ANYTHING, s, es), id)
  }

  lemma EndsAfter(cfg: Config, s: State, e: Event, id: TaskId)
    requires Enabled(cfg, s, e) && !e.Work? && CanEnd(cfg, Next(cfg, s, e), id)
    ensures CanEnd(cfg, s, id)
  {
    hide Enabled, Next, IsRun, Exec;
    var es :| IsRun(cfg, ANYTHING, Next(cfg, s, e), es) && NoWork(es)
              && !IsRunning(Exec(cfg, ANYTHING, Next(cfg, s, e), es), id);
    RunCons(cfg, ANYTHING, s, e, es);
    assert NoWork([e] + es);
  }

  lemma EndsNow(cfg: Config, s: State, id: TaskId)
    requires !IsRunning(s, id)
    ensures CanEnd(cfg, s, id)
  {
    assert IsRun(cfg, ANYTHING, s, []) && NoWork([]) && Exec(cfg, ANYTHING, s, []) == s;
  }

  lemma TickEnds(cfg: Config, s: State, p: ProcId, id: TaskId)
    requires IsRunning(s, id) && TickHas(s, p, id)
    ensures CanEnd(cfg, s, id)
  {
    var e := ReconItem(p, id, PhaseFailed, true);
    EndsNow(cfg, Next(cfg, s, e), id);
    EndsAfter(cfg, s, e, id);
  }

  lemma SweepEnds(cfg: Config, s: State, p: ProcId, id: TaskId)
    requires IsRunning(s, id) && SweepHas(cfg, s, p, id)
    ensures CanEnd(cfg, s, id)
    decreases if s.sweeps[p].cur == Some(id) then 0 else if s.sweeps[p].cur.None? then 1 else 2
  {
    hide Overdue;
    if s.sweeps[p].cur.Some? {
      var e := SweepFail(p, true);
      if s.sweeps[p].cur == Some(id) {
        EndsNow(cfg, Next(cfg, s, e), id);
      } else {
        SweepEnds(cfg, Next(cfg, s, e), p, id);
      }
      EndsAfter(cfg, s, e, id);
    } else {
      var e := SweepClear(p, id, true, true);
      SweepEnds(cfg, Next(cfg, s, e), p, id);
      EndsAfter(cfg, s, e, id);
    }
  }

  lemma ShowingEnds(cfg: Config, s: State, id: TaskId)
    requires IsRunning(s, id) && WillBeSeen(cfg, s.tasks[id])
    ensures CanEnd(cfg, s, id)
  {
    var e := ReconList(0, true);
    TickEnds(cfg, Next(cfg, s, e), 0, id);
    EndsAfter(cfg, s, e, id);
  }

  /** Time goes by until the row is overdue, and a new sweep lists it. */
  lemma ExpiryListed(cfg: Config, reg: Regime, s: State, id: TaskId) returns (p: ProcId, e1: Event, e2: Event)
    requires id in s.tasks && WillExpire(cfg, s.tasks[id]) && s.tasks[id].runningAt.Some?
    ensures e1.Advance? && e2 == SweepList(p, true)
    ensures CanStep(cfg, reg, s, e1) && CanStep(cfg, reg, Next(cfg, s, e1), e2)
    ensures var s2 := Next(cfg, Next(cfg, s, e1), e2);
            && s2.tasks == s.tasks && p in s2.sweeps && s2.sweeps[p].cur.None? && id in s2.sweeps[p].snap
            && Overdue(cfg, s2.sweeps[p].snap[id], s2.sweeps[p].at) && Registered(s2.sweeps[p].snap[id].prov)
  {
    hide NextRecords, NextRequests, NextRecon, NextListed, NextReapers, NextMarks, NextHistory, NextWorkers, CallsOf;
    p := UnusedProcess(s.sweeps.Keys);
    var late := s.tasks[id].runningAt.value + MAX_INT64;
    e1, e2 := Advance(if s.now >= late then s.now else late), SweepList(p, true);
    RuntimeLimit.WrapInRange(RuntimeLimit.Limit(cfg, s.tasks[id]) * NANOS_PER_SECOND);
  }

  lemma ExpiringEnds(cfg: Config, s: State, id: TaskId)
    requires IsRunning(s, id) && WillExpire(cfg, s.tasks[id]) && s.tasks[id].runningAt.Some?
    ensures CanEnd(cfg, s, id)
  {
    hide Next, Enabled, CanEnd, Overdue, WillExpire;
    var p, e1, e2 := ExpiryListed(cfg, ANYTHING, s, id);
    var s1 := Next(cfg, s, e1);
    SweepEnds(cfg, Next(cfg, s1, e2), p, id);
    EndsAfter(cfg, s1, e2, id);
    EndsAfter(cfg, s, e1, id);
  }

  lemma UnusedProcess(ps: set<ProcId>) returns (p: ProcId)
    ensures p !in ps
  {
    var rest := ps;
    p := 0;
    while rest != {}
      invariant rest <= ps && forall q :: q in ps && q !in rest ==> q < p
      decreases rest
    {
      var q :| q in rest;
      p := if q >= p then q + 1 else p;
      rest := rest - {q};
    }
  }

  lemma {:induction false} NoWorkSpares(cfg: Config, s: State, es: seq<Event>, id: TaskId)
    requires IsRun(cfg, ANYTHING, s, es) && NoWork(es)
    ensures Spared(cfg, s, es, id)
  {
    if es == [] {
    } else {
      var init := es[..|es| - 1];
      NoWorkSpares(cfg, s, init, id);
      assert !es[|es| - 1].Work?;
      if StatementOf(Exec(cfg, ANYTHING, s, init), es[|es| - 1]) == UpdateStatus(id, Stopped) {
        Provenance.StoppedBy(cfg, Exec(cfg, ANYTHING, s, init), es[|es| - 1], id);
      }
    }
  }

  lemma RememberedEnds(cfg: Config, s: State, id: TaskId)
    requires Inv(s) && IsRunning(s, id) && !Forgotten(cfg, s, id)
    ensures CanEnd(cfg, s, id)
  {
    hide Overdue, SweepHas, TickHas, SweepListed;
    assert RowShape(s.tasks[id]);
    if p :| TickHas(s, p, id) {
      TickEnds(cfg, s, p, id);
    } else if p :| SweepHas(cfg, s, p, id) {
      SweepEnds(cfg, s, p, id);
    } else if WillBeSeen(cfg, s.tasks[id]) {
      ShowingEnds(cfg, s, id);
    } else {
      ExpiringEnds(cfg, s, id);
    }
  }

  /** The row keeps running unless a stop request gets to it. */
  ghost predicate NeverEnds(cfg: Config, s: State, id: TaskId) {
    forall es :: IsRun(cfg, ANYTHING, s, es) && Spared(cfg, s, es, id) ==>
      IsRunning(Exec(cfg, ANYTHING, s, es), id)
  }

  /** Exactly when a slot is lost: a running row keeps running in every run in which no stop request
      marks it stopped, whatever else happens and however much time passes, if and only if nobody
      remembers it and its own columns give no process that is switched on a reason to look at it. */
  lemma LeaksIffForgotten(cfg: Config, s: State, id: TaskId)
    requires Inv(s) && IsRunning(s, id)
    ensures NeverEnds(cfg, s, id) <==> Forgotten(cfg, s, id)
  {
    hide IsRun, Exec, Inv, Forgotten, IsRunning, Spared;
    if Forgotten(cfg, s, id) {
      forall es | IsRun(cfg, ANYTHING, s, es) && Spared(cfg, s, es, id)
        ensures IsRunning(Exec(cfg, ANYTHING, s, es), id)
      {
        ForgottenStays(cfg, s, es, id);
      }
    } else {
      RememberedEnds(cfg, s, id);
      var es :| IsRun(cfg, ANYTHING, s, es) && NoWork(es) && !IsRunning(Exec(cfg, ANYTHING, s, es), id);
      NoWorkSpares(cfg, s, es, id);
    }
  }

  // ---- Admitted rows nobody is launching ----

  /** Admitted, with no worker in flight on it: its worker died, or could not read it again. */
  ghost predicate Abandoned(s: State, id: TaskId) {
    Detached(s, id) && s.tasks[id].status == Admitted
  }

  /** An admitted row carries no running stamp, so only the admitted sweeper can be after it. */
  lemma AbandonedRowKept(cfg: Config, s: State, e: Event, id: TaskId)
    requires Inv(s) && Abandoned(s, id) && Enabled(cfg, s, e) && StatementOf(s, e) != UpdateStatus(id, Stopped)
    requires cfg.admittedTimeout <= 0
    ensures var t' := Apply(s.tasks, StatementOf(s, e), s.now); id in t' && t'[id] == s.tasks[id]
  {
    hide StatementOf, Apply, Counters, Requests, Watchers, Reapers, RowShape;
    assert RowShape(s.tasks[id]);
    if e.Work? {
      assert HolderFits(s, s.workers[e.w]);
      WorkStatementOf(s, e);
      WorkerLeavesLaunched(s, s.workers[e.w], e.o, id);
    } else {
      BackgroundLeavesAbandoned(cfg, s, e, id);
    }
  }

  lemma BackgroundLeavesAbandoned(cfg: Config, s: State, e: Event, id: TaskId)
    requires Watchers(s) && Reapers(s) && Abandoned(s, id) && RowShape(s.tasks[id])
    requires Enabled(cfg, s, e) && !e.Work? && cfg.admittedTimeout <= 0
    ensures var t' := Apply(s.tasks, StatementOf(s, e), s.now); id in t' && t'[id] == s.tasks[id]
  {
    hide Overdue, SweepListed;
    if e.ReconItem? {
      assert SnapshotFits(s, e.id, s.recon[e.p][e.id]);
    } else if e.SweepClear? {
      assert SnapshotFits(s, e.id, s.sweeps[e.p].snap[e.id]);
    } else if e.Reap? {
      assert Finished(s, e.id);
    }
  }

  lemma {:induction false} AbandonedStays(cfg: Config, s: State, es: seq<Event>, id: TaskId)
    requires Inv(s) && Abandoned(s, id) && cfg.admittedTimeout <= 0
    requires IsRun(cfg, ANYTHING, s, es) && Spared(cfg, s, es, id)
    ensures Abandoned(Exec(cfg, ANYTHING, s, es), id)
  {
    hide Inv, Detached;
    if es == [] {
    } else {
      var init, e := es[..|es| - 1], es[|es| - 1];
      AbandonedStays(cfg, s, init, id);
      InvRun(cfg, ANYTHING, s, init);
      AbandonedStep(cfg, Exec(cfg, ANYTHING, s, init), e, id);
    }
  }

  lemma AbandonedStep(cfg: Config, s: State, e: Event, id: TaskId)
    requires Inv(s) && Abandoned(s, id) && cfg.admittedTimeout <= 0
    requires Enabled(cfg, s, e) && StatementOf(s, e) != UpdateStatus(id, Stopped)
    ensures Abandoned(Next(cfg, s, e), id)
  {
    hide Enabled, StatementOf, Apply, NextWorkers, CallsOf, NextHistory, Inv;
    AbandonedRowKept(cfg, s, e, id);
    StepFlows(cfg, s, e);
    DetachedFlows(s, Next(cfg, s, e), id);
  }

  /** With an admitted sweeper the row is failed once it is old enough. */
  lemma SweeperFailsAbandoned(cfg: Config, s: State, id: TaskId) returns (es: seq<Event>)
    requires Abandoned(s, id) && cfg.admittedTimeout > 0
    ensures IsRun(cfg, ANYTHING, s, es) && NoWork(es) && !Abandoned(Exec(cfg, ANYTHING, s, es), id)
  {
    hide IsRun, Exec, AdmittedTimeout, NextRecords, NextRequests, NextRecon, NextSweeps, NextListed, NextReapers;
    hide NextMarks, NextHistory, NextWorkers, CallsOf;
    var late := s.tasks[id].updatedAt + AdmittedTimeout(cfg) + 1;
    var e1 := Advance(if s.now >= late then s.now else late);
    var s1 := Next(cfg, s, e1);
    var e2 := AdmittedSweep(s1.now - AdmittedTimeout(cfg));
    assert Stuck(s1.tasks[id], e2.before);
    assert Next(cfg, s1, e2).tasks[id].status == Failed;
    es := [e1, e2];
    RunTwo(cfg, s, e1, e2);
  }

  lemma RunTwo(cfg: Config, s: State, e1: Event, e2: Event)
    requires Enabled(cfg, s, e1) && Enabled(cfg, Next(cfg, s, e1), e2)
    ensures IsRun(cfg, ANYTHING, s, [e1, e2]) && Exec(cfg, ANYTHING, s, [e1, e2]) == Next(cfg, Next(cfg, s, e1), e2)
  {
    hide Enabled, Next;
    RunSnoc(cfg, ANYTHING, s, [], e1);
    assert [] + [e1] == [e1] && [e1] + [e2] == [e1, e2];
    RunSnoc(cfg, ANYTHING, s, [e1], e2);
  }

  /** Exactly when an abandoned row keeps its slot in every run in which no stop request marks it
      stopped: if there is no admitted sweeper. */
  lemma AdmittedLeaksIff(cfg: Config, s: State, id: TaskId)
    requires Inv(s) && Abandoned(s, id)
    ensures (forall es :: IsRun(cfg, ANYTHING, s, es) && Spared(cfg, s, es, id) ==>
               Abandoned(Exec(cfg, ANYTHING, s, es), id))
       <==> cfg.admittedTimeout <= 0
  {
    hide IsRun, Exec, Inv, Abandoned, Spared;
    if cfg.admittedTimeout <= 0 {
      forall es | IsRun(cfg, ANYTHING, s, es) && Spared(cfg, s, es, id)
        ensures Abandoned(Exec(cfg, ANYTHING, s, es), id)
      {
        AbandonedStays(cfg, s, es, id);
      }
    } else {
      var es := SweeperFailsAbandoned(cfg, s, id);
      NoWorkSpares(cfg, s, es, id);
    }
  }

  // ---- It happens ----

  const SHORT := PLAIN.(maxRuntime := 1)

  /** A task with a limit of one second is started, exceeds it, and has its reference cleared; then
      the sweep dies, or its second write fails.  The task occupies its slot and is forgotten. */
  lemma LeakArises(cfg: Config, s0: State, v: WorkerId, dies: bool) returns (s: State)
    requires Initial(s0) && TakesWork(cfg) && cfg.runtimeSweep && v in s0.workers
    ensures Reaches(cfg, ANYTHING, s0, s)
    ensures 0 in s.tasks && Occupies(s.tasks[0]) && Forgotten(cfg, s, 0) && RuntimeLimit.Limit(cfg, s.tasks[0]) == 1
  {
    hide Reaches, IsJob, OnlyJobs;
    var p := SomeProvider(cfg);
    var j := Job(Fast, p, SHORT);
    var s1 := Races.OneAdmitted(cfg, ANYTHING, s0, j, v);
    var s2 := WalkToIdle(cfg, ANYTHING, s1, j, v);
    ReachesTrans(cfg, ANYTHING, s0, s1, s2);
    JobKept(j, s1.tasks[0], s2.tasks[0]);
    s := CutShort(cfg, s2, j, dies);
    ReachesTrans(cfg, ANYTHING, s0, s2, s);
  }

  lemma CutShort(cfg: Config, s: State, j: Job, dies: bool) returns (s': State)
    requires s.tasks.Keys == {0} && IsJob(j, s.tasks[0]) && s.tasks[0].status == Running && Registered(j.prov)
    requires s.tasks[0].ref == FINE.ref && s.tasks[0].runningAt == Some(s.now) && j.work == SHORT
    requires s.sweeps == map[] && s.recon == map[] && cfg.runtimeSweep
    ensures Reaches(cfg, ANYTHING, s, s')
    ensures 0 in s'.tasks && Occupies(s'.tasks[0]) && Forgotten(cfg, s', 0)
    ensures RuntimeLimit.Limit(cfg, s'.tasks[0]) == 1
  {
    hide Reaches, NextRecords, NextRequests, NextListed, NextReapers, NextMarks, NextHistory, NextWorkers, CallsOf;
    var s2 := OverdueListed(cfg, s, j);
    var e3, e4 := SweepClear(0, 0, true, true), if dies then ProcDies(0) else SweepFail(0, false);
    var s3 := Next(cfg, s2, e3);
    s' := Next(cfg, s3, e4);
    ReachesNext(cfg, ANYTHING, s2, e3);
    ReachesNext(cfg, ANYTHING, s3, e4);
    ReachesTrans(cfg, ANYTHING, s, s2, s3);
    ReachesTrans(cfg, ANYTHING, s, s3, s');
    assert !HasRef(s'.tasks[0]);
    forall p ensures !SweepHas(cfg, s', p, 0) && !TickHas(s', p, 0) {
    }
  }

  lemma OverdueListed(cfg: Config, s: State, j: Job) returns (s': State)
    requires s.tasks.Keys == {0} && IsJob(j, s.tasks[0]) && s.tasks[0].status == Running && Registered(j.prov)
    requires s.tasks[0].ref == FINE.ref && s.tasks[0].runningAt == Some(s.now) && j.work == SHORT
    requires s.sweeps == map[] && s.recon == map[] && cfg.runtimeSweep
    ensures Reaches(cfg, ANYTHING, s, s') && s'.tasks == s.tasks && s'.recon == map[]
    ensures s'.sweeps == map[0 := Sweep(s.tasks, s'.now, None)] && Overdue(cfg, s.tasks[0], s'.now)
  {
    hide Reaches;
    var e1, e2 := Advance(s.now + NANOS_PER_SECOND), SweepList(0, true);
    var s1 := Next(cfg, s, e1);
    s' := Next(cfg, s1, e2);
    assert s.tasks[0].ref[0] != ' ';
    assert s'.sweeps[0].snap == s.tasks;
    ReachesNext(cfg, ANYTHING, s, e1);
    ReachesNext(cfg, ANYTHING, s1, e2);
    ReachesTrans(cfg, ANYTHING, s, s1, s');
  }

  /** A worker dies right after it has admitted a task. */
  lemma AbandonmentArises(cfg: Config, s0: State, v: WorkerId) returns (s: State)
    requires Initial(s0) && TakesWork(cfg) && v in s0.workers
    ensures Reaches(cfg, ANYTHING, s0, s)
    ensures Abandoned(s, 0)
  {
    hide Reaches, IsJob, OnlyJobs;
    var p := SomeProvider(cfg);
    var j := Job(Fast, p, PLAIN);
    var s1 := Races.OneAdmitted(cfg, ANYTHING, s0, j, v);
    s := Next(cfg, s1, Crash(v));
    ReachesNext(cfg, ANYTHING, s1, Crash(v));
    ReachesTrans(cfg, ANYTHING, s0, s1, s);
  }
}
