/** A row can be stranded in `processing`.  Only the worker that has claimed it ever takes it out of
    that status; if that worker dies, or one of its database calls fails, nobody does. */
module Stranded {
  import opened Model
  import opened Table
  import opened Machine
  import opened Invariant
  import opened Tightness
  import Drain
  import Safety

  ghost predicate IsProcessing(s: State, id: TaskId) {
    id in s.tasks && s.tasks[id].status == Processing
  }

  /** The worker may still write the status of its row: all that is left to do is not just the
      record of a stop. */
  predicate Undecided(pc: Pc) {
    !pc.Idle? && !pc.StopRec?
  }

  ghost predicate Decides(s: State, w: WorkerId, id: TaskId) {
    w in s.workers && Undecided(s.workers[w]) && s.workers[w].id == id
  }

  /** Processing, and no worker will decide on it. */
  ghost predicate IsStranded(s: State, id: TaskId) {
    IsProcessing(s, id) && forall w :: !Decides(s, w, id)
  }

  // ---- A stranded row stays where it is ----

  lemma StrandedRowKept(cfg: Config, s: State, e: Event, id: TaskId)
    requires Inv(s) && IsStranded(s, id) && Enabled(cfg, s, e)
    ensures var t' := Apply(s.tasks, StatementOf(s, e), s.now); id in t' && t'[id] == s.tasks[id]
  {
    hide Rows, Requests, Counters, Decides;
    if e.Work? {
      var pc := s.workers[e.w];
      assert HolderFits(s, pc) && StatementOf(s, e) == WorkStatement(s, pc, e.o);
      assert !Decides(s, e.w, id);
      OthersLeaveProcessing(s, pc, e.o, id, e.w);
    } else if !e.Claim? {
      OutsiderStatement(cfg, s, e);
    }
  }

  lemma OthersLeaveProcessing(s: State, pc: Pc, o: Outcome, id: TaskId, w: WorkerId)
    requires w in s.workers && s.workers[w] == pc && !pc.Idle? && HolderFits(s, pc)
    requires IsProcessing(s, id) && !Decides(s, w, id)
    ensures var t' := Apply(s.tasks, WorkStatement(s, pc, o), s.now); id in t' && t'[id] == s.tasks[id]
  {
  }

  lemma NobodyTurnsToIt(cfg: Config, s: State, e: Event, id: TaskId, w: WorkerId)
    requires IsStranded(s, id) && Enabled(cfg, s, e)
    requires w in NextWorkers(cfg, s, e) && Undecided(NextWorkers(cfg, s, e)[w])
    ensures NextWorkers(cfg, s, e)[w].id != id
  {
    assert !Decides(s, w, id);
    if e.Work? && e.w == w {
      PcKeepsRow(cfg, s, s.workers[w], e.o);
    }
  }

  lemma PcKeepsRow(cfg: Config, s: State, pc: Pc, o: Outcome)
    requires !pc.Idle? && Undecided(WorkPc(cfg, s, pc, o))
    ensures WorkPc(cfg, s, pc, o).id == pc.id && !pc.StopRec?
  {
  }

  lemma {:induction false} StrandedStays(cfg: Config, s: State, es: seq<Event>, id: TaskId)
    requires Inv(s) && IsStranded(s, id) && IsRun(cfg, ANYTHING, s, es)
    ensures IsStranded(Exec(cfg, ANYTHING, s, es), id)
  {
    hide Inv, IsStranded;
    if es == [] {
    } else {
      var init := es[..|es| - 1];
      StrandedStays(cfg, s, init, id);
      InvRun(cfg, ANYTHING, s, init);
      StrandedStep(cfg, Exec(cfg, ANYTHING, s, init), es[|es| - 1], id);
    }
  }

  lemma StrandedStep(cfg: Config, s: State, e: Event, id: TaskId)
    requires Inv(s) && IsStranded(s, id) && Enabled(cfg, s, e)
    ensures IsStranded(Next(cfg, s, e), id)
  {
    hide Inv, Enabled, StatementOf, Apply, NextWorkers, CallsOf, NextHistory, Undecided;
    StrandedRowKept(cfg, s, e, id);
    var s' := Next(cfg, s, e);
    forall w ensures !Decides(s', w, id) {
      if w in s'.workers && Undecided(s'.workers[w]) {
        NobodyTurnsToIt(cfg, s, e, id, w);
      }
    }
  }

  // ---- A row that is held can leave ----

  /** When its calls succeed, the worker goes on deciding until the row has left `processing`. */
  lemma HolderGoesOn(cfg: Config, s: State, w: WorkerId, id: TaskId)
    requires Inv(s) && Decides(s, w, id) && IsProcessing(s, id)
    ensures var s' := Next(cfg, s, Work(w, FINE)); IsProcessing(s', id) ==> Decides(s', w, id)
  {
    hide Watchers, Reapers, Requests, Counters, NextRecords, NextRequests, NextRecon, NextSweeps, NextListed;
    hide NextReapers, NextMarks, NextHistory, CallsOf, GpuFits;
    assert HolderFits(s, s.workers[w]) && RowShape(s.tasks[id]);
  }

  lemma {:induction false} HolderDecides(cfg: Config, s: State, w: WorkerId, id: TaskId) returns (es: seq<Event>)
    requires Inv(s) && Decides(s, w, id) && IsProcessing(s, id)
    ensures IsRun(cfg, ANYTHING, s, es) && !IsProcessing(Exec(cfg, ANYTHING, s, es), id)
    decreases Drain.CallsLeft(s.workers[w])
  {
    hide IsRun, Exec, Inv, IsProcessing, WorkPc, Apply, StatementOf, CallsOf, NextHistory, Drain.CallsLeft;
    var e := Work(w, FINE);
    var s' := Next(cfg, s, e);
    HolderGoesOn(cfg, s, w, id);
    var rest := [];
    if IsProcessing(s', id) {
      InvStep(cfg, s, e);
      Drain.CallsDrop(cfg, s, s.workers[w], FINE);
      rest := HolderDecides(cfg, s', w, id);
    } else {
      ExecNothing(cfg, s');
    }
    RunCons(cfg, ANYTHING, s, e, rest);
    es := [e] + rest;
  }

  lemma ExecNothing(cfg: Config, s: State)
    ensures IsRun(cfg, ANYTHING, s, []) && Exec(cfg, ANYTHING, s, []) == s
  {
  }

  /** Exactly when a claimed row never leaves `processing`, whatever happens: if no worker is still
      to decide on it. */
  lemma StrandedIff(cfg: Config, s: State, id: TaskId)
    requires Inv(s) && IsProcessing(s, id)
    ensures (forall es :: IsRun(cfg, ANYTHING, s, es) ==> IsProcessing(Exec(cfg, ANYTHING, s, es), id))
       <==> IsStranded(s, id)
  {
    hide IsRun, Exec, Inv;
    if IsStranded(s, id) {
      forall es | IsRun(cfg, ANYTHING, s, es) ensures IsProcessing(Exec(cfg, ANYTHING, s, es), id) {
        StrandedStays(cfg, s, es, id);
      }
    } else {
      var w :| Decides(s, w, id);
      var es := HolderDecides(cfg, s, w, id);
    }
  }

  // ---- It happens ----

  /** The worker's step loses the row: it dies, or its database call fails and leaves it nothing to
      do.  A stop whose read of its target or write to it fails still marks its own row failed. */
  ghost predicate Loses(pc: Pc, e: Event) {
    e.Crash? || (e.Work? && !e.o.db && (BeforeCommit(pc) || pc.StopSucceed? || pc.StopFail?))
  }

  /** One failing call strands a row: whichever of the calls from the claim to the commit it is, or
      the reset of a refused row, or a stop's write of its own outcome. */
  lemma FailureStrands(cfg: Config, s: State, w: WorkerId, e: Event, id: TaskId)
    requires Inv(s) && Decides(s, w, id) && IsProcessing(s, id) && Enabled(cfg, s, e)
    requires (e.Crash? || e.Work?) && e.w == w && Loses(s.workers[w], e)
    ensures IsStranded(Next(cfg, s, e), id)
  {
    hide Watchers, Reapers, Requests, Counters, NextRecords, NextRequests, NextRecon, NextSweeps, NextListed;
    hide NextReapers, NextMarks, NextHistory, CallsOf, GpuFits;
    var s' := Next(cfg, s, e);
    forall v ensures !Decides(s', v, id) {
      if v != w && v in s.workers && !s.workers[v].Idle? {
        assert s.workers[v].id != s.workers[w].id;
      }
    }
  }

  /** A task is submitted and claimed, and the next call of its worker fails. */
  lemma StrandingArises(cfg: Config, s0: State, v: WorkerId) returns (s: State)
    requires Initial(s0) && TakesWork(cfg) && v in s0.workers
    ensures Reaches(cfg, ANYTHING, s0, s) && IsStranded(s, 0)
  {
    hide Reaches, IsJob, OnlyJobs, IsStranded;
    var p := SomeProvider(cfg);
    var j := Job(Fast, p, PLAIN);
    NothingYet(s0, j);
    var s1 := Enqueue(cfg, ANYTHING, s0, j, v, 0);
    var e := Work(v, Outcome(false, true, ""));
    s := Next(cfg, s1, e);
    ReachesNext(cfg, ANYTHING, s1, e);
    ReachesTrans(cfg, ANYTHING, s0, s1, s);
    ReachedInv(cfg, s0, s1);
    FailureStrands(cfg, s1, v, e, 0);
  }

  lemma ReachedInv(cfg: Config, s0: State, s: State)
    requires Initial(s0) && Reaches(cfg, ANYTHING, s0, s)
    ensures Inv(s)
  {
    hide IsRun, Exec, Inv;
    var es :| IsRun(cfg, ANYTHING, s0, es) && Exec(cfg, ANYTHING, s0, es) == s;
    Safety.Reachable(cfg, ANYTHING, s0, es);
  }
}
