/** Restarting a running task queues a stop for it and then a clone of it.  With one worker and
    no faults the clone enters a slot only after the stop is done and, unless the provider
    failed to stop it, the original is out of its slot for good. */
module Restarts {
  import opened Model
  import opened Table
  import opened Machine
  import opened Invariant
  import Audit
  import Fifo
  import Safety

  /** `st` is a stop row queued by a restart of `orig`. */
  ghost predicate AimedAt(s: State, st: TaskId, orig: TaskId) {
    && st in s.tasks && s.tasks[st].op.Stop? && s.tasks[st].target == Some(orig)
    && LaunchedStart(s, orig) && s.tasks[st].prov == s.tasks[orig].prov && Registered(s.tasks[orig].prov)
  }

  ghost predicate CloneFits(s: State, r: Restart) {
    && r.stop in s.hist.restartStops && s.hist.restartStops[r.stop] == r.orig && r.stop in s.tasks
    && r.clone in s.tasks && s.tasks[r.clone].op.Start? && s.tasks[r.clone].prov == s.tasks[r.stop].prov
    && s.tasks[r.stop].createdAt < s.tasks[r.clone].createdAt
  }

  ghost predicate RequestFits(s: State, q: Request) {
    q.RestartClone? ==>
      && q.stop in s.hist.restartStops && s.hist.restartStops[q.stop] == q.orig
      && q.stop in s.tasks && s.tasks[q.stop].prov == q.row.prov
  }

  /** The stop row's job is done, or the provider said it could not do it. */
  ghost predicate DoneOrErred(s: State, st: TaskId) {
    st in s.hist.restartStops && st !in s.hist.stopErrs ==> Finished(s, s.hist.restartStops[st])
  }

  ghost predicate Links(cfg: Config, s: State) {
    && Fifo.ServedAreClaimable(cfg, s)
    && (forall q :: q in s.requests ==> RequestFits(s, s.requests[q]))
    && (forall st :: st in s.hist.restartStops ==> AimedAt(s, st, s.hist.restartStops[st]))
    && (forall r :: r in s.hist.restarts ==> CloneFits(s, r))
  }

  ghost predicate Outcomes(s: State) {
    && (forall st :: st in s.hist.restartStops && st in s.tasks && Terminal(s.tasks[st].status) ==> DoneOrErred(s, st))
    && (forall w :: w in s.workers && (s.workers[w].StopFail? || s.workers[w].StopSucceed?) ==>
          DoneOrErred(s, s.workers[w].id))
  }

  // ---- Links ----

  lemma AimedFlows(s: State, s': State, st: TaskId, orig: TaskId)
    requires Flows(s, s') && AimedAt(s, st, orig)
    ensures AimedAt(s', st, orig)
  {
  }

  lemma NewRestartStop(s: State, e: Event, st: TaskId)
    requires st in NextHistory(s, e).restartStops
    requires st !in s.hist.restartStops || NextHistory(s, e).restartStops[st] != s.hist.restartStops[st]
    ensures e.RestartInsertStop? && e.id == st && e.q in s.requests
    ensures NextHistory(s, e).restartStops[st] == s.requests[e.q].orig
  {
  }

  lemma NewRestart(s: State, e: Event, r: Restart)
    requires r in NextHistory(s, e).restarts && r !in s.hist.restarts
    ensures e.RestartInsertClone? && e.id == r.clone && e.q in s.requests && s.requests[e.q].RestartClone?
    ensures r.orig == s.requests[e.q].orig && r.stop == s.requests[e.q].stop
  {
  }

  lemma NewRequest(s: State, e: Event, q: ProcId)
    requires q in NextRequests(s, e) && NextRequests(s, e)[q].RestartClone?
    requires q !in s.requests || NextRequests(s, e)[q] != s.requests[q]
    ensures e.RestartInsertStop? && e.q == q && q in s.requests
    ensures NextRequests(s, e)[q] == RestartClone(s.requests[q].orig, e.id, s.requests[q].row)
  {
  }

  lemma RestartStopsStep(cfg: Config, s: State, e: Event, s': State, st: TaskId)
    requires Requests(s) && Links(cfg, s) && Enabled(cfg, s, e) && Flows(s, s')
    requires s'.tasks == Apply(s.tasks, StatementOf(s, e), s.now) && s'.hist == NextHistory(s, e)
    requires st in s'.hist.restartStops
    ensures AimedAt(s', st, s'.hist.restartStops[st])
  {
    if st in s.hist.restartStops && s'.hist.restartStops[st] == s.hist.restartStops[st] {
      AimedFlows(s, s', st, s.hist.restartStops[st]);
    } else {
      NewRestartStop(s, e, st);
      assert SnapshotFits(s, s.requests[e.q].orig, s.requests[e.q].row);
    }
  }

  lemma RequestsFitStep(cfg: Config, s: State, e: Event, s': State, q: ProcId)
    requires Links(cfg, s) && Enabled(cfg, s, e) && Flows(s, s') && q in s'.requests
    requires s'.tasks == Apply(s.tasks, StatementOf(s, e), s.now)
    requires s'.hist == NextHistory(s, e) && s'.requests == NextRequests(s, e)
    ensures RequestFits(s', s'.requests[q])
  {
    if s'.requests[q].RestartClone? {
      if q in s.requests && s'.requests[q] == s.requests[q] {
        assert RequestFits(s, s.requests[q]);
        RestartHistoryKept(cfg, s, e, s.requests[q].stop);
      } else {
        NewRequest(s, e, q);
      }
    }
  }

  lemma CloneFitsStep(cfg: Config, s: State, e: Event, s': State, r: Restart)
    requires Links(cfg, s) && Enabled(cfg, s, e) && GrowingStamp(s, e) && Flows(s, s')
    requires s'.tasks == Apply(s.tasks, StatementOf(s, e), s.now)
    requires s'.hist == NextHistory(s, e) && r in s'.hist.restarts
    ensures CloneFits(s', r)
  {
    if r in s.hist.restarts {
      assert CloneFits(s, r);
    } else {
      NewRestart(s, e, r);
      assert RequestFits(s, s.requests[e.q]);
    }
    RestartHistoryKept(cfg, s, e, r.stop);
  }

  lemma LinksStep(cfg: Config, s: State, e: Event)
    requires Inv(s) && Links(cfg, s) && Enabled(cfg, s, e) && GrowingStamp(s, e)
    ensures Links(cfg, Next(cfg, s, e))
  {
    var s' := Next(cfg, s, e);
    StepFlows(cfg, s, e);
    Fifo.ServedAreClaimableStep(cfg, s, e);
    forall q | q in s'.requests ensures RequestFits(s', s'.requests[q]) {
      RequestsFitStep(cfg, s, e, s', q);
    }
    forall st | st in s'.hist.restartStops ensures AimedAt(s', st, s'.hist.restartStops[st]) {
      RestartStopsStep(cfg, s, e, s', st);
    }
    forall r | r in s'.hist.restarts ensures CloneFits(s', r) {
      CloneFitsStep(cfg, s, e, s', r);
    }
  }

  // ---- Outcomes ----

  lemma DoneStays(cfg: Config, s: State, e: Event, st: TaskId)
    requires Inv(s) && Links(cfg, s) && Enabled(cfg, s, e)
    requires st in s.hist.restartStops && DoneOrErred(s, st)
    ensures DoneOrErred(Next(cfg, s, e), st)
  {
    assert AimedAt(s, st, s.hist.restartStops[st]);
    RestartHistoryKept(cfg, s, e, st);
    if st !in s.hist.stopErrs {
      FinishedStep(cfg, s, e, s.hist.restartStops[st]);
    }
  }

  lemma RestartHistoryKept(cfg: Config, s: State, e: Event, st: TaskId)
    requires Enabled(cfg, s, e) && st in s.hist.restartStops && st in s.tasks
    ensures st in NextHistory(s, e).restartStops && NextHistory(s, e).restartStops[st] == s.hist.restartStops[st]
    ensures st in s.hist.stopErrs ==> st in NextHistory(s, e).stopErrs
  {
  }

  /** The read of the target decides: either it is still in its slot, or it is finished. */
  lemma LoadDecides(cfg: Config, s: State, w: WorkerId, o: Outcome)
    requires Inv(s) && Links(cfg, s) && |s.workers| == 1 && o.db
    requires w in s.workers && s.workers[w].StopLoad? && s.workers[w].id in s.hist.restartStops
    requires WorkPc(cfg, s, s.workers[w], o).StopFail?
    ensures Finished(s, s.hist.restartStops[s.workers[w].id])
  {
    var orig := s.hist.restartStops[s.workers[w].id];
    assert AimedAt(s, s.workers[w].id, orig);
    Safety.AloneMeansDetached(s, w, orig);
  }

  lemma OwnOutcome(cfg: Config, s: State, w: WorkerId, o: Outcome)
    requires Inv(s) && Links(cfg, s) && |s.workers| == 1 && o.db
    requires w in s.workers && !s.workers[w].Idle? && s.workers[w].id in s.hist.restartStops
    requires WorkPc(cfg, s, s.workers[w], o).StopFail? || WorkPc(cfg, s, s.workers[w], o).StopSucceed?
    ensures DoneOrErred(Next(cfg, s, Work(w, o)), s.workers[w].id)
  {
    hide StartPc, NextRecords, NextRequests, NextRecon, NextSweeps, NextListed, NextReapers, NextMarks, NextWorkers;
    hide CallsOf, Apply, StatementOf, WorkStatement, WorkPc, WorkCalls, Legal, Finished, Rows, Watchers, Reapers;
    hide Requests, Counters;
    var e, pc := Work(w, o), s.workers[w];
    Safety.StopFromStop(cfg, s, pc, o);
    assert HolderFits(s, pc) && AimedAt(s, pc.id, s.hist.restartStops[pc.id]);
    RestartHistoryKept(cfg, s, e, pc.id);
    if pc.StopLoad? {
      LoadDecides(cfg, s, w, o);
      FinishedStep(cfg, s, e, s.hist.restartStops[pc.id]);
    } else if pc.StopTarget? {
      Safety.StoppingTarget(cfg, s, w, o);
    } else {
      assert pc.id in NextHistory(s, e).stopErrs;
    }
  }

  lemma OtherOutcome(cfg: Config, s: State, e: Event, w: WorkerId)
    requires Inv(s) && Links(cfg, s) && Outcomes(s) && Enabled(cfg, s, e)
    requires w in s.workers && (s.workers[w].StopFail? || s.workers[w].StopSucceed?)
    ensures DoneOrErred(Next(cfg, s, e), s.workers[w].id)
  {
    var id := s.workers[w].id;
    assert HolderFits(s, s.workers[w]);
    if id in s.hist.restartStops {
      DoneStays(cfg, s, e, id);
    } else {
      NotRestarted(cfg, s, e, id);
    }
  }

  lemma NotRestarted(cfg: Config, s: State, e: Event, id: TaskId)
    requires Enabled(cfg, s, e) && id in s.tasks && id !in s.hist.restartStops
    ensures id !in NextHistory(s, e).restartStops
  {
  }

  lemma OutcomeOfWorker(cfg: Config, s: State, e: Event, w: WorkerId)
    requires Inv(s) && Links(cfg, s) && Outcomes(s) && |s.workers| == 1 && Enabled(cfg, s, e) && FaultFree(e)
    requires w in NextWorkers(cfg, s, e)
    requires NextWorkers(cfg, s, e)[w].StopFail? || NextWorkers(cfg, s, e)[w].StopSucceed?
    ensures DoneOrErred(Next(cfg, s, e), NextWorkers(cfg, s, e)[w].id)
  {
    hide Next;
    if e.Work? && e.w == w {
      assert HolderFits(s, s.workers[w]);
      StartPcFlight(cfg, s, s.workers[w], e.o);
      var id := s.workers[w].id;
      if id in s.hist.restartStops {
        OwnOutcome(cfg, s, w, e.o);
      } else {
        NotRestarted(cfg, s, e, id);
        NextHist(cfg, s, e);
      }
    } else {
      OtherOutcome(cfg, s, e, w);
    }
  }

  lemma NextHist(cfg: Config, s: State, e: Event)
    ensures Next(cfg, s, e).hist == NextHistory(s, e)
  {
  }

  /** A restart's stop row becomes terminal by the last status write of its own worker. */
  lemma WhoEnds(cfg: Config, s: State, e: Event, st: TaskId)
    requires Inv(s) && Enabled(cfg, s, e) && st in s.tasks && s.tasks[st].op.Stop?
    requires !Terminal(s.tasks[st].status)
    requires var t' := Apply(s.tasks, StatementOf(s, e), s.now); st in t' && Terminal(t'[st].status)
    ensures e.Work? && e.w in s.workers && s.workers[e.w].id == st
    ensures s.workers[e.w].StopFail? || s.workers[e.w].StopSucceed?
  {
    hide NextRecords, NextRequests, NextRecon, NextSweeps, NextListed, NextReapers, NextMarks, NextHistory;
    hide NextWorkers, CallsOf, WorkStatement, WorkPc, StartPc, StopPc, WorkCalls, WorkHistory, Legal, HolderFits;
    hide Finished, Rows, Watchers, Reapers, Requests, Counters;
    match e
    case Work(w, o) =>
      if Audit.HeldBy(s, w, st) {
        assert HolderFits(s, s.workers[w]);
        TerminalByHolder(s, s.workers[w], o);
      } else {
        Audit.StopRowUntouched(cfg, s, e, st);
      }
    case Claim(_, _, id) =>
      if id != st {
        Audit.StopRowUntouched(cfg, s, e, st);
      }
    case _ => Audit.StopRowUntouched(cfg, s, e, st);
  }

  lemma OutcomeOfRow(cfg: Config, s: State, e: Event, st: TaskId)
    requires Inv(s) && Links(cfg, s) && Outcomes(s) && Enabled(cfg, s, e)
    requires st in NextHistory(s, e).restartStops
    requires var t' := Apply(s.tasks, StatementOf(s, e), s.now); st in t' && Terminal(t'[st].status)
    ensures DoneOrErred(Next(cfg, s, e), st)
  {
    hide Next;
    StatementIsLegal(cfg, s, e);
    if st !in s.tasks {
      NewRowStep(s, StatementOf(s, e), s.now, st);
    } else {
      if st !in s.hist.restartStops {
        NotRestarted(cfg, s, e, st);
      }
      assert AimedAt(s, st, s.hist.restartStops[st]);
      if !Terminal(s.tasks[st].status) {
        WhoEnds(cfg, s, e, st);
      }
      DoneStays(cfg, s, e, st);
    }
  }

  lemma TerminalByHolder(s: State, pc: Pc, o: Outcome)
    requires !pc.Idle? && HolderFits(s, pc) && s.tasks[pc.id].op.Stop? && !Terminal(s.tasks[pc.id].status)
    ensures var t' := Apply(s.tasks, WorkStatement(s, pc, o), s.now);
            pc.id in t' && (Terminal(t'[pc.id].status) ==> pc.StopFail? || pc.StopSucceed?)
  {
  }

  lemma OutcomesStep(cfg: Config, s: State, e: Event)
    requires Inv(s) && Links(cfg, s) && Outcomes(s) && |s.workers| == 1 && Enabled(cfg, s, e) && FaultFree(e)
    ensures Outcomes(Next(cfg, s, e))
  {
    var s' := Next(cfg, s, e);
    forall st | st in s'.hist.restartStops && st in s'.tasks && Terminal(s'.tasks[st].status)
      ensures DoneOrErred(s', st)
    {
      OutcomeOfRow(cfg, s, e, st);
    }
    forall w | w in s'.workers && (s'.workers[w].StopFail? || s'.workers[w].StopSucceed?)
      ensures DoneOrErred(s', s'.workers[w].id)
    {
      OutcomeOfWorker(cfg, s, e, w);
    }
  }

  lemma {:induction false} RestartsRun(cfg: Config, reg: Regime, s: State, es: seq<Event>)
    requires Inv(s) && Links(cfg, s) && Outcomes(s) && |s.workers| == 1
    requires !reg.faults && reg.growingStamps && IsRun(cfg, reg, s, es)
    ensures Links(cfg, Exec(cfg, reg, s, es)) && Outcomes(Exec(cfg, reg, s, es))
  {
    if es == [] {
    } else {
      var init := es[..|es| - 1];
      RestartsRun(cfg, reg, s, init);
      InvRun(cfg, reg, s, init);
      WorkersCount(cfg, reg, s, init);
      LinksStep(cfg, Exec(cfg, reg, s, init), es[|es| - 1]);
      OutcomesStep(cfg, Exec(cfg, reg, s, init), es[|es| - 1]);
    }
  }

  lemma ProcessingIsNewest(cfg: Config, s: State, id: TaskId)
    requires Inv(s) && Audit.Calm(s) && Fifo.Queue(cfg, s) && id in s.tasks
    requires s.tasks[id].status == Processing
    ensures Fifo.NewerWait(cfg, s, id)
  {
    var w :| Audit.HeldBy(s, w, id);
    assert HolderFits(s, s.workers[w]) && Audit.HolderCalm(s, s.workers[w]);
  }

  /** The stop row is over, and so is the original unless the provider reported an error. */
  ghost predicate Excludes(s: State, r: Restart) {
    && r.stop in s.tasks && s.tasks[r.stop].op.Stop? && s.tasks[r.stop].target == Some(r.orig)
    && Terminal(s.tasks[r.stop].status)
    && (r.stop !in s.hist.stopErrs ==> Finished(s, r.orig))
  }

  /** Restart exclusion.  Once the clone has left the queue -- so whenever it holds a slot -- the
      stop row queued before it is terminal, and unless the provider's `Stop` failed the
      original is out of its slot for good. */
  lemma {:induction false} RestartExclusion(cfg: Config, reg: Regime, s0: State, es: seq<Event>, r: Restart)
    requires Initial(s0) && |s0.workers| == 1 && !reg.faults && reg.growingStamps && IsRun(cfg, reg, s0, es)
    requires r in Exec(cfg, reg, s0, es).hist.restarts
    requires LaunchedStart(Exec(cfg, reg, s0, es), r.clone)
    ensures Excludes(Exec(cfg, reg, s0, es), r)
  {
    hide IsRun, Exec;
    var s := Exec(cfg, reg, s0, es);
    InitialInv(s0);
    InvRun(cfg, reg, s0, es);
    RestartsRun(cfg, reg, s0, es);
    Audit.CalmRun(cfg, reg, s0, es);
    Fifo.QueueRun(cfg, reg, s0, es);
    CloneWaitsForStop(cfg, s, r);
  }

  lemma CloneWaitsForStop(cfg: Config, s: State, r: Restart)
    requires Inv(s) && Links(cfg, s) && Outcomes(s) && Audit.Calm(s) && Fifo.Queue(cfg, s)
    requires r in s.hist.restarts && LaunchedStart(s, r.clone)
    ensures Excludes(s, r)
  {
    assert CloneFits(s, r) && AimedAt(s, r.stop, r.orig);
    assert Fifo.OlderServed(cfg, s, r.clone);
    assert s.tasks[r.stop].status != Pending;
    if s.tasks[r.stop].status == Processing {
      ProcessingIsNewest(cfg, s, r.stop);
    }
    assert RowShape(s.tasks[r.stop]);
    assert DoneOrErred(s, r.stop);
  }
}
