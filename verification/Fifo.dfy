/** One worker serves the queue in creation order. */
module Fifo {
  import opened Model
  import opened Table
  import opened Machine
  import opened Invariant

  /** Worker holds a queued row it has not decided on yet. */
  predicate Undecided(pc: Pc) {
    (pc.Claimed? || pc.Begin? || pc.CountTotal? || pc.CountFast? || pc.CountSlow? || pc.CheckGpu?
     || pc.Commit? || pc.Refused?)
    || (pc.StopLoad? || pc.StopCall? || pc.StopTarget? || pc.StopSucceed? || pc.StopFail?)
  }

  /** Every row the workers may claim and that is newer than `id` is still waiting. */
  ghost predicate NewerWait(cfg: Config, s: State, id: TaskId)
    requires id in s.tasks
  {
    forall b :: b in s.tasks && Claimable(cfg, s.tasks[b]) && s.tasks[id].createdAt < s.tasks[b].createdAt
      ==> s.tasks[b].status == Pending
  }

  /** Among the rows the workers may claim, those that have left `pending` are the oldest. */
  ghost predicate Prefix(cfg: Config, s: State) {
    forall b :: b in s.tasks && Claimable(cfg, s.tasks[b]) && s.tasks[b].status != Pending ==> OlderServed(cfg, s, b)
  }

  ghost predicate OlderServed(cfg: Config, s: State, b: TaskId)
    requires b in s.tasks
  {
    forall a :: a in s.tasks && Claimable(cfg, s.tasks[a]) && s.tasks[a].createdAt < s.tasks[b].createdAt
      ==> s.tasks[a].status != Pending
  }

  ghost predicate Queue(cfg: Config, s: State) {
    && Prefix(cfg, s)
    && (forall w :: w in s.workers && Undecided(s.workers[w]) && s.workers[w].id in s.tasks ==>
          NewerWait(cfg, s, s.workers[w].id))
    && (forall a, b :: a in s.tasks && b in s.tasks && a != b ==> s.tasks[a].createdAt != s.tasks[b].createdAt)
  }

  /** How a row's `pending` flag can change. */
  lemma PendingStep(s: State, stmt: Statement, id: TaskId)
    requires Legal(s, stmt) && id in s.tasks
    ensures var t' := Apply(s.tasks, stmt, s.now);
            && id in t'
            && (t'[id].status == Pending && s.tasks[id].status != Pending ==> stmt == Cas(id, Processing, Pending))
            && (t'[id].status != Pending && s.tasks[id].status == Pending ==> stmt == Cas(id, Pending, Processing))
  {
  }

  lemma StampStep(cfg: Config, s: State, e: Event, id: TaskId)
    requires Enabled(cfg, s, e) && GrowingStamp(s, e) && Legal(s, StatementOf(s, e))
    requires id in Next(cfg, s, e).tasks && id !in s.tasks
    ensures Next(cfg, s, e).tasks[id].status == Pending
    ensures forall j :: j in s.tasks ==> s.tasks[j].createdAt < Next(cfg, s, e).tasks[id].createdAt
    ensures StatementOf(s, e).Create? && StatementOf(s, e).id == id
  {
    hide NextRecords, NextRequests, NextRecon, NextSweeps, NextListed, NextReapers, NextMarks, NextHistory;
    hide NextWorkers, CallsOf, WorkPc, StartPc, StopPc, WorkCalls, WorkHistory, Legal, HolderFits, Finished, Rows;
    hide Holding, Watchers, Reapers, Requests, Counters;
  }

  lemma SoleWorker(s: State, v: WorkerId, w: WorkerId)
    requires |s.workers| == 1 && v in s.workers && w in s.workers
    ensures v == w
  {
    if v != w {
      SubsetCard({v, w}, s.workers.Keys);
    }
  }

  /** Only the sole worker moves rows in or out of `pending`: by claiming the oldest waiting row
      while idle, and by putting its refused row back. */
  lemma WhoMovesPending(cfg: Config, s: State, e: Event)
    requires Inv(s) && Enabled(cfg, s, e) && StatementOf(s, e).Cas?
    requires StatementOf(s, e).from == Pending || StatementOf(s, e).to == Pending
    ensures (e.Claim? && StatementOf(s, e) == Cas(e.picked, Pending, Processing))
         || (e.Work? && s.workers[e.w] == Refused(StatementOf(s, e).id) && NextWorkers(cfg, s, e)[e.w].Idle?
             && StatementOf(s, e) == Cas(s.workers[e.w].id, Processing, Pending))
  {
    hide NextRecords, NextRequests, NextRecon, NextSweeps, NextListed, NextReapers, NextMarks, NextHistory, CallsOf;
    hide Apply, StopPc, WorkCalls, WorkHistory, Legal, HolderFits, Finished, Rows, Holding, Watchers, Reapers;
    hide Requests, Counters;
  }

  /** No row leaves the queue past the provider filter. */
  ghost predicate ServedAreClaimable(cfg: Config, s: State) {
    forall id :: id in s.tasks && s.tasks[id].status != Pending ==> Claimable(cfg, s.tasks[id])
  }

  lemma ServedAreClaimableStep(cfg: Config, s: State, e: Event)
    requires Inv(s) && ServedAreClaimable(cfg, s) && Enabled(cfg, s, e)
    ensures ServedAreClaimable(cfg, Next(cfg, s, e))
  {
    var s' := Next(cfg, s, e);
    StatementIsLegal(cfg, s, e);
    StepFlows(cfg, s, e);
    forall id | id in s'.tasks && s'.tasks[id].status != Pending ensures Claimable(cfg, s'.tasks[id]) {
      if id !in s.tasks {
        NewRowStep(s, StatementOf(s, e), s.now, id);
      } else {
        PendingStep(s, StatementOf(s, e), id);
        if s.tasks[id].status == Pending {
          WhoMovesPending(cfg, s, e);
        }
      }
    }
  }

  lemma {:induction false} ServedAreClaimableRun(cfg: Config, reg: Regime, s: State, es: seq<Event>)
    requires Inv(s) && ServedAreClaimable(cfg, s) && IsRun(cfg, reg, s, es)
    ensures ServedAreClaimable(cfg, Exec(cfg, reg, s, es))
  {
    if es == [] {
    } else {
      var init := es[..|es| - 1];
      ServedAreClaimableRun(cfg, reg, s, init);
      InvRun(cfg, reg, s, init);
      ServedAreClaimableStep(cfg, Exec(cfg, reg, s, init), es[|es| - 1]);
    }
  }

  lemma NobodyElseLocks(s: State, w: WorkerId, locked: set<TaskId>)
    requires |s.workers| == 1 && w in s.workers && Lockable(s, w, locked)
    ensures locked == {}
  {
    forall v | v in OtherIdle(s, w) ensures false {
      SoleWorker(s, v, w);
    }
    assert OtherIdle(s, w) == {};
  }

  lemma ClaimPicksNext(cfg: Config, s: State, e: Event)
    requires Queue(cfg, s) && |s.workers| == 1 && e.Claim? && Enabled(cfg, s, e)
    ensures NewerWait(cfg, s, e.picked) && OlderServed(cfg, s, e.picked)
  {
    NobodyElseLocks(s, e.w, e.locked);
    forall b | b in s.tasks && Claimable(cfg, s.tasks[b]) && s.tasks[e.picked].createdAt < s.tasks[b].createdAt
      ensures s.tasks[b].status == Pending
    {
      assert s.tasks[b].status != Pending ==> OlderServed(cfg, s, b);
    }
    forall a | a in s.tasks && Claimable(cfg, s.tasks[a]) && s.tasks[a].createdAt < s.tasks[e.picked].createdAt
      ensures s.tasks[a].status != Pending
    {
      assert s.tasks[a].status == Pending ==> Waiting(cfg, s.tasks, a);
    }
  }

  lemma ServedBefore(cfg: Config, s: State, e: Event, t': Tasks, b: TaskId)
    requires Inv(s) && Queue(cfg, s) && |s.workers| == 1 && Enabled(cfg, s, e) && Legal(s, StatementOf(s, e))
    requires t' == Apply(s.tasks, StatementOf(s, e), s.now)
    requires b in s.tasks && b in t' && Claimable(cfg, s.tasks[b]) && t'[b].status != Pending
    ensures OlderServed(cfg, s, b)
  {
    PendingStep(s, StatementOf(s, e), b);
    if s.tasks[b].status == Pending {
      WhoMovesPending(cfg, s, e);
      ClaimPicksNext(cfg, s, e);
    }
  }

  lemma PutBackIsNewest(cfg: Config, s: State, e: Event, a: TaskId)
    requires Inv(s) && Queue(cfg, s) && Enabled(cfg, s, e) && StatementOf(s, e) == Cas(a, Processing, Pending)
    ensures a in s.tasks && NewerWait(cfg, s, a)
  {
    WhoMovesPending(cfg, s, e);
    assert HolderFits(s, s.workers[e.w]);
  }

  /** A row put back was held, so nothing newer had been served. */
  lemma StaysServed(cfg: Config, s: State, e: Event, t': Tasks, a: TaskId, b: TaskId)
    requires Inv(s) && Queue(cfg, s) && Enabled(cfg, s, e) && Legal(s, StatementOf(s, e))
    requires t' == Apply(s.tasks, StatementOf(s, e), s.now)
    requires a in s.tasks && b in s.tasks && a in t' && b in t'
    requires Claimable(cfg, s.tasks[b]) && s.tasks[a].createdAt < s.tasks[b].createdAt
    requires s.tasks[a].status != Pending && t'[b].status != Pending
    ensures t'[a].status != Pending
  {
    PendingStep(s, StatementOf(s, e), a);
    PendingStep(s, StatementOf(s, e), b);
    if StatementOf(s, e) == Cas(a, Processing, Pending) {
      PutBackIsNewest(cfg, s, e, a);
    }
  }

  lemma OlderServedStep(cfg: Config, s: State, e: Event, b: TaskId)
    requires Inv(s) && Queue(cfg, s) && |s.workers| == 1 && Enabled(cfg, s, e) && GrowingStamp(s, e)
    requires var t' := Next(cfg, s, e).tasks; b in t' && Claimable(cfg, t'[b]) && t'[b].status != Pending
    ensures OlderServed(cfg, Next(cfg, s, e), b)
  {
    var s' := Next(cfg, s, e);
    StatementIsLegal(cfg, s, e);
    StepFlows(cfg, s, e);
    if b !in s.tasks {
      StampStep(cfg, s, e, b);
    } else {
      ServedBefore(cfg, s, e, s'.tasks, b);
      forall a | a in s'.tasks && Claimable(cfg, s'.tasks[a]) && s'.tasks[a].createdAt < s'.tasks[b].createdAt
        ensures s'.tasks[a].status != Pending
      {
        if a !in s.tasks {
          StampStep(cfg, s, e, a);
        } else {
          StaysServed(cfg, s, e, s'.tasks, a, b);
        }
      }
    }
  }

  lemma NewerWaitStep(cfg: Config, s: State, e: Event, w: WorkerId)
    requires Inv(s) && Queue(cfg, s) && |s.workers| == 1 && Enabled(cfg, s, e) && GrowingStamp(s, e)
    requires var s' := Next(cfg, s, e);
             w in s'.workers && Undecided(s'.workers[w]) && s'.workers[w].id in s'.tasks
    ensures NewerWait(cfg, Next(cfg, s, e), Next(cfg, s, e).workers[w].id)
  {
    hide Apply, StatementOf, Legal, Enabled, Rows, Holding, Watchers, Reapers, Requests, Counters, Queue;
    var s' := Next(cfg, s, e);
    var id := s'.workers[w].id;
    StatementIsLegal(cfg, s, e);
    StepFlows(cfg, s, e);
    HolderBefore(cfg, s, e, w);
    forall b | b in s'.tasks && Claimable(cfg, s'.tasks[b]) && s'.tasks[id].createdAt < s'.tasks[b].createdAt
      ensures s'.tasks[b].status == Pending
    {
      if b !in s.tasks {
        StampStep(cfg, s, e, b);
      } else {
        NobodyServes(cfg, s, e, w, b);
      }
    }
  }

  /** While the sole worker is undecided about a row, it serves no other. */
  lemma NobodyServes(cfg: Config, s: State, e: Event, w: WorkerId, b: TaskId)
    requires Inv(s) && Queue(cfg, s) && |s.workers| == 1 && Enabled(cfg, s, e)
    requires w in s.workers && Undecided(NextWorkers(cfg, s, e)[w])
    requires b in s.tasks && s.tasks[b].status == Pending && NextWorkers(cfg, s, e)[w].id != b
    ensures b in Next(cfg, s, e).tasks && Next(cfg, s, e).tasks[b].status == Pending
  {
    StatementIsLegal(cfg, s, e);
    PendingStep(s, StatementOf(s, e), b);
    if Next(cfg, s, e).tasks[b].status != Pending {
      WhoMovesPending(cfg, s, e);
      SoleWorker(s, e.w, w);
    }
  }

  lemma HolderBefore(cfg: Config, s: State, e: Event, w: WorkerId)
    requires Inv(s) && Queue(cfg, s) && |s.workers| == 1 && Enabled(cfg, s, e)
    requires w in NextWorkers(cfg, s, e) && Undecided(NextWorkers(cfg, s, e)[w])
    ensures var id := NextWorkers(cfg, s, e)[w].id; id in s.tasks && NewerWait(cfg, s, id)
    ensures w in s.workers && (s.workers[w].Idle? ==> e.Claim? && e.picked == NextWorkers(cfg, s, e)[w].id)
  {
    if e.Claim? {
      SoleWorker(s, e.w, w);
      ClaimPicksNext(cfg, s, e);
    } else {
      assert HolderFits(s, s.workers[w]);
      if e.Work? && e.w == w {
        StartPcFlight(cfg, s, s.workers[w], e.o);
        UndecidedBefore(cfg, s, s.workers[w], e.o);
      }
    }
  }

  lemma UndecidedBefore(cfg: Config, s: State, pc: Pc, o: Outcome)
    requires !pc.Idle? && Undecided(WorkPc(cfg, s, pc, o))
    ensures Undecided(pc)
  {
  }

  lemma QueueStep(cfg: Config, s: State, e: Event)
    requires Inv(s) && Queue(cfg, s) && |s.workers| == 1 && Enabled(cfg, s, e) && GrowingStamp(s, e)
    ensures Queue(cfg, Next(cfg, s, e))
  {
    hide NextRecords, NextRequests, NextRecon, NextSweeps, NextListed, NextReapers, NextMarks, NextHistory;
    hide NextWorkers, CallsOf, Apply, StatementOf, WorkStatement, WorkPc, StartPc, StopPc, WorkCalls, WorkHistory;
    hide Legal, HolderFits, Finished, Rows, Holding, Watchers, Reapers, Requests, Counters;
    var s' := Next(cfg, s, e);
    forall b | b in s'.tasks && Claimable(cfg, s'.tasks[b]) && s'.tasks[b].status != Pending
      ensures OlderServed(cfg, s', b)
    {
      OlderServedStep(cfg, s, e, b);
    }
    forall w | w in s'.workers && Undecided(s'.workers[w]) && s'.workers[w].id in s'.tasks
      ensures NewerWait(cfg, s', s'.workers[w].id)
    {
      NewerWaitStep(cfg, s, e, w);
    }
    StatementIsLegal(cfg, s, e);
    StepFlows(cfg, s, e);
    forall a, b | a in s'.tasks && b in s'.tasks && a != b ensures s'.tasks[a].createdAt != s'.tasks[b].createdAt {
      if a !in s.tasks {
        StampStep(cfg, s, e, a);
      }
      if b !in s.tasks {
        StampStep(cfg, s, e, b);
      }
    }
  }

  lemma {:induction false} QueueRun(cfg: Config, reg: Regime, s: State, es: seq<Event>)
    requires Inv(s) && Queue(cfg, s) && |s.workers| == 1 && reg.growingStamps && IsRun(cfg, reg, s, es)
    ensures Queue(cfg, Exec(cfg, reg, s, es))
  {
    if es == [] {
    } else {
      var init := es[..|es| - 1];
      QueueRun(cfg, reg, s, init);
      InvRun(cfg, reg, s, init);
      WorkersCount(cfg, reg, s, init);
      QueueStep(cfg, Exec(cfg, reg, s, init), es[|es| - 1]);
    }
  }

  /** With one worker and growing creation stamps -- crashes and failing database calls allowed
      -- the rows that have left `pending` form a prefix of creation order among those the
      worker may claim, through any number of refusals that put rows back. */
  lemma {:induction false} ServedInOrder(cfg: Config, reg: Regime, s0: State, es: seq<Event>, a: TaskId, b: TaskId)
    requires Initial(s0) && |s0.workers| == 1 && reg.growingStamps && IsRun(cfg, reg, s0, es)
    requires var t := Exec(cfg, reg, s0, es).tasks;
             && a in t && b in t && Claimable(cfg, t[a]) && Claimable(cfg, t[b])
             && t[a].createdAt < t[b].createdAt && t[b].status != Pending
    ensures Exec(cfg, reg, s0, es).tasks[a].status != Pending
  {
    InitialInv(s0);
    QueueRun(cfg, reg, s0, es);
    assert OlderServed(cfg, Exec(cfg, reg, s0, es), b);
  }
}
