/** A closed queue drains.  One worker, no faults, nothing new submitted, and every queued start
    row small enough to be admitted on an empty table: alternating worker turns with "some
    workload ends" makes every row terminal, within a number of rounds fixed in advance. */
module Drain {
  import opened Model
  import opened Table
  import opened Machine
  import opened Invariant
  import Audit
  import GpuSlots
  import Scheduler

  function Pends(t: Tasks): set<TaskId> {
    set id | id in t && t[id].status == Pending
  }

  function Slots(t: Tasks): set<TaskId> {
    Occupying(Everyone, t)
  }

  /** A queued row costs two, a row in a slot one, a finished row nothing. */
  function Measure(t: Tasks): nat {
    2 * |Pends(t)| + |Slots(t)|
  }

  /** The start row would be admitted if nothing else were in a slot. */
  predicate FitsAlone(cfg: Config, r: Row) {
    && Scheduler.Admit(cfg, r.op, r.cls, Scheduler.Counts(0, 0, 0)).Accept?
    && (r.op.Start? && r.prov.Docker? && WantsGPU(r.work.gpu) ==> 1 <= GpuSlots.SlotLimit(cfg.gpuIDs))
  }

  ghost predicate Servable(cfg: Config, t: Tasks) {
    forall id :: id in t && t[id].status == Pending ==> Claimable(cfg, t[id]) && FitsAlone(cfg, t[id])
  }

  ghost predicate AllTerminal(t: Tasks) {
    forall id :: id in t ==> Terminal(t[id].status)
  }

  // ---- A turn: claim, then the worker's own calls until it is idle again ----

  ghost predicate OnlyWork(w: WorkerId, es: seq<Event>) {
    forall i :: 0 <= i < |es| ==> es[i].Work? && es[i].w == w
  }

  const CALM := Regime(false, false)

  ghost predicate Turn(cfg: Config, s: State, w: WorkerId, s': State) {
    exists id, es ::
      && w in s.workers && CanStep(cfg, CALM, s, Claim(w, {}, id))
      && OnlyWork(w, es) && IsRun(cfg, CALM, Next(cfg, s, Claim(w, {}, id)), es)
      && s' == Exec(cfg, CALM, Next(cfg, s, Claim(w, {}, id)), es)
      && w in s'.workers && s'.workers[w].Idle?
  }

  /** How many calls a turn has left at most; each fault-free call uses one up, so every turn
      ends, after at most eleven calls. */
  function CallsLeft(pc: Pc): nat {
    match pc
    case Idle => 0
    case Claimed(_) => 11
    case Begin(_) => 10
    case CountTotal(_) => 9
    case CountFast(_, _) => 8
    case CountSlow(_, _, _) => 7
    case CheckGpu(_) => 6
    case Commit(_) => 5
    case Reload(_) => 4
    case Precheck(_) => 3
    case Launch(_) => 2
    case StopLoad(_) => 6
    case StopCall(_, _, _) => 5
    case StopTarget(_, _, _) => 4
    case StopSucceed(_, _, _) => 3
    case StopFail(_, _, _) => 2
    case _ => 1
  }

  lemma CallsDrop(cfg: Config, s: State, pc: Pc, o: Outcome)
    requires !pc.Idle?
    ensures CallsLeft(WorkPc(cfg, s, pc, o)) < CallsLeft(pc)
  {
  }

  /** Where the table stands in the middle of a turn on row `id` that began from `t0`. */
  ghost predicate MidTurn(t0: Tasks, t: Tasks, pc: Pc, id: TaskId) {
    && (!pc.Idle? ==> pc.id == id && Pends(t) == Pends(t0) - {id})
    && (BeforeCommit(pc) ==> Slots(t) == Slots(t0))
    && (pc.CountFast? || pc.CountSlow? ==> pc.total == |Slots(t0)|)
    && (pc.Refused? ==> Slots(t0) != {})
    && Slots(t) <= Slots(t0) + {id}
    && (Stopping(pc) || pc.StopRec? ==> Slots(t) <= Slots(t0))
    && (pc.Idle? ==> Pends(t) == Pends(t0) - {id} || (Pends(t) == Pends(t0) && Slots(t) == Slots(t0) != {}))
  }

  lemma RefusedNotAlone(cfg: Config, s: State, pc: Pc, o: Outcome, t0: Tasks)
    requires !pc.Idle? && HolderFits(s, pc) && BeforeCommit(pc) && o.db
    requires FitsAlone(cfg, s.tasks[pc.id]) && MidTurn(t0, s.tasks, pc, pc.id)
    requires StartPc(cfg, s, pc, o).Refused?
    ensures Slots(t0) != {}
  {
    if Slots(t0) == {} {
      NobodyToCount(s.tasks);
    }
  }

  lemma NobodyToCount(t: Tasks)
    requires Slots(t) == {}
    ensures forall g :: Count(g, t) == 0
  {
    forall g ensures Count(g, t) == 0 {
      assert Occupying(g, t) <= Slots(t);
      assert Occupying(g, t) == {};
    }
  }

  lemma StatementMeasure(s: State, pc: Pc, o: Outcome)
    requires !pc.Idle? && HolderFits(s, pc) && o.db
    ensures var t' := Apply(s.tasks, WorkStatement(s, pc, o), s.now);
            && Pends(t') == Pends(s.tasks) + (if pc.Refused? then {pc.id} else {})
            && Slots(t') <= Slots(s.tasks) + (if pc.Commit? || pc.Record? then {pc.id} else {})
            && (BeforeCommit(pc) && !pc.Commit? ==> Slots(t') == Slots(s.tasks))
  {
    var t' := Apply(s.tasks, WorkStatement(s, pc, o), s.now);
    assert Pends(t') == Pends(s.tasks) + (if pc.Refused? then {pc.id} else {});
    if BeforeCommit(pc) && !pc.Commit? {
      assert Slots(t') == Slots(s.tasks);
    }
  }

  lemma MidTurnPc(cfg: Config, s: State, pc: Pc, o: Outcome, t0: Tasks)
    requires !pc.Idle? && HolderFits(s, pc) && RowShape(s.tasks[pc.id]) && o.db && (pc.Claimed? || pc.id in s.tasks)
    requires MidTurn(t0, s.tasks, pc, pc.id) && pc.id in Pends(t0)
    requires BeforeCommit(pc) ==> FitsAlone(cfg, s.tasks[pc.id])
    ensures MidTurn(t0, Apply(s.tasks, WorkStatement(s, pc, o), s.now), WorkPc(cfg, s, pc, o), pc.id)
  {
    var pc' := WorkPc(cfg, s, pc, o);
    StatementMeasure(s, pc, o);
    StartPcFlight(cfg, s, pc, o);
    if BeforeCommit(pc) && pc'.Refused? {
      RefusedNotAlone(cfg, s, pc, o, t0);
    }
    PcOrigin(cfg, s, pc, o);
  }

  lemma PcOrigin(cfg: Config, s: State, pc: Pc, o: Outcome)
    requires !pc.Idle? && HolderFits(s, pc) && RowShape(s.tasks[pc.id]) && o.db
    ensures var pc' := WorkPc(cfg, s, pc, o);
            && (BeforeCommit(pc') ==> BeforeCommit(pc) && !pc.Commit? && !pc.Refused?)
            && (pc'.CountFast? ==> pc'.total == Count(Everyone, s.tasks))
            && (pc'.CountSlow? ==> pc.CountFast? && pc'.total == pc.total)
            && (Stopping(pc') || pc'.StopRec? ==> Stopping(pc) || pc.Claimed?)
            && (pc'.Idle? ==> pc.Refused? || pc.Record? || pc.MarkFailed? || pc.StopRec?)
  {
  }

  /** Along the turn: the table is as `MidTurn` says, and the row's columns are its own. */
  lemma {:induction false} AlongTurn(cfg: Config, s0: State, s: State, w: WorkerId, id: TaskId, es: seq<Event>)
    requires Inv(s) && IsRun(cfg, CALM, s, es) && OnlyWork(w, es)
    requires id in Pends(s0.tasks) && FitsAlone(cfg, s0.tasks[id])
    requires w in s.workers && s.workers[w] == Claimed(id) && MidTurn(s0.tasks, s.tasks, Claimed(id), id)
    requires id in s.tasks && SameColumns(s0.tasks[id], s.tasks[id])
    ensures var s' := Exec(cfg, CALM, s, es);
            && w in s'.workers && id in s'.tasks && SameColumns(s0.tasks[id], s'.tasks[id])
            && MidTurn(s0.tasks, s'.tasks, s'.workers[w], id)
  {
    hide NextRecords, NextRequests, NextRecon, NextSweeps, NextListed, NextReapers, NextMarks, NextHistory;
    hide NextWorkers, CallsOf, Apply, StatementOf, WorkStatement, WorkPc, StartPc, StopPc, WorkCalls, WorkHistory;
    hide Legal, HolderFits, Finished, Rows, Holding, Watchers, Reapers, Requests, Counters;
    if es == [] {
    } else {
      var init := es[..|es| - 1];
      AlongTurn(cfg, s0, s, w, id, init);
      InvRun(cfg, CALM, s, init);
      TurnStep(cfg, s0, Exec(cfg, CALM, s, init), w, id, es[|es| - 1]);
    }
  }

  lemma TurnStep(cfg: Config, s0: State, s: State, w: WorkerId, id: TaskId, e: Event)
    requires Inv(s) && CanStep(cfg, CALM, s, e) && e.Work? && e.w == w
    requires id in Pends(s0.tasks) && FitsAlone(cfg, s0.tasks[id])
    requires w in s.workers && id in s.tasks && SameColumns(s0.tasks[id], s.tasks[id])
    requires MidTurn(s0.tasks, s.tasks, s.workers[w], id)
    ensures var s' := Next(cfg, s, e);
            && w in s'.workers && id in s'.tasks && SameColumns(s0.tasks[id], s'.tasks[id])
            && MidTurn(s0.tasks, s'.tasks, s'.workers[w], id)
  {
    assert HolderFits(s, s.workers[w]);
    MidTurnPc(cfg, s, s.workers[w], e.o, s0.tasks);
    StepFlows(cfg, s, e);
  }

  lemma ClaimStarts(cfg: Config, s: State, w: WorkerId, id: TaskId)
    requires Enabled(cfg, s, Claim(w, {}, id))
    ensures var s' := Next(cfg, s, Claim(w, {}, id));
            && MidTurn(s.tasks, s'.tasks, Claimed(id), id) && id in s'.tasks && SameColumns(s.tasks[id], s'.tasks[id])
            && s'.workers == s.workers[w := Claimed(id)]
  {
    var s' := Next(cfg, s, Claim(w, {}, id));
    assert Pends(s'.tasks) == Pends(s.tasks) - {id};
    assert Slots(s'.tasks) == Slots(s.tasks);
  }

  /** A turn either takes a row out of the queue for good, and the measure drops, or the row was
      refused and put back -- and then somebody holds a slot. */
  lemma {:induction false} TurnProgress(cfg: Config, s: State, w: WorkerId, s': State)
    requires Inv(s) && Servable(cfg, s.tasks) && Turn(cfg, s, w, s')
    ensures Pends(s'.tasks) <= Pends(s.tasks)
    ensures Measure(s'.tasks) < Measure(s.tasks) || (Measure(s'.tasks) == Measure(s.tasks) && Slots(s'.tasks) != {})
  {
    var id, es :|
      && w in s.workers && CanStep(cfg, CALM, s, Claim(w, {}, id))
      && OnlyWork(w, es) && IsRun(cfg, CALM, Next(cfg, s, Claim(w, {}, id)), es)
      && s' == Exec(cfg, CALM, Next(cfg, s, Claim(w, {}, id)), es)
      && w in s'.workers && s'.workers[w].Idle?;
    ClaimStarts(cfg, s, w, id);
    InvStep(cfg, s, Claim(w, {}, id));
    AlongTurn(cfg, s, Next(cfg, s, Claim(w, {}, id)), w, id, es);
    TurnMeasure(s.tasks, s'.tasks, id);
  }

  lemma TurnMeasure(t0: Tasks, t: Tasks, id: TaskId)
    requires id in Pends(t0) && MidTurn(t0, t, Idle, id)
    ensures Pends(t) <= Pends(t0)
    ensures Measure(t) < Measure(t0) || (Measure(t) == Measure(t0) && Slots(t) != {})
  {
    if Pends(t) == Pends(t0) - {id} {
      SubsetCard(Slots(t), Slots(t0) + {id});
    }
  }

  // ---- Somebody's workload ends: other processes act, and a slot is vacated ----

  /** Not a worker's step and not an insert. */
  predicate Background(e: Event) {
    !e.Claim? && !e.Work? && !e.Crash? && !e.Submit? && !e.RestartInsertStop? && !e.RestartInsertClone?
  }

  ghost predicate Ends(cfg: Config, s: State, s': State) {
    && Slots(s'.tasks) != Slots(s.tasks)
    && exists es :: (forall i :: 0 <= i < |es| ==> Background(es[i]))
                    && IsRun(cfg, CALM, s, es) && s' == Exec(cfg, CALM, s, es)
  }

  lemma BackgroundStep(cfg: Config, s: State, e: Event)
    requires Inv(s) && Enabled(cfg, s, e) && Background(e)
    ensures var s' := Next(cfg, s, e);
            Pends(s'.tasks) == Pends(s.tasks) && Slots(s'.tasks) <= Slots(s.tasks) && s'.workers == s.workers
  {
    OutsiderStatement(cfg, s, e);
    NotAnInsert(s, e);
    OutsiderMeasure(s, StatementOf(s, e));
  }

  lemma NotAnInsert(s: State, e: Event)
    requires Background(e)
    ensures !StatementOf(s, e).Create?
  {
  }

  lemma OutsiderMeasure(s: State, stmt: Statement)
    requires Outsider(s, stmt) && !stmt.Create?
    ensures var t' := Apply(s.tasks, stmt, s.now);
            Pends(t') == Pends(s.tasks) && Slots(t') <= Slots(s.tasks)
  {
    var t' := Apply(s.tasks, stmt, s.now);
    assert Pends(t') == Pends(s.tasks);
  }

  lemma {:induction false} BackgroundRun(cfg: Config, s: State, es: seq<Event>)
    requires Inv(s) && IsRun(cfg, CALM, s, es) && forall i :: 0 <= i < |es| ==> Background(es[i])
    ensures var s' := Exec(cfg, CALM, s, es);
            Pends(s'.tasks) == Pends(s.tasks) && Slots(s'.tasks) <= Slots(s.tasks) && s'.workers == s.workers
  {
    if es == [] {
    } else {
      var init := es[..|es| - 1];
      BackgroundRun(cfg, s, init);
      InvRun(cfg, CALM, s, init);
      BackgroundStep(cfg, Exec(cfg, CALM, s, init), es[|es| - 1]);
    }
  }

  lemma EndsDrops(cfg: Config, s: State, s': State)
    requires Inv(s) && Ends(cfg, s, s')
    ensures Measure(s'.tasks) < Measure(s.tasks) && Pends(s'.tasks) == Pends(s.tasks) && s'.workers == s.workers
  {
    var es :| (forall i :: 0 <= i < |es| ==> Background(es[i]))
              && IsRun(cfg, CALM, s, es) && s' == Exec(cfg, CALM, s, es);
    BackgroundRun(cfg, s, es);
    var gone := Slots(s.tasks) - Slots(s'.tasks);
    assert Slots(s.tasks) == Slots(s'.tasks) + gone;
    assert gone != {};
  }

  // ---- Rounds ----

  /** One round: a turn unless the queue is empty, then a workload ends unless no slot is
      held. */
  ghost predicate Round(cfg: Config, s: State, w: WorkerId, s': State) {
    exists mid ::
      && (if Pends(s.tasks) == {} then mid == s else Turn(cfg, s, w, mid))
      && (if Slots(mid.tasks) == {} then s' == mid else Ends(cfg, mid, s'))
  }

  ghost predicate Settled(cfg: Config, s: State, w: WorkerId) {
    && Inv(s) && Audit.Calm(s) && Servable(cfg, s.tasks)
    && w in s.workers && s.workers.Keys == {w} && s.workers[w].Idle?
  }

  lemma {:induction false} KeepsCalm(cfg: Config, s: State, es: seq<Event>)
    requires Inv(s) && Audit.Calm(s) && IsRun(cfg, CALM, s, es)
    ensures Inv(Exec(cfg, CALM, s, es)) && Audit.Calm(Exec(cfg, CALM, s, es))
    ensures Exec(cfg, CALM, s, es).workers.Keys == s.workers.Keys
    ensures forall id :: id in s.tasks ==>
              id in Exec(cfg, CALM, s, es).tasks && SameColumns(s.tasks[id], Exec(cfg, CALM, s, es).tasks[id])
  {
    InvRun(cfg, CALM, s, es);
    Audit.CalmRun(cfg, CALM, s, es);
    WorkersCount(cfg, CALM, s, es);
    if es == [] {
    } else {
      var init := es[..|es| - 1];
      KeepsCalm(cfg, s, init);
      StepFlows(cfg, Exec(cfg, CALM, s, init), es[|es| - 1]);
    }
  }

  lemma TurnIsRun(cfg: Config, s: State, w: WorkerId, s': State)
    requires Turn(cfg, s, w, s')
    ensures Reaches(cfg, CALM, s, s') && w in s'.workers && s'.workers[w].Idle?
  {
    hide NextRecords, NextRequests, NextRecon, NextSweeps, NextListed, NextReapers, NextMarks, NextHistory;
    hide NextWorkers, CallsOf, Apply, StatementOf, WorkStatement, WorkPc, StartPc, StopPc, WorkCalls, WorkHistory;
    hide Legal, HolderFits, Finished, Rows, Holding, Watchers, Reapers, Requests, Counters;
    var id, es :|
      && w in s.workers && CanStep(cfg, CALM, s, Claim(w, {}, id))
      && OnlyWork(w, es) && IsRun(cfg, CALM, Next(cfg, s, Claim(w, {}, id)), es)
      && s' == Exec(cfg, CALM, Next(cfg, s, Claim(w, {}, id)), es)
      && w in s'.workers && s'.workers[w].Idle?;
    RunCons(cfg, CALM, s, Claim(w, {}, id), es);
  }

  lemma StaysSettled(cfg: Config, s: State, w: WorkerId, s': State)
    requires Settled(cfg, s, w) && Reaches(cfg, CALM, s, s') && Pends(s'.tasks) <= Pends(s.tasks)
    requires w in s'.workers && s'.workers[w].Idle?
    ensures Settled(cfg, s', w)
  {
    var es :| IsRun(cfg, CALM, s, es) && Exec(cfg, CALM, s, es) == s';
    KeepsCalm(cfg, s, es);
    forall id | id in s'.tasks && s'.tasks[id].status == Pending
      ensures Claimable(cfg, s'.tasks[id]) && FitsAlone(cfg, s'.tasks[id])
    {
      assert id in Pends(s'.tasks) && id in Pends(s.tasks);
    }
  }

  /** With nobody holding a row, "not queued and not in a slot" means finished. */
  lemma EmptyMeansDone(cfg: Config, s: State, w: WorkerId)
    requires Settled(cfg, s, w)
    ensures Measure(s.tasks) == 0 ==> AllTerminal(s.tasks)
  {
    if Measure(s.tasks) == 0 {
      assert Pends(s.tasks) == {} && Slots(s.tasks) == {};
      forall id | id in s.tasks ensures Terminal(s.tasks[id].status) {
        assert id !in Pends(s.tasks) && id !in Slots(s.tasks);
        assert !Audit.Held(s, id);
        assert RowShape(s.tasks[id]);
      }
    }
  }

  lemma RoundProgress(cfg: Config, s: State, w: WorkerId, s': State)
    requires Settled(cfg, s, w) && Round(cfg, s, w, s')
    ensures Settled(cfg, s', w)
    ensures Measure(s'.tasks) < Measure(s.tasks) || Measure(s'.tasks) == 0
  {
    hide NextRecords, NextRequests, NextRecon, NextSweeps, NextListed, NextReapers, NextMarks, NextHistory;
    hide NextWorkers, CallsOf, Apply, StatementOf, WorkStatement, WorkPc, StartPc, StopPc, WorkCalls, WorkHistory;
    hide Legal, HolderFits, Finished, Rows, Holding, Watchers, Reapers, Requests, Counters;
    var mid :|
      && (if Pends(s.tasks) == {} then mid == s else Turn(cfg, s, w, mid))
      && (if Slots(mid.tasks) == {} then s' == mid else Ends(cfg, mid, s'));
    if Pends(s.tasks) != {} {
      TurnProgress(cfg, s, w, mid);
      TurnIsRun(cfg, s, w, mid);
      StaysSettled(cfg, s, w, mid);
    }
    if Slots(mid.tasks) != {} {
      EndsDrops(cfg, mid, s');
      StaysSettled(cfg, mid, w, s');
    }
  }

  /** The queue drains: after as many rounds as twice the queued rows plus the rows in slots,
      every row is terminal, whatever the providers answer and whichever workload ends. */
  lemma {:induction false} QueueDrains(cfg: Config, w: WorkerId, ss: seq<State>)
    requires ss != [] && Settled(cfg, ss[0], w)
    requires forall i :: 0 <= i < |ss| - 1 ==> Round(cfg, ss[i], w, ss[i + 1])
    ensures Settled(cfg, ss[|ss| - 1], w)
    ensures Measure(ss[|ss| - 1].tasks) + (|ss| - 1) <= Measure(ss[0].tasks) || Measure(ss[|ss| - 1].tasks) == 0
    ensures |ss| - 1 >= Measure(ss[0].tasks) ==> AllTerminal(ss[|ss| - 1].tasks)
    decreases |ss|
  {
    hide Round, Settled, Measure, AllTerminal;
    if |ss| == 1 {
    } else {
      var init := ss[..|ss| - 1];
      QueueDrains(cfg, w, init);
      RoundProgress(cfg, ss[|ss| - 2], w, ss[|ss| - 1]);
    }
    EmptyMeansDone(cfg, ss[|ss| - 1], w);
  }
}
