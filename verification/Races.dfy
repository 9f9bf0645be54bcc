/** Stopping a task that was seen `admitted`: final with one worker, and with no larger number. */
module Races {
  import opened Model
  import opened Table
  import opened Machine
  import opened Invariant
  import opened Safety
  import opened Tightness
  import Fifo

  /** Worker `w` is somewhere in `executeStop` for row `id`, whose target it saw (or will see) with
      status `seen`, nobody else touching either row. */
  ghost predicate StopUnderWay(s: State, j: Job, w: WorkerId, id: TaskId, target: TaskId, seen: Status) {
    && w in s.workers && id in s.tasks && target in s.tasks && id != target && InSlot(seen)
    && s.tasks[id].op.Stop? && s.tasks[id].target == Some(target) && s.tasks[id].prov == j.prov
    && Registered(j.prov) && IsJob(j, s.tasks[target])
    && var pc := s.workers[w];
    && StepsOfStop(pc) > 0 && pc.id == id
    && (!pc.StopRec? ==> s.tasks[id].status == Processing)
    && (pc.StopRec? ==> s.tasks[id].status == Succeeded)
    && (pc.Claimed? || pc.StopLoad? || pc.StopCall? || pc.StopTarget? ==> s.tasks[target].status == seen)
    && (HasTarget(pc) ==> pc.target == target && pc.row.status == seen && pc.row.prov == j.prov)
    && (pc.StopSucceed? || pc.StopRec? ==> s.tasks[target].status == Stopped)
    && (HasTarget(pc) || pc.StopRec? ==> id in s.hist.seen && s.hist.seen[id] == Read(target, seen))
  }

  function StepsOfStop(pc: Pc): nat {
    if pc.Claimed? then 6 else if pc.StopLoad? then 5 else if pc.StopCall? then 4
    else if pc.StopTarget? then 3 else if pc.StopSucceed? then 2 else if pc.StopRec? then 1 else 0
  }

  lemma StopStep(cfg: Config, s: State, j: Job, w: WorkerId, id: TaskId, target: TaskId, seen: Status)
    requires StopUnderWay(s, j, w, id, target, seen) && !s.workers[w].StopRec?
    ensures StopUnderWay(Next(cfg, s, Work(w, FINE)), j, w, id, target, seen)
    ensures StepsOfStop(Next(cfg, s, Work(w, FINE)).workers[w]) == StepsOfStop(s.workers[w]) - 1
  {
    hide NextRecords, NextRequests, NextRecon, NextSweeps, NextListed, NextReapers;
    hide CallsOf, NextMarks;
  }

  lemma StopTouches(cfg: Config, s: State, j: Job, w: WorkerId, id: TaskId, target: TaskId, seen: Status)
    requires StopUnderWay(s, j, w, id, target, seen) && !s.workers[w].StopRec?
    ensures OthersUntouched(s, Next(cfg, s, Work(w, FINE)), w, id, target)
  {
    hide CallsOf, NextMarks;
  }

  /** Only the stop, its target and its worker change. */
  ghost predicate OthersUntouched(s: State, s': State, w: WorkerId, id: TaskId, target: TaskId) {
    && s'.tasks.Keys == s.tasks.Keys && s'.hist.restarts == s.hist.restarts
    && (forall k :: k in s.tasks && k != id && k != target ==> s'.tasks[k] == s.tasks[k])
    && s'.workers.Keys == s.workers.Keys
    && (forall v :: v in s.workers && v != w ==> s'.workers[v] == s.workers[v])
  }

  /** The worker goes on until it has `left` calls of the stop to go. */
  lemma {:induction false} WalkStop(
    cfg: Config, reg: Regime, s: State, j: Job, w: WorkerId, id: TaskId, target: TaskId, seen: Status, left: nat)
    returns (s': State)
    requires w in s.workers && StopUnderWay(s, j, w, id, target, seen) && 1 <= left <= StepsOfStop(s.workers[w])
    ensures Reaches(cfg, reg, s, s')
    ensures StopUnderWay(s', j, w, id, target, seen) && StepsOfStop(s'.workers[w]) == left
    ensures w in s'.workers && OthersUntouched(s, s', w, id, target)
    decreases StepsOfStop(s.workers[w])
  {
    hide Reaches, StopUnderWay;
    if StepsOfStop(s.workers[w]) == left {
      s' := s;
      ReachesSelf(cfg, reg, s);
    } else {
      var s1 := OneCall(cfg, reg, s, j, w, id, target, seen);
      s' := WalkStop(cfg, reg, s1, j, w, id, target, seen, left);
      ReachesTrans(cfg, reg, s, s1, s');
    }
  }

  lemma OneCall(cfg: Config, reg: Regime, s: State, j: Job, w: WorkerId, id: TaskId, target: TaskId, seen: Status)
    returns (s': State)
    requires w in s.workers && StopUnderWay(s, j, w, id, target, seen) && StepsOfStop(s.workers[w]) > 1
    ensures Reaches(cfg, reg, s, s')
    ensures StopUnderWay(s', j, w, id, target, seen) && StepsOfStop(s'.workers[w]) == StepsOfStop(s.workers[w]) - 1
    ensures OthersUntouched(s, s', w, id, target)
  {
    hide Reaches;
    s' := Next(cfg, s, Work(w, FINE));
    ReachesNext(cfg, reg, s, Work(w, FINE));
    StopStep(cfg, s, j, w, id, target, seen);
    StopTouches(cfg, s, j, w, id, target, seen);
  }

  /** The record is the stop's last call. */
  lemma FinishStop(cfg: Config, reg: Regime, s: State, j: Job, w: WorkerId, id: TaskId, target: TaskId, seen: Status)
    returns (s': State)
    requires StopUnderWay(s, j, w, id, target, seen) && s.workers[w].StopRec?
    ensures Reaches(cfg, reg, s, s')
    ensures s'.tasks == s.tasks && s'.workers == s.workers[w := Idle]
  {
    hide Reaches;
    s' := Next(cfg, s, Work(w, FINE));
    ReachesNext(cfg, reg, s, Work(w, FINE));
  }

  /** Submit a stop for `target` and let the idle worker `w` claim it. */
  lemma EnqueueStop(cfg: Config, reg: Regime, s: State, j: Job, w: WorkerId, target: TaskId, next: TaskId)
    returns (s': State)
    requires Takes(cfg, j.prov) && Registered(j.prov) && Quiet(s, next) && w in s.workers && s.workers[w].Idle?
    requires target in s.tasks && IsJob(j, s.tasks[target]) && InSlot(s.tasks[target].status)
    ensures Reaches(cfg, reg, s, s')
    ensures StopUnderWay(s', j, w, next, target, s.tasks[target].status) && s'.workers == s.workers[w := Claimed(next)]
    ensures s'.tasks[target] == s.tasks[target]
  {
    hide Reaches;
    var e1, e2 := Submit(next, Stop, Some(target), j.cls, j.prov, BARE, next), Claim(w, {}, next);
    var s1 := Next(cfg, s, e1);
    s' := Next(cfg, s1, e2);
    ReachesNext(cfg, reg, s, e1);
    ReachesNext(cfg, reg, s1, e2);
    ReachesTrans(cfg, reg, s, s1, s');
  }

  /** Two workers suffice to undo a successful stop: one is between admission and `Run`, the
      other stops the admitted task and reports success, and the first then records `running`. */
  lemma StopUndone(cfg: Config, reg: Regime, s0: State, v: WorkerId, w: WorkerId) returns (s: State)
    requires Initial(s0) && TakesWork(cfg) && v in s0.workers && w in s0.workers && v != w
    ensures Reaches(cfg, reg, s0, s)
    ensures 0 in s.tasks && s.tasks[0].status == Running && s.tasks[0].op.Start?
    ensures SucceededStop(s, 1) && s.tasks[1].target == Some(0)
  {
    hide Reaches, IsJob, OnlyJobs, StopUnderWay;
    var p := SomeProvider(cfg);
    var j := Job(Fast, p, PLAIN);
    var s3 := OneAdmitted(cfg, reg, s0, j, v);
    var s4 := EnqueueStop(cfg, reg, s3, j, w, 0, 1);
    ReachesTrans(cfg, reg, s0, s3, s4);
    var s5 := WalkStop(cfg, reg, s4, j, w, 1, 0, Admitted, 1);
    ReachesTrans(cfg, reg, s0, s4, s5);
    s := Undo(cfg, reg, s0, s5, j, v, w);
  }

  /** One worker has admitted task 0 and is about to launch it. */
  lemma OneAdmitted(cfg: Config, reg: Regime, s0: State, j: Job, v: WorkerId) returns (s: State)
    requires Initial(s0) && v in s0.workers && Takes(cfg, j.prov) && Registered(j.prov) && RoomFor(cfg, j, 1)
    ensures Reaches(cfg, reg, s0, s)
    ensures s.workers == s0.workers[v := Reload(0)] && s.requests == map[] && s.now == s0.now
    ensures s.sweeps == map[] && s.recon == map[]
    ensures s.tasks.Keys == {0} && s.tasks[0].status == Admitted && IsJob(j, s.tasks[0]) && s.tasks[0].createdAt == 0
    ensures OnlyJobs(s.tasks, j) && Count(Everyone, s.tasks) == 1 && Quiet(s, 1)
  {
    hide Reaches, IsJob, RoomFor;
    NothingYet(s0, j);
    var s1 := Enqueue(cfg, reg, s0, j, v, 0);
    var s2 := WalkToCommit(cfg, reg, s1, j, 1, v);
    ReachesTrans(cfg, reg, s0, s1, s2);
    s := CommitNow(cfg, reg, s2, j, v);
    ReachesTrans(cfg, reg, s0, s2, s);
    JobKept(j, s2.tasks[0], s.tasks[0]);
  }

  lemma Undo(cfg: Config, reg: Regime, s0: State, s5: State, j: Job, v: WorkerId, w: WorkerId) returns (s: State)
    requires Initial(s0) && Reaches(cfg, reg, s0, s5) && v != w
    requires v in s5.workers && s5.workers[v] == Reload(0)
    requires StopUnderWay(s5, j, w, 1, 0, Admitted) && s5.workers[w].StopRec?
    ensures Reaches(cfg, reg, s0, s)
    ensures 0 in s.tasks && s.tasks[0].status == Running && s.tasks[0].op.Start?
    ensures SucceededStop(s, 1) && s.tasks[1].target == Some(0)
  {
    hide IsRun, Exec, Inv;
    var s6 := FinishStop(cfg, reg, s5, j, w, 1, 0, Admitted);
    ReachesTrans(cfg, reg, s0, s5, s6);
    var es :| IsRun(cfg, reg, s0, es) && Exec(cfg, reg, s0, es) == s6;
    Reachable(cfg, reg, s0, es);
    s := Resume(cfg, reg, s6, v);
    ReachesTrans(cfg, reg, s0, s6, s);
  }

  lemma Resume(cfg: Config, reg: Regime, s5: State, v: WorkerId) returns (s: State)
    requires Inv(s5) && v in s5.workers && s5.workers[v] == Reload(0)
    requires 0 in s5.tasks && s5.tasks[0].op.Start? && Registered(s5.tasks[0].prov) && SucceededStop(s5, 1)
    ensures Reaches(cfg, reg, s5, s)
    ensures 0 in s.tasks && s.tasks[0].status == Running && s.tasks[0].op.Start?
    ensures SucceededStop(s, 1) && s.tasks[1].target == s5.tasks[1].target
  {
    hide IsRun, Exec, Inv;
    assert CanRevive(s5, v, 0);
    var fs := ReviveRun(cfg, reg, s5, v, 0);
    s := Exec(cfg, reg, s5, fs);
    ColumnsKept(cfg, reg, s5, fs, 0);
    ColumnsKept(cfg, reg, s5, fs, 1);
    SucceededStopStays(cfg, reg, s5, fs, 1);
  }

  predicate SucceededStop(s: State, id: TaskId) {
    id in s.tasks && s.tasks[id].op.Stop? && s.tasks[id].status == Succeeded
  }

  /** The row the stop was aimed at holds no slot. */
  predicate TargetIsOut(s: State, id: TaskId)
    requires id in s.tasks
  {
    s.tasks[id].target.Some? ==>
      s.tasks[id].target.value in s.tasks ==> !Occupies(s.tasks[s.tasks[id].target.value])
  }

  /** A successful stop is a lasting stop -- whatever status it saw -- exactly in the deployments
      with one worker, and in those where no stop ever succeeds because their workers claim no
      rows of a registered provider. */
  lemma StopsLastIff(cfg: Config, s0: State)
    requires Initial(s0) && |s0.workers| >= 1
    ensures (forall reg, s, id :: Reaches(cfg, reg, s0, s) && SucceededStop(s, id) ==> TargetIsOut(s, id))
       <==> |s0.workers| == 1 || !TakesWork(cfg)
  {
    hide IsRun, Exec;
    if |s0.workers| == 1 || !TakesWork(cfg) {
      forall reg, s, id | Reaches(cfg, reg, s0, s) && SucceededStop(s, id) ensures TargetIsOut(s, id) {
        var es :| IsRun(cfg, reg, s0, es) && Exec(cfg, reg, s0, es) == s;
        ServedTakesWork(cfg, reg, s0, es, id);
        LastingStop(cfg, reg, s0, es, id);
      }
    } else {
      var v :| v in s0.workers;
      var w := AnotherWorker(s0, v);
      var s := StopUndone(cfg, ANYTHING, s0, v, w);
      assert !TargetIsOut(s, 1);
    }
  }

  lemma AnotherWorker(s: State, v: WorkerId) returns (w: WorkerId)
    requires |s.workers| > 1 && v in s.workers
    ensures w in s.workers && w != v
  {
    var others := s.workers.Keys - {v};
    assert s.workers.Keys == others + {v};
    assert |s.workers.Keys| == |s.workers|;
    w :| w in others;
  }

  lemma {:induction false} LastingStop(cfg: Config, reg: Regime, s0: State, es: seq<Event>, id: TaskId)
    requires Initial(s0) && IsRun(cfg, reg, s0, es) && |s0.workers| == 1
    requires var s := Exec(cfg, reg, s0, es);
             id in s.tasks && s.tasks[id].op.Stop? && s.tasks[id].status == Succeeded
    ensures var s := Exec(cfg, reg, s0, es);
            s.tasks[id].target.Some? && Finished(s, s.tasks[id].target.value)
  {
    WorkersCount(cfg, reg, s0, es);
    InitialStops(s0);
    InitialInv(s0);
    StopsRun(cfg, reg, s0, es);
  }
}
