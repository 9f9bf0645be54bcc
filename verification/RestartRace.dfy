/** Why a restart is safe with one worker only: with two, one may hold the stop row while the other
    is handed the clone. */
module RestartRace {
  import opened Model
  import opened Table
  import opened Machine
  import opened Invariant
  import opened Tightness
  import Overshoot
  import Races
  import Restarts

  /** No faults, and every insert gets a later stamp. */
  const ORDERLY := Regime(false, true)

  /** Task 0 runs, and all workers are free. */
  lemma First(cfg: Config, s0: State, j: Job, v: WorkerId) returns (s: State)
    requires Initial(s0) && Takes(cfg, j.prov) && Registered(j.prov) && RoomFor(cfg, j, 1) && v in s0.workers
    ensures Reaches(cfg, ORDERLY, s0, s) && s.workers == s0.workers && s.requests == map[]
    ensures s.tasks.Keys == {0} && s.tasks[0].status == Running && IsJob(j, s.tasks[0]) && s.tasks[0].createdAt == 0
    ensures OnlyJobs(s.tasks, j) && Count(Everyone, s.tasks) == 1
  {
    hide Reaches, IsJob, RoomFor, OnlyJobs;
    var s1 := Races.OneAdmitted(cfg, ORDERLY, s0, j, v);
    s := WalkToIdle(cfg, ORDERLY, s1, j, v);
    ReachesTrans(cfg, ORDERLY, s0, s1, s);
    JobKept(j, s1.tasks[0], s.tasks[0]);
  }

  /** Task 0 is restarted: a stop and a clone, in this order, and worker `v` claims the stop. */
  lemma Restarted(cfg: Config, s: State, j: Job, v: WorkerId) returns (s': State)
    requires Takes(cfg, j.prov) && Registered(j.prov) && v in s.workers && s.workers[v].Idle? && 0 !in s.requests
    requires s.tasks.Keys == {0} && s.tasks[0].status == Running && IsJob(j, s.tasks[0]) && s.tasks[0].createdAt == 0
    ensures Reaches(cfg, ORDERLY, s, s') && s'.workers == s.workers[v := Claimed(1)]
    ensures Restart(0, 1, 2) in s'.hist.restarts
    ensures s'.tasks.Keys == {0, 1, 2} && s'.tasks[0] == s.tasks[0]
    ensures s'.tasks[1].op.Stop? && s'.tasks[2].status == Pending && IsJob(j, s'.tasks[2])
    ensures Races.StopUnderWay(s', j, v, 1, 0, Running)
  {
    hide Reaches;
    var s2 := Inserted(cfg, s, j);
    var e := Claim(v, {}, 1);
    s' := Next(cfg, s2, e);
    ReachesNext(cfg, ORDERLY, s2, e);
    ReachesTrans(cfg, ORDERLY, s, s2, s');
  }

  lemma Inserted(cfg: Config, s: State, j: Job) returns (s': State)
    requires Registered(j.prov) && 0 !in s.requests
    requires s.tasks.Keys == {0} && s.tasks[0].status == Running && IsJob(j, s.tasks[0]) && s.tasks[0].createdAt == 0
    ensures Reaches(cfg, ORDERLY, s, s') && s'.workers == s.workers && Restart(0, 1, 2) in s'.hist.restarts
    ensures s'.tasks.Keys == {0, 1, 2} && s'.tasks[0] == s.tasks[0]
    ensures s'.tasks[1] == NewRow(Stop, Some(0), j.cls, j.prov, BARE, 1)
    ensures s'.tasks[2].status == Pending && IsJob(j, s'.tasks[2]) && s'.tasks[2].createdAt == 2
  {
    hide Reaches;
    var e1, e2, e3 := RestartBegin(0, 0), RestartInsertStop(0, 1, 1), RestartInsertClone(0, 2, 2);
    var s1 := Next(cfg, s, e1);
    var s2 := Next(cfg, s1, e2);
    s' := Next(cfg, s2, e3);
    ReachesNext(cfg, ORDERLY, s, e1);
    ReachesNext(cfg, ORDERLY, s1, e2);
    ReachesNext(cfg, ORDERLY, s2, e3);
    ReachesTrans(cfg, ORDERLY, s, s1, s2);
    ReachesTrans(cfg, ORDERLY, s, s2, s');
  }

  /** The other worker claims the clone, the only row still waiting. */
  lemma ClaimClone(cfg: Config, s: State, j: Job, w: WorkerId) returns (s': State)
    requires Takes(cfg, j.prov) && w in s.workers && s.workers[w].Idle?
    requires s.tasks.Keys == {0, 1, 2} && s.tasks[0].status != Pending && s.tasks[1].status != Pending
    requires IsJob(j, s.tasks[0]) && s.tasks[1].op.Stop? && s.tasks[2].status == Pending && IsJob(j, s.tasks[2])
    ensures Reaches(cfg, ORDERLY, s, s')
    ensures s'.workers == s.workers[w := Claimed(2)] && s'.hist.restarts == s.hist.restarts
    ensures s'.tasks.Keys == {0, 1, 2} && s'.tasks[0] == s.tasks[0] && s'.tasks[1] == s.tasks[1]
    ensures s'.tasks[2].status == Processing && IsJob(j, s'.tasks[2]) && OnlyJobs(s'.tasks, j)
    ensures Count(Everyone, s'.tasks) <= if Occupies(s.tasks[0]) then 1 else 0
  {
    hide Reaches;
    var e := Claim(w, {}, 2);
    s' := Next(cfg, s, e);
    ReachesNext(cfg, ORDERLY, s, e);
    var most: set<TaskId> := if Occupies(s.tasks[0]) then {0} else {};
    assert Occupying(Everyone, s'.tasks) <= most;
    SubsetCard(Occupying(Everyone, s'.tasks), most);
  }

  /** Worker `v` is in the middle of the stop when worker `w` lets the clone in: with room for two
      before the stop has touched anything, so that original and clone hold their slots together;
      otherwise right after the original has been marked stopped.  Either way the stop row is
      still `processing`. */
  lemma CloneRuns(cfg: Config, s0: State, v: WorkerId, w: WorkerId) returns (s: State)
    requires Initial(s0) && TakesWork(cfg) && v in s0.workers && w in s0.workers && v != w
    ensures Reaches(cfg, ORDERLY, s0, s) && Restart(0, 1, 2) in s.hist.restarts
    ensures 0 in s.tasks && 1 in s.tasks && 2 in s.tasks
    ensures Occupies(s.tasks[2]) && s.tasks[1].op.Stop? && s.tasks[1].status == Processing
    ensures cfg.maxRunning >= 2 ==> Occupies(s.tasks[0])
  {
    hide Reaches, IsJob, OnlyJobs, Races.StopUnderWay;
    var p := SomeProvider(cfg);
    var j := Job(Fast, p, PLAIN);
    var s1 := First(cfg, s0, j, v);
    var s2 := Restarted(cfg, s1, j, v);
    ReachesTrans(cfg, ORDERLY, s0, s1, s2);
    var s3 := MidStop(cfg, s2, j, v, w);
    ReachesTrans(cfg, ORDERLY, s0, s2, s3);
    s := LetIn(cfg, s0, s3, j, w);
  }

  lemma MidStop(cfg: Config, s: State, j: Job, v: WorkerId, w: WorkerId) returns (s': State)
    requires v in s.workers && w in s.workers && v != w && s.workers[v] == Claimed(1) && s.workers[w].Idle?
    requires s.tasks.Keys == {0, 1, 2} && Races.StopUnderWay(s, j, v, 1, 0, Running)
    requires s.tasks[2].status == Pending && IsJob(j, s.tasks[2]) && Restart(0, 1, 2) in s.hist.restarts
    ensures Reaches(cfg, ORDERLY, s, s') && Restart(0, 1, 2) in s'.hist.restarts
    ensures s'.tasks.Keys == {0, 1, 2} && w in s'.workers && s'.workers[w].Idle?
    ensures IsJob(j, s'.tasks[0]) && s'.tasks[0].status == if cfg.maxRunning >= 2 then Running else Stopped
    ensures s'.tasks[1].op.Stop? && s'.tasks[1].status == Processing
    ensures s'.tasks[2].status == Pending && IsJob(j, s'.tasks[2])
  {
    hide Reaches, IsJob;
    s' := Races.WalkStop(cfg, ORDERLY, s, j, v, 1, 0, Running, if cfg.maxRunning >= 2 then 6 else 2);
    assert s'.tasks[2] == s.tasks[2];
  }

  lemma LetIn(cfg: Config, s0: State, s3: State, j: Job, w: WorkerId) returns (s: State)
    requires Reaches(cfg, ORDERLY, s0, s3) && Restart(0, 1, 2) in s3.hist.restarts
    requires Takes(cfg, j.prov) && RoomFor(cfg, j, Overshoot.Cap(cfg, Overshoot.Total))
    requires w in s3.workers && s3.workers[w].Idle?
    requires s3.tasks.Keys == {0, 1, 2} && IsJob(j, s3.tasks[0])
    requires s3.tasks[0].status == if cfg.maxRunning >= 2 then Running else Stopped
    requires s3.tasks[1].op.Stop? && s3.tasks[1].status == Processing
    requires s3.tasks[2].status == Pending && IsJob(j, s3.tasks[2])
    ensures Reaches(cfg, ORDERLY, s0, s) && Restart(0, 1, 2) in s.hist.restarts
    ensures 0 in s.tasks && 1 in s.tasks && 2 in s.tasks
    ensures Occupies(s.tasks[2]) && s.tasks[1].op.Stop? && s.tasks[1].status == Processing
    ensures cfg.maxRunning >= 2 ==> Occupies(s.tasks[0])
  {
    hide Reaches, RoomFor, OnlyJobs;
    var s4 := ClaimClone(cfg, s3, j, w);
    ReachesTrans(cfg, ORDERLY, s0, s3, s4);
    var s5 := WalkToCommit(cfg, ORDERLY, s4, j, Overshoot.Cap(cfg, Overshoot.Total), w);
    ReachesTrans(cfg, ORDERLY, s0, s4, s5);
    s := CommitNow(cfg, ORDERLY, s5, j, w);
    ReachesTrans(cfg, ORDERLY, s0, s5, s);
  }

  /** Restart exclusion holds exactly in the deployments with one worker, and in those whose workers
      claim no rows of a registered provider, where no clone ever gets in. */
  lemma ExclusionIff(cfg: Config, s0: State)
    requires Initial(s0) && |s0.workers| >= 1
    ensures (forall s, r :: Reaches(cfg, ORDERLY, s0, s) && r in s.hist.restarts && LaunchedStart(s, r.clone)
                            ==> Restarts.Excludes(s, r))
       <==> |s0.workers| == 1 || !TakesWork(cfg)
  {
    hide IsRun, Exec;
    if |s0.workers| == 1 || !TakesWork(cfg) {
      forall s, r | Reaches(cfg, ORDERLY, s0, s) && r in s.hist.restarts && LaunchedStart(s, r.clone)
        ensures Restarts.Excludes(s, r)
      {
        var es :| IsRun(cfg, ORDERLY, s0, es) && Exec(cfg, ORDERLY, s0, es) == s;
        ServedTakesWork(cfg, ORDERLY, s0, es, r.clone);
        Restarts.RestartExclusion(cfg, ORDERLY, s0, es, r);
      }
    } else {
      var v :| v in s0.workers;
      var w := Races.AnotherWorker(s0, v);
      var s := CloneRuns(cfg, s0, v, w);
      assert !Restarts.Excludes(s, Restart(0, 1, 2));
    }
  }
}
