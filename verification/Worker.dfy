/** `internal/worker/runner.go`: the claim, dispatch and reset loop, and the admitted sweeper. */
module Worker {
  import opened Model
  import opened Table
  import opened Machine
  import opened Invariant
  import opened Safety
  import opened TaskRepo
  import Pipeline

  class Worker {
    const repo: Repo
    const pl: Pipeline.Pipeline
    ghost const w: WorkerId

    constructor (repo: Repo, ghost w: WorkerId)
      ensures this.repo == repo && this.w == w && pl.repo == repo && pl.w == w
    {
      this.repo := repo;
      this.w := w;
      pl := new Pipeline.Pipeline(repo, w);
    }

    /** Between rounds the worker holds nothing. */
    ghost predicate Ready()
      reads repo
    {
      pl.repo == repo && pl.w == w && pl.At(Idle)
    }

    /** As `Goes`, for work that includes claims. */
    ghost predicate Lives(s: State, es: seq<Event>)
      reads repo
    {
      repo.Valid() && Inv(repo.sys) && es <= repo.trace && Onward(TaskRepo.Worker(w), s, repo.sys)
    }

    /** One poll of the queue.  It comes back empty-handed only if every waiting row is locked by
        another claim or the database failed. */
    method Claim() returns (res: ClaimResult, ghost locked: set<TaskId>)
      requires Ready()
      modifies repo
      ensures Lives(old(repo.sys), old(repo.trace))
      ensures repo.sys.hist.polls[w] == old(repo.sys).hist.polls[w] + 1
      ensures pl.At(if res.Got? then Claimed(res.id) else Idle)
      ensures res.Got? ==> res.id in repo.tasks && repo.tasks[res.id].status == Processing
      ensures res.NothingWaiting? ==>
        && Lockable(repo.sys, w, locked)
        && forall j :: j in repo.tasks && j !in locked ==> !Waiting(repo.cfg, repo.tasks, j)
      ensures res.ClaimError? ==> Made(repo.sys.calls, |old(repo.sys).calls|, Polled(w, None, false))
    {
      hide Inv, IsRun, Exec, Initial, Reaches, StartPc, StopPc, WorkHistory, WorkStatement, SameColumns, Finished;
      hide Reaped, NextRequests, NextRecon, NextSweeps, NextListed, NextReapers, NextMarks, WorkPc, WorkCalls, Legal;
      hide HolderFits, Rows, Holding, Watchers, Reapers, Requests, Counters;
      repo.Others(TaskRepo.Worker(w));
      var rows := repo.LockedByOthers(w);
      locked := rows;
      res := repo.ClaimNext(w, rows);
      assert repo.calls[|repo.calls| - 1].Polled?;
      if res.Got? {
        repo.Step(Machine.Claim(w, rows, res.id));
      } else {
        repo.Step(Pass(w, rows, res.NothingWaiting?));
      }
    }

    /** A refused row goes back to the queue, unless the write fails. */
    method Reset(id: TaskId) returns (ok: bool)
      requires pl.repo == repo && pl.w == w && pl.At(Refused(id))
      modifies repo
      ensures Ready() && pl.Goes(old(repo.sys), old(repo.trace))
      ensures Made(repo.sys.calls, |old(repo.sys).calls|, Wrote(Cas(id, Processing, Pending), ok))
      ensures ok ==> id in repo.tasks && repo.tasks[id].status == Pending
    {
      hide Inv, IsRun, Exec, Initial, Reaches, SameColumns, Finished, Reaped, HolderFits, Later;
      repo.Others(TaskRepo.Worker(w));
      pl.Held(Refused(id));
      ok := ResetNow(id);
    }

    method ResetNow(id: TaskId) returns (ok: bool)
      requires pl.repo == repo && pl.w == w && pl.At(Refused(id))
      requires Inv(repo.sys) && id in repo.tasks && repo.tasks[id].status == Processing
      modifies repo
      ensures Ready() && pl.Goes(old(repo.sys), old(repo.trace))
      ensures Made(repo.sys.calls, |old(repo.sys).calls|, Wrote(Cas(id, Processing, Pending), ok))
      ensures ok ==> id in repo.tasks && repo.tasks[id].status == Pending
    {
      hide Inv, IsRun, Exec, Initial, Reaches, StopPc, SameColumns, Finished, Reaped, HolderFits, Later;
      ok := repo.ResetToPending(id);
      assert repo.calls[|repo.calls| - 1] == Wrote(Cas(id, Processing, Pending), ok);
      repo.WorkStep(w, Outcome(ok, true, ""));
    }

    /** One round: poll the queue once and see the claimed row, if any, through. */
    method Turn()
      requires Ready()
      modifies repo
      ensures Ready() && Lives(old(repo.sys), old(repo.trace))
      ensures repo.sys.hist.polls[w] == old(repo.sys).hist.polls[w] + 1
    {
      hide Inv, Repo.Valid, Made, Waiting, Lockable, Oldest;
      ghost var locked;
      var res;
      res, locked := Claim();
      if res.Got? {
        var verdict := pl.Dispatch(res.id);
        if verdict.NotAdmitted? {
          var ok := Reset(res.id);
        }
      }
    }

    /** `Run`, for as many rounds as its context lives.  Every round polls the queue once, every
        state on the way is a state of the machine, and at the end of each round the worker holds
        no row. */
    method Run(rounds: nat)
      requires Ready()
      modifies repo
      ensures Ready() && Lives(old(repo.sys), old(repo.trace))
      ensures repo.sys.hist.polls[w] == old(repo.sys).hist.polls[w] + rounds
    {
      hide Inv, IsRun, Exec, Initial;
      repo.Sound();
      for i := 0 to rounds
        invariant Ready() && Lives(old(repo.sys), old(repo.trace))
        invariant repo.sys.hist.polls[w] == old(repo.sys).hist.polls[w] + i
      {
        Turn();
      }
    }
  }

  lemma StuckByColumn(t: Tasks, before: int)
    ensures StuckRows(t, before) == set id | id in t && t[id].status == Admitted && t[id].updatedAt < before
  {
  }

  /** One tick of `runAdmittedSweeper`: exactly the rows admitted before the cut fail, all of them
      start rows, `n` of them, and nothing else changes; no stop row is ever among them. */
  method SweepAdmitted(repo: Repo) returns (ok: bool, n: int)
    requires repo.Valid() && repo.cfg.admittedTimeout > 0
    modifies repo
    ensures repo.Valid() && old(repo.trace) <= repo.trace
    ensures repo.cfg.admittedTimeout <= 9223372036 ==>
      AdmittedTimeout(repo.cfg) == repo.cfg.admittedTimeout * 1_000_000_000
    ensures ok ==> repo.tasks.Keys == old(repo.tasks).Keys
    ensures ok ==>
      n == |set id | id in old(repo.tasks) && old(repo.tasks)[id].status == Admitted
                     && old(repo.tasks)[id].updatedAt < repo.now - AdmittedTimeout(repo.cfg)|
    ensures ok ==> forall id :: id in repo.tasks ==>
      var was, now, cut := old(repo.tasks)[id], repo.tasks[id], repo.now - AdmittedTimeout(repo.cfg);
      && SameColumns(was, now) && now.ref == was.ref && now.runningAt == was.runningAt
      && (was.status == Admitted && was.updatedAt < cut ==> now.status == Failed && was.op.Start?)
      && (!(was.status == Admitted && was.updatedAt < cut) ==> now == was)
    ensures !ok ==> repo.tasks == old(repo.tasks)
    ensures !ok ==>
      repo.calls == old(repo.calls) + [Wrote(RevertAdmittedStuck(repo.now - AdmittedTimeout(repo.cfg)), false)]
  {
    hide IsRun, Exec, Initial, Holding, Watchers, Reapers, Requests, Counters, StuckRows, WorkPc, StartPc, StopPc;
    hide WorkStatement, WorkCalls, WorkHistory, HolderFits, Legal;
    repo.Sound();
    var before := repo.now - AdmittedTimeout(repo.cfg);
    StuckByColumn(repo.tasks, before);
    ok, n := repo.RevertAdmittedStuck(before);
    repo.Step(if ok then AdmittedSweep(before) else NoEffect(Wrote(RevertAdmittedStuck(before), false)));
  }
}
