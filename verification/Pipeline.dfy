/** `internal/pipeline/pipeline.go`: what a worker does with a row it has claimed, one database
    or provider call after the other.  All other processes may run between any two calls. */
module Pipeline {
  import opened Model
  import opened Table
  import opened Machine
  import opened Invariant
  import opened Safety
  import opened TaskRepo
  import GpuSlots
  import Scheduler

  /** How `Dispatch` ends: the row runs (or its stop is done), or the row is to be queued again
      (`ErrNotAdmitted`), or any other error. */
  datatype Verdict = Done | NotAdmitted | Failure

  class Pipeline {
    const repo: Repo
    ghost const w: WorkerId

    constructor (repo: Repo, ghost w: WorkerId)
      ensures this.repo == repo && this.w == w
    {
      this.repo := repo;
      this.w := w;
    }

    ghost predicate At(pc: Pc)
      reads repo
    {
      repo.Valid() && w in repo.sys.workers && repo.sys.workers[w] == pc
    }

    /** Where a call of one of this worker's methods leads: the worker is alive, has logged what it
        did, and has claimed nothing new. */
    ghost predicate Goes(s: State, es: seq<Event>)
      reads repo
    {
      && repo.Valid() && Inv(repo.sys) && es <= repo.trace && Onward(Worker(w), s, repo.sys)
      && repo.sys.hist.polls[w] == s.hist.polls[w]
    }

    /** Any record of the stop request was filed, or was to be. */
    ghost predicate Reported(since: nat, id: TaskId, target: TaskId, ok: bool)
      reads repo
    {
      exists i :: since <= i < |repo.sys.calls| && repo.sys.calls[i].Filed?
                  && repo.sys.calls[i].rec.request == id && repo.sys.calls[i].rec.target == target
                  && repo.sys.calls[i].rec.ok == ok
    }

    /** What the invariant says of the row this worker holds. */
    lemma Held(pc: Pc)
      requires At(pc) && Inv(repo.sys) && !pc.Idle?
      ensures pc.id in repo.tasks
      ensures pc.Refused? ==> repo.tasks[pc.id].status == Processing
      ensures pc.StopSucceed? ==> repo.tasks[pc.id].op.Stop?
    {
      assert HolderFits(repo.sys, pc);
    }

    /** The admission transaction: it reads the row again, applies policy and GPU check, and
        takes effect at its commit. */
    method Admission(id: TaskId) returns (verdict: Verdict)
      requires At(Begin(id))
      modifies repo
      ensures Goes(old(repo.sys), old(repo.trace))
      ensures At(match verdict case Done => Reload(id) case NotAdmitted => Refused(id) case Failure => Idle)
      ensures verdict.Done? ==> id in repo.tasks && repo.tasks[id].status == Admitted
    {
      hide Inv, Repo.Valid;
      verdict := Failure;
      var row := ReadAgain(id);
      if row.Some? {
        verdict := Checks(id, row.value);
        if verdict.Done? {
          verdict := CommitAdmitted(id);
        }
      }
    }

    /** The policy and, for docker, the GPU check. */
    method Checks(id: TaskId, row: Row) returns (verdict: Verdict)
      requires At(CountTotal(id)) && id in repo.tasks && SameColumns(row, repo.tasks[id])
      modifies repo
      ensures Goes(old(repo.sys), old(repo.trace))
      ensures At(match verdict case Done => Commit(id) case NotAdmitted => Refused(id) case Failure => Idle)
    {
      hide Inv, Repo.Valid, SameColumns;
      verdict := Policy(id, row);
      if verdict.Done? && row.prov.Docker? {
        verdict := GpuCheck(id, row);
      }
    }

    method ReadAgain(id: TaskId) returns (row: Option<Row>)
      requires At(Begin(id))
      modifies repo
      ensures Goes(old(repo.sys), old(repo.trace))
      ensures At(if row.Some? then CountTotal(id) else Idle)
      ensures row.Some? ==> id in repo.tasks && row == Some(repo.tasks[id])
    {
      hide Inv, IsRun, Exec, Initial, Reaches, SameColumns, Finished, Reaped, StopPc;
      repo.Others(Worker(w));
      var ok;
      ok, row := repo.Get(id);
      repo.WorkStep(w, Outcome(ok, true, ""));
      if !ok || row.None? || row.value.status != Processing {
        return None;
      }
    }

    /** The total and the fast count, each its own snapshot. */
    method TotalAndFast(id: TaskId, ghost row: Row) returns (ok: bool, total: int, fast: int)
      requires At(CountTotal(id)) && id in repo.tasks && SameColumns(row, repo.tasks[id])
      modifies repo
      ensures Goes(old(repo.sys), old(repo.trace))
      ensures id in repo.tasks && SameColumns(row, repo.tasks[id])
      ensures At(if ok then CountSlow(id, total, fast) else Idle)
    {
      hide Inv, Repo.Valid, SameColumns;
      fast := 0;
      ok, total := TakeTotal(id, row);
      if ok {
        ok, fast := TakeFast(id, total, row);
      }
    }

    method TakeTotal(id: TaskId, ghost row: Row) returns (ok: bool, total: int)
      requires At(CountTotal(id)) && id in repo.tasks && SameColumns(row, repo.tasks[id])
      modifies repo
      ensures Goes(old(repo.sys), old(repo.trace))
      ensures id in repo.tasks && SameColumns(row, repo.tasks[id])
      ensures At(if ok then CountFast(id, total) else Idle)
    {
      hide Inv, IsRun, Exec, Initial, Reaches, StopPc, Finished, Reaped, Count;
      repo.Others(Worker(w));
      ok, total := repo.CountOccupying(Everyone);
      repo.WorkStep(w, Outcome(ok, true, ""));
    }

    method TakeFast(id: TaskId, ghost total: int, ghost row: Row) returns (ok: bool, fast: int)
      requires At(CountFast(id, total)) && id in repo.tasks && SameColumns(row, repo.tasks[id])
      modifies repo
      ensures Goes(old(repo.sys), old(repo.trace))
      ensures id in repo.tasks && SameColumns(row, repo.tasks[id])
      ensures At(if ok then CountSlow(id, total, fast) else Idle)
    {
      hide Inv, IsRun, Exec, Initial, Reaches, StopPc, Finished, Reaped, Count;
      repo.Others(Worker(w));
      ok, fast := repo.CountOccupying(FastOnes);
      repo.WorkStep(w, Outcome(ok, true, ""));
    }

    /** Three counts, then `Admit`. */
    method Policy(id: TaskId, row: Row) returns (verdict: Verdict)
      requires At(CountTotal(id)) && id in repo.tasks && SameColumns(row, repo.tasks[id])
      modifies repo
      ensures Goes(old(repo.sys), old(repo.trace))
      ensures id in repo.tasks && SameColumns(row, repo.tasks[id])
      ensures At(match verdict
                 case Done => if row.prov.Docker? then CheckGpu(id) else Commit(id)
                 case NotAdmitted => Refused(id)
                 case Failure => Idle)
    {
      hide Inv, Repo.Valid, SameColumns;
      verdict := Failure;
      var ok, total, fast := TotalAndFast(id, row);
      if ok {
        verdict := SlowAndAdmit(id, row, total, fast);
      }
    }

    method SlowAndAdmit(id: TaskId, row: Row, total: int, fast: int) returns (verdict: Verdict)
      requires At(CountSlow(id, total, fast)) && id in repo.tasks && SameColumns(row, repo.tasks[id])
      modifies repo
      ensures Goes(old(repo.sys), old(repo.trace))
      ensures id in repo.tasks && SameColumns(row, repo.tasks[id])
      ensures At(match verdict
                 case Done => if row.prov.Docker? then CheckGpu(id) else Commit(id)
                 case NotAdmitted => Refused(id)
                 case Failure => Idle)
    {
      hide Inv, IsRun, Exec, Initial, Reaches, StopPc, Finished, Reaped, StopEnded, Scheduler.Admit, Count;
      repo.Others(Worker(w));
      var ok, slow := repo.CountOccupying(SlowOnes);
      repo.WorkStep(w, Outcome(ok, true, ""));
      if !ok {
        return Failure;
      }
      var admit := Scheduler.Admit(repo.cfg, row.op, row.cls, Scheduler.Counts(total, fast, slow));
      return if admit.Accept? then Done else NotAdmitted;
    }

    method CommitAdmitted(id: TaskId) returns (verdict: Verdict)
      requires At(Commit(id))
      modifies repo
      ensures Goes(old(repo.sys), old(repo.trace))
      ensures At(if verdict.Done? then Reload(id) else Idle) && !verdict.NotAdmitted?
      ensures verdict.Done? ==> id in repo.tasks && repo.tasks[id].status == Admitted
    {
      hide Inv, IsRun, Exec, Initial, Reaches, SameColumns, Finished, Reaped, StopPc;
      repo.Others(Worker(w));
      var ok, swapped := repo.TrySetStatus(id, Processing, Admitted);
      repo.WorkStep(w, Outcome(ok, true, ""));
      return if ok && swapped then Done else Failure;
    }

    /** The host's GPU slots, with the candidate added to the listed tasks. */
    method GpuCheck(id: TaskId, row: Row) returns (verdict: Verdict)
      requires At(CheckGpu(id)) && id in repo.tasks && SameColumns(row, repo.tasks[id])
      modifies repo
      ensures Goes(old(repo.sys), old(repo.trace))
      ensures id in repo.tasks && SameColumns(row, repo.tasks[id])
      ensures At(match verdict case Done => Commit(id) case NotAdmitted => Refused(id) case Failure => Idle)
    {
      hide Inv, IsRun, Exec, Initial, Reaches, StopPc, Finished, Reaped, Count, WantsGPU, GpuSlots.SlotLimit;
      repo.Others(Worker(w));
      var ok, occ := repo.ListDockerOccupyingGPUTasks();
      repo.WorkStep(w, Outcome(ok, true, ""));
      if !ok {
        return Failure;
      }
      GpuListingCounts(occ, repo.tasks);
      var fits := GpuSlots.CheckDockerGPUOccupancyWithCandidate(repo.cfg.gpuIDs, occ, Task(id, row));
      return if fits then Done else NotAdmitted;
    }

    /** The error path of the tail: the row is marked failed, whatever became of it meanwhile. */
    method MarkRowFailed(id: TaskId)
      requires At(MarkFailed(id))
      modifies repo
      ensures Goes(old(repo.sys), old(repo.trace)) && At(Idle)
      ensures Tried(repo.sys.calls, |old(repo.sys).calls|, UpdateStatus(id, Failed))
    {
      hide Inv, IsRun, Exec, Initial, Reaches, SameColumns, Finished, Reaped, StopPc;
      repo.Others(Worker(w));
      var ok := repo.UpdateStatus(id, Failed);
      assert repo.calls[|repo.calls| - 1] == Wrote(UpdateStatus(id, Failed), ok);
      repo.WorkStep(w, Outcome(ok, true, ""));
    }

    /** Load the admitted row and find its provider; without one the row fails. */
    method LoadAdmitted(id: TaskId) returns (row: Option<Row>)
      requires At(Reload(id))
      modifies repo
      ensures Goes(old(repo.sys), old(repo.trace))
      ensures At(if row.Some? then Precheck(id) else Idle)
      ensures row.Some? ==> Registered(row.value.prov)
      ensures row.None? ==>
        || Made(repo.sys.calls, |old(repo.sys).calls|, Fetched(id, false))
        || Tried(repo.sys.calls, |old(repo.sys).calls|, UpdateStatus(id, Failed))
    {
      hide Inv, Repo.Valid;
      row := ReadAdmitted(id);
      if row.Some? && !Registered(row.value.prov) {
        MarkRowFailed(id);
        row := None;
      }
    }

    method ReadAdmitted(id: TaskId) returns (row: Option<Row>)
      requires At(Reload(id))
      modifies repo
      ensures Goes(old(repo.sys), old(repo.trace))
      ensures At(if row.None? then Idle else if Registered(row.value.prov) then Precheck(id) else MarkFailed(id))
      ensures row.None? ==> Made(repo.sys.calls, |old(repo.sys).calls|, Fetched(id, false))
    {
      hide Inv, IsRun, Exec, Initial, Reaches, SameColumns, Finished, Reaped, StopPc;
      repo.Others(Worker(w));
      Held(Reload(id));
      var ok;
      ok, row := repo.Get(id);
      assert repo.calls[|repo.calls| - 1] == Fetched(id, ok);
      repo.WorkStep(w, Outcome(ok, true, ""));
    }

    method CheckResources(id: TaskId, row: Row) returns (ok: bool)
      requires At(Precheck(id)) && Registered(row.prov)
      modifies repo
      ensures Goes(old(repo.sys), old(repo.trace))
      ensures At(if ok then Launch(id) else Idle)
      ensures !ok ==> Tried(repo.sys.calls, |old(repo.sys).calls|, UpdateStatus(id, Failed))
    {
      hide Inv, Repo.Valid;
      ok := CallCheck(id, row);
      if !ok {
        MarkRowFailed(id);
      }
    }

    method CallCheck(id: TaskId, row: Row) returns (ok: bool)
      requires At(Precheck(id)) && Registered(row.prov)
      modifies repo
      ensures Goes(old(repo.sys), old(repo.trace))
      ensures At(if ok then Launch(id) else MarkFailed(id))
    {
      hide Inv, IsRun, Exec, Initial, Reaches, SameColumns, Finished, Reaped, StopPc;
      repo.Others(Worker(w));
      var verdict := repo.ResourceCheck(id, row);
      ok := verdict == Some(true);
      repo.WorkStep(w, Outcome(true, ok, ""));
    }

    /** Hand the row to its provider and record what it started; a failing `Run` fails the row. */
    method LaunchAndRecord(id: TaskId, row: Row) returns (verdict: Verdict, ghost ref: string)
      requires At(Launch(id)) && Registered(row.prov)
      modifies repo
      ensures Goes(old(repo.sys), old(repo.trace))
      ensures At(Idle) && !verdict.NotAdmitted?
      ensures verdict.Done? ==>
        && Made(repo.sys.calls, |old(repo.sys).calls|, Ran(id, Some(ref)))
        && id in repo.tasks && repo.tasks[id].status == Running && repo.tasks[id].ref == ref
        && repo.tasks[id].runningAt == Some(repo.now)
      ensures verdict.Failure? ==>
        || Tried(repo.sys.calls, |old(repo.sys).calls|, UpdateStatus(id, Failed))
        || Made(repo.sys.calls, |old(repo.sys).calls|, Wrote(UpdateRuntime(id, ref), false))
    {
      hide Inv, Repo.Valid;
      var started := CallRun(id, row);
      ref := "";
      if started.Ok? {
        ref := started.value;
        verdict := RecordLaunch(id, started.value);
      } else {
        MarkRowFailed(id);
        verdict := Failure;
      }
    }

    method CallRun(id: TaskId, row: Row) returns (ref: Result<string>)
      requires At(Launch(id)) && Registered(row.prov)
      modifies repo
      ensures Goes(old(repo.sys), old(repo.trace))
      ensures At(if ref.Ok? then Record(id, ref.value) else MarkFailed(id))
      ensures Made(repo.sys.calls, |old(repo.sys).calls|, Ran(id, if ref.Ok? then Some(ref.value) else None))
    {
      hide Inv, IsRun, Exec, Initial, Reaches, SameColumns, Finished, Reaped, StopPc;
      repo.Others(Worker(w));
      ref := repo.Run(id, row);
      assert repo.calls[|repo.calls| - 1].Ran?;
      repo.WorkStep(w, Outcome(true, ref.Ok?, if ref.Ok? then ref.value else ""));
    }

    method RecordLaunch(id: TaskId, ref: string) returns (verdict: Verdict)
      requires At(Record(id, ref))
      modifies repo
      ensures Goes(old(repo.sys), old(repo.trace))
      ensures At(Idle) && !verdict.NotAdmitted?
      ensures verdict.Done? ==>
        id in repo.tasks && repo.tasks[id].status == Running && repo.tasks[id].ref == ref
        && repo.tasks[id].runningAt == Some(repo.now)
      ensures verdict.Failure? ==> Made(repo.sys.calls, |old(repo.sys).calls|, Wrote(UpdateRuntime(id, ref), false))
    {
      hide Inv, IsRun, Exec, Initial, Reaches, SameColumns, Finished, Reaped, StopPc;
      repo.Others(Worker(w));
      Held(Record(id, ref));
      var ok := repo.UpdateRuntime(id, ref);
      assert repo.calls[|repo.calls| - 1] == Wrote(UpdateRuntime(id, ref), ok);
      repo.WorkStep(w, Outcome(ok, true, ""));
      return if ok then Done else Failure;
    }

    /** How an admitted row ends up not started: unreadable, marked failed, or started but not
        recorded. */
    ghost predicate StartGivenUp(since: nat, id: TaskId)
      reads repo
    {
      || Made(repo.sys.calls, since, Fetched(id, false))
      || Tried(repo.sys.calls, since, UpdateStatus(id, Failed))
      || exists ref :: Made(repo.sys.calls, since, Wrote(UpdateRuntime(id, ref), false))
    }

    /** The resource check, and the launch if it passes. */
    method CheckAndLaunch(id: TaskId, row: Row) returns (verdict: Verdict)
      requires At(Precheck(id)) && Registered(row.prov)
      modifies repo
      ensures Goes(old(repo.sys), old(repo.trace)) && At(Idle) && !verdict.NotAdmitted?
      ensures verdict.Done? ==>
        id in repo.tasks && repo.tasks[id].status == Running && repo.tasks[id].runningAt == Some(repo.now)
      ensures verdict.Failure? ==>
        || Tried(repo.sys.calls, |old(repo.sys).calls|, UpdateStatus(id, Failed))
        || exists ref :: Made(repo.sys.calls, |old(repo.sys).calls|, Wrote(UpdateRuntime(id, ref), false))
    {
      hide Inv, Repo.Valid;
      verdict := Failure;
      var ok := CheckResources(id, row);
      if ok {
        ghost var ref;
        verdict, ref := LaunchAndRecord(id, row);
      }
    }

    /** The unguarded tail of `executeStart`. */
    method Tail(id: TaskId) returns (verdict: Verdict)
      requires At(Reload(id))
      modifies repo
      ensures Goes(old(repo.sys), old(repo.trace)) && At(Idle) && !verdict.NotAdmitted?
      ensures verdict.Done? ==>
        id in repo.tasks && repo.tasks[id].status == Running && repo.tasks[id].runningAt == Some(repo.now)
      ensures verdict.Failure? ==> StartGivenUp(|old(repo.sys).calls|, id)
    {
      hide Inv, Repo.Valid;
      verdict := Failure;
      var row := LoadAdmitted(id);
      if row.Some? {
        verdict := CheckAndLaunch(id, row.value);
      }
    }

    /** `executeStart`.  A refused row is still this worker's and still `processing`; a started
        row is running when the call returns, even if others had finished it before. */
    method ExecuteStart(id: TaskId) returns (verdict: Verdict)
      requires At(Begin(id))
      modifies repo
      ensures Goes(old(repo.sys), old(repo.trace))
      ensures At(if verdict.NotAdmitted? then Refused(id) else Idle)
      ensures verdict.Done? ==>
        id in repo.tasks && repo.tasks[id].status == Running && repo.tasks[id].runningAt == Some(repo.now)
    {
      hide Inv, Repo.Valid, StartGivenUp;
      verdict := Admission(id);
      if verdict.Done? {
        verdict := Tail(id);
      }
    }

    /** Own row to `failed`, then the stop record. */
    method FailStop(id: TaskId, target: TaskId, before: Option<Status>)
      requires At(StopFail(id, target, before))
      modifies repo
      ensures Goes(old(repo.sys), old(repo.trace)) && At(Idle)
      ensures Tried(repo.sys.calls, |old(repo.sys).calls|, UpdateStatus(id, Failed))
      ensures Reported(|old(repo.sys).calls|, id, target, false)
    {
      hide Inv, Repo.Valid, StopEnded;
      FailOwnRow(id, target, before);
      WriteStopRec(id, StopRecord(id, target, before, false));
    }

    method FailOwnRow(id: TaskId, target: TaskId, before: Option<Status>)
      requires At(StopFail(id, target, before))
      modifies repo
      ensures Goes(old(repo.sys), old(repo.trace))
      ensures At(StopRec(id, StopRecord(id, target, before, false)))
      ensures Tried(repo.sys.calls, |old(repo.sys).calls|, UpdateStatus(id, Failed))
    {
      hide Inv, IsRun, Exec, Initial, Reaches, SameColumns, Finished, Reaped, StartPc;
      repo.Others(Worker(w));
      var ok := repo.UpdateStatus(id, Failed);
      assert repo.calls[|repo.calls| - 1] == Wrote(UpdateStatus(id, Failed), ok);
      repo.WorkStep(w, Outcome(ok, true, ""));
    }

    /** The record is filed, or the attempt fails; no row is touched. */
    method WriteStopRec(id: TaskId, rec: StopRecord)
      requires At(StopRec(id, rec))
      modifies repo
      ensures Goes(old(repo.sys), old(repo.trace)) && At(Idle)
      ensures rec in repo.records || Made(repo.sys.calls, |old(repo.sys).calls|, Filed(rec, false))
      ensures rec.request == id ==> Reported(|old(repo.sys).calls|, id, rec.target, rec.ok)
      ensures old(StopEnded(repo.sys, id)) ==>
        StopEnded(repo.sys, id) && repo.tasks[id].status == old(repo.tasks)[id].status
    {
      hide Inv, IsRun, Exec, Initial, Reaches, StartPc, SameColumns, Finished, Reaped;
      repo.Others(Worker(w));
      var ok := repo.CreateStop(rec);
      assert repo.calls[|repo.calls| - 1] == Filed(rec, ok);
      repo.WorkStep(w, Outcome(ok, true, ""));
    }

    /** Read the target, if there is one to read. */
    method ReadTarget(id: TaskId, own: Row) returns (target: Option<Row>)
      requires At(StopLoad(id)) && own.op.Stop? && own.target.Some?
      requires id in repo.tasks && SameColumns(own, repo.tasks[id])
      modifies repo
      ensures Goes(old(repo.sys), old(repo.trace))
      ensures At(if target.None? then StopFail(id, own.target.value, None)
                 else if && target.value.op == Start
                         && (target.value.status == Admitted || target.value.status == Running)
                         && target.value.prov == own.prov && (own.prov == Docker || own.prov == K8s)
                 then StopCall(id, own.target.value, target.value)
                 else StopFail(id, own.target.value, Some(target.value.status)))
    {
      hide Inv, IsRun, Exec, Initial, Reaches, Finished, Reaped, StopEnded, Stoppable;
      repo.Others(Worker(w));
      target := ReadTargetNow(id, own);
      if target.Some? {
        StoppableByColumn(own, target.value);
      }
    }

    lemma StoppableByColumn(own: Row, target: Row)
      ensures Stoppable(own, target) <==>
        && target.op == Start && (target.status == Admitted || target.status == Running)
        && target.prov == own.prov && (own.prov == Docker || own.prov == K8s)
    {
    }

    method ReadTargetNow(id: TaskId, own: Row) returns (target: Option<Row>)
      requires At(StopLoad(id)) && own.op.Stop? && own.target.Some?
      requires id in repo.tasks && SameColumns(own, repo.tasks[id])
      modifies repo
      ensures Goes(old(repo.sys), old(repo.trace))
      ensures At(if target.None? then StopFail(id, own.target.value, None)
                 else if Stoppable(own, target.value) then StopCall(id, own.target.value, target.value)
                 else StopFail(id, own.target.value, Some(target.value.status)))
    {
      hide Inv, IsRun, Exec, Initial, Reaches, StartPc, Finished, Reaped, StopEnded;
      var ok;
      ok, target := repo.Get(own.target.value);
      repo.WorkStep(w, Outcome(ok, true, ""));
    }

    /** Stop the target and write both rows and the record; a failing provider or database on the
        way makes the stop fail. */
    method StopAndRecord(id: TaskId, target: TaskId, row: Row) returns (ok: bool)
      requires At(StopCall(id, target, row)) && Registered(row.prov)
      modifies repo
      ensures Goes(old(repo.sys), old(repo.trace)) && At(Idle)
      ensures ok ==> StopEnded(repo.sys, id) && repo.tasks[id].status == Succeeded
      ensures ok ==> Reported(|old(repo.sys).calls|, id, target, true)
      ensures !ok ==> StopGivenUp(|old(repo.sys).calls|, id, target)
    {
      hide Inv, Repo.Valid, StopEnded;
      ok := StopTargetRow(id, target, row);
      if ok {
        ok := ReportSuccess(id, target, row);
      } else {
        FailStop(id, target, Some(row.status));
      }
    }

    method ReportSuccess(id: TaskId, target: TaskId, row: Row) returns (ok: bool)
      requires At(StopSucceed(id, target, row))
      modifies repo
      ensures Goes(old(repo.sys), old(repo.trace)) && At(Idle)
      ensures ok ==> StopEnded(repo.sys, id) && repo.tasks[id].status == Succeeded
      ensures ok ==> Reported(|old(repo.sys).calls|, id, target, true)
      ensures !ok ==> Made(repo.sys.calls, |old(repo.sys).calls|, Wrote(UpdateStatus(id, Succeeded), false))
    {
      hide Inv, Repo.Valid, StopEnded, Made;
      ok := SucceedOwnRow(id, target, row);
      if ok {
        WriteStopRec(id, StopRecord(id, target, Some(row.status), true));
      }
    }

    /** How a stop ends without success: failed and recorded as such, or at the failing write of
        its own success. */
    ghost predicate StopGivenUp(since: nat, id: TaskId, target: TaskId)
      reads repo
    {
      || (Tried(repo.sys.calls, since, UpdateStatus(id, Failed)) && Reported(since, id, target, false))
      || Made(repo.sys.calls, since, Wrote(UpdateStatus(id, Succeeded), false))
    }

    /** The provider's `Stop` on the row as it was read, then the target's status. */
    method StopTargetRow(id: TaskId, target: TaskId, row: Row) returns (ok: bool)
      requires At(StopCall(id, target, row)) && Registered(row.prov)
      modifies repo
      ensures Goes(old(repo.sys), old(repo.trace))
      ensures At(if ok then StopSucceed(id, target, row) else StopFail(id, target, Some(row.status)))
    {
      hide Inv, Repo.Valid;
      ok := CallStop(id, target, row);
      if ok {
        ok := MarkTargetStopped(id, target, row);
      }
    }

    method CallStop(id: TaskId, target: TaskId, row: Row) returns (ok: bool)
      requires At(StopCall(id, target, row)) && Registered(row.prov)
      modifies repo
      ensures Goes(old(repo.sys), old(repo.trace))
      ensures At(if ok then StopTarget(id, target, row) else StopFail(id, target, Some(row.status)))
    {
      hide Inv, IsRun, Exec, Initial, Reaches, StartPc, Finished, Reaped;
      repo.Others(Worker(w));
      ok := repo.StopWorkload(target, row);
      repo.WorkStep(w, Outcome(true, ok, ""));
    }

    method MarkTargetStopped(id: TaskId, target: TaskId, ghost row: Row) returns (ok: bool)
      requires At(StopTarget(id, target, row))
      modifies repo
      ensures Goes(old(repo.sys), old(repo.trace))
      ensures At(if ok then StopSucceed(id, target, row) else StopFail(id, target, Some(row.status)))
    {
      hide Inv, IsRun, Exec, Initial, Reaches, StartPc, Finished, Reaped;
      repo.Others(Worker(w));
      ok := repo.UpdateStatus(target, Stopped);
      repo.WorkStep(w, Outcome(ok, true, ""));
    }

    method SucceedOwnRow(id: TaskId, target: TaskId, row: Row) returns (ok: bool)
      requires At(StopSucceed(id, target, row))
      modifies repo
      ensures Goes(old(repo.sys), old(repo.trace))
      ensures At(if ok then StopRec(id, StopRecord(id, target, Some(row.status), true)) else Idle)
      ensures ok ==> StopEnded(repo.sys, id) && repo.tasks[id].status == Succeeded
      ensures !ok ==> Made(repo.sys.calls, |old(repo.sys).calls|, Wrote(UpdateStatus(id, Succeeded), false))
    {
      hide Inv, IsRun, Exec, Initial, Reaches, Finished, Reaped, StopEnded, HolderFits, Later;
      repo.Others(Worker(w));
      Held(StopSucceed(id, target, row));
      ok := SucceedNow(id, target, row);
    }

    method SucceedNow(id: TaskId, target: TaskId, ghost row: Row) returns (ok: bool)
      requires At(StopSucceed(id, target, row))
      requires Inv(repo.sys) && id in repo.tasks && repo.tasks[id].op.Stop?
      modifies repo
      ensures Goes(old(repo.sys), old(repo.trace))
      ensures At(if ok then StopRec(id, StopRecord(id, target, Some(row.status), true)) else Idle)
      ensures ok ==> StopEnded(repo.sys, id) && repo.tasks[id].status == Succeeded
      ensures !ok ==> Made(repo.sys.calls, |old(repo.sys).calls|, Wrote(UpdateStatus(id, Succeeded), false))
    {
      hide Inv, IsRun, Exec, Initial, Reaches, StartPc, Finished, Reaped, HolderFits, Later;
      ok := repo.UpdateStatus(id, Succeeded);
      assert repo.calls[|repo.calls| - 1] == Wrote(UpdateStatus(id, Succeeded), ok);
      repo.WorkStep(w, Outcome(ok, true, ""));
    }

    /** What the stop read of its target is on record, and unless it was a read of `admitted`
        while other workers run, the target is out of its slot for good. */
    lemma StopHolds(id: TaskId)
      requires repo.Valid() && StopEnded(repo.sys, id) && repo.tasks[id].status == Succeeded
      ensures id in repo.sys.hist.seen
      ensures var read := repo.sys.hist.seen[id];
              repo.tasks[id].target == Some(read.target)
              && (FinalRead(repo.sys, read.status) ==> Finished(repo.sys, read.target))
    {
      InitialInv(repo.start);
      InitialStops(repo.start);
      StopsRun(repo.cfg, ANYTHING, repo.start, repo.trace);
    }

    /** `executeStop`.  Success means more than a status: see `StopHolds`.  Every other exit past
        the first check fails the own row and files a record, unless the write of `succeeded`
        fails. */
    method ExecuteStop(id: TaskId, own: Row) returns (ok: bool)
      requires At(StopLoad(id)) && own.op.Stop?
      requires id in repo.tasks && SameColumns(own, repo.tasks[id])
      modifies repo
      ensures Goes(old(repo.sys), old(repo.trace)) && At(Idle)
      ensures ok ==> id in repo.tasks && repo.tasks[id].status == Succeeded && id in repo.sys.hist.seen
      ensures ok ==>
        var read := repo.sys.hist.seen[id];
        repo.tasks[id].target == Some(read.target)
        && (FinalRead(repo.sys, read.status) ==> Finished(repo.sys, read.target))
      ensures own.target.Some? ==>
        if ok then Reported(|old(repo.sys).calls|, id, own.target.value, true)
        else StopGivenUp(|old(repo.sys).calls|, id, own.target.value)
    {
      hide Inv, IsRun, Exec, Initial, Finished, FinalRead;
      if own.target.None? {
        repo.WorkStep(w, Outcome(true, true, ""));
        return false;
      }
      ok := StopTargetOf(id, own);
      if ok {
        StopHolds(id);
      }
    }

    method StopTargetOf(id: TaskId, own: Row) returns (ok: bool)
      requires At(StopLoad(id)) && own.op.Stop? && own.target.Some?
      requires id in repo.tasks && SameColumns(own, repo.tasks[id])
      modifies repo
      ensures Goes(old(repo.sys), old(repo.trace)) && At(Idle)
      ensures ok ==> StopEnded(repo.sys, id) && repo.tasks[id].status == Succeeded
      ensures if ok then Reported(|old(repo.sys).calls|, id, own.target.value, true)
              else StopGivenUp(|old(repo.sys).calls|, id, own.target.value)
    {
      hide Inv, Repo.Valid, SameColumns, StopEnded, Stoppable;
      ok := false;
      var target := ReadTarget(id, own);
      if target.Some? {
        StoppableByColumn(own, target.value);
      }
      if target.None? {
        FailStop(id, own.target.value, None);
      } else if !Stoppable(own, target.value) {
        FailStop(id, own.target.value, Some(target.value.status));
      } else {
        ok := StopAndRecord(id, own.target.value, target.value);
      }
    }

    /** `Dispatch`: only the policy's refusal leaves the row with this worker. */
    method Dispatch(id: TaskId) returns (verdict: Verdict)
      requires At(Claimed(id))
      modifies repo
      ensures Goes(old(repo.sys), old(repo.trace))
      ensures At(if verdict.NotAdmitted? then Refused(id) else Idle)
      ensures verdict.Done? ==>
        id in repo.tasks && (repo.tasks[id].status == Running || repo.tasks[id].status == Succeeded)
    {
      hide Inv, Repo.Valid, Finished, FinalRead;
      verdict := Failure;
      var row := ReadClaimed(id);
      if row.Some? {
        if row.value.op.Stop? {
          var ok := ExecuteStop(id, row.value);
          verdict := if ok then Done else Failure;
        } else {
          verdict := ExecuteStart(id);
        }
      }
    }

    method ReadClaimed(id: TaskId) returns (row: Option<Row>)
      requires At(Claimed(id))
      modifies repo
      ensures Goes(old(repo.sys), old(repo.trace))
      ensures At(if row.None? then Idle else if row.value.op.Stop? then StopLoad(id) else Begin(id))
      ensures row.Some? ==> id in repo.tasks && row == Some(repo.tasks[id])
    {
      hide Inv, IsRun, Exec, Initial, Finished, FinalRead, Reaches, StopPc;
      repo.Others(Worker(w));
      var ok;
      ok, row := repo.Get(id);
      repo.WorkStep(w, Outcome(ok, true, ""));
      if row.Some? && row.value.status != Processing {
        row := None;
      }
    }
  }
}
