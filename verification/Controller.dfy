/** `internal/controller/http.go` and `restart.go`, and `Submit` of the pipeline: everything that
    inserts rows.  Ids are drawn by the caller; an insert under an id already taken fails. */
module Controller {
  import opened Model
  import opened Table
  import opened Machine
  import opened Invariant
  import opened Safety
  import opened TaskRepo
  import Text

  /** The request body; an empty provider or target is `None`. */
  datatype Request = Request(
    operation: string, cls: Class, prov: Option<Provider>, target: Option<TaskId>, work: Workload)

  function OpOf(operation: string): Option<Op> {
    if operation == "" || operation == "start" then Some(Start)
    else if operation == "stop" then Some(Stop)
    else None
  }

  predicate Validate(req: Request) {
    && OpOf(req.operation).Some?
    && req.prov.Some? && Registered(req.prov.value)
    && (OpOf(req.operation) == Some(Stop) ==> req.target.Some?)
  }

  /** The row a restart inserts: the workload of the original, back at the start. */
  predicate IsCloneOf(clone: Row, orig: Row) {
    && clone.op.Start? && clone.target.None? && clone.cls == orig.cls && clone.prov == orig.prov
    && clone.work == Filled(orig.work)
    && clone.status == Pending && clone.ref == "" && clone.runningAt.None?
  }

  /** The row that stops the original. */
  predicate IsStopOf(stop: Row, id: TaskId, orig: Row) {
    && stop.op.Stop? && stop.target == Some(id) && stop.cls == orig.cls && stop.prov == orig.prov
    && Registered(stop.prov) && stop.work == Workload("{}", "", "", "", "", 0)
  }

  /** What makes a request invalid. */
  predicate Invalid(req: Request) {
    || (req.operation != "" && req.operation != "start" && req.operation != "stop")
    || (req.prov != Some(Docker) && req.prov != Some(K8s))
    || (req.operation == "stop" && req.target == None)
  }

  /** What became of a restart. */
  datatype Restarted =
    | Rejected
    | StopOnly(stop: TaskId)
    | CloneOnly(clone: TaskId)
    | Both(stop: TaskId, clone: TaskId)

  class Handlers {
    const repo: Repo

    constructor (repo: Repo)
      ensures this.repo == repo
    {
      this.repo := repo;
    }

    /** An insert of the row was attempted and failed. */
    ghost predicate InsertFailed(since: nat, id: TaskId)
      reads repo
    {
      exists i :: since <= i < |repo.sys.calls| && repo.sys.calls[i].Wrote? && !repo.sys.calls[i].ok
                  && repo.sys.calls[i].stmt.Create? && repo.sys.calls[i].stmt.id == id
    }

    /** `Submit`: one pending row, or nothing, and that only if the stop names no target or the
        insert failed.  All its callers have checked the provider, or copy that of a row. */
    method Submit(id: TaskId, op: Op, target: Option<TaskId>, cls: Class, prov: Provider, work: Workload)
      returns (ok: bool)
      requires repo.Valid() && Registered(prov)
      modifies repo
      ensures repo.Carries(Nobody, old(repo.sys), old(repo.trace))
      ensures ok ==> (op.Stop? ==> target.Some?) && id !in old(repo.tasks)
      ensures !ok ==> (op.Stop? && target.None?) || InsertFailed(|old(repo.sys).calls|, id)
      ensures repo.tasks == if ok then old(repo.tasks)[id := NewRow(op, target, cls, prov, Filled(work), repo.now)]
                            else old(repo.tasks)
      ensures repo.sys.requests == old(repo.sys).requests
    {
      hide Inv, IsRun, Exec, Initial;
      if op.Stop? && target.None? {
        return false;
      }
      var row := NewRow(op, target, cls, prov, Filled(work), repo.now);
      ok := repo.Create(id, row);
      assert repo.calls[|repo.calls| - 1] == Wrote(Create(id, row), ok);
      repo.Step(if ok then Machine.Submit(id, op, target, cls, prov, work, repo.now)
                else NoEffect(Wrote(Create(id, row), false)));
    }

    /** `Enqueue`: a valid request whose insert succeeds waits in the queue with all its columns, the
        image trimmed and an empty business replaced; every other one leaves the table alone. */
    method Enqueue(id: TaskId, req: Request) returns (ok: bool)
      requires repo.Valid()
      modifies repo
      ensures repo.Carries(Nobody, old(repo.sys), old(repo.trace))
      ensures ok ==> !Invalid(req) && id !in old(repo.tasks)
      ensures !ok ==> Invalid(req) || InsertFailed(|old(repo.sys).calls|, id)
      ensures ok ==>
        && repo.tasks.Keys == old(repo.tasks).Keys + {id}
        && (forall j :: j in old(repo.tasks) ==> repo.tasks[j] == old(repo.tasks)[j])
        && Waiting(repo.cfg.(allowed := {}), repo.tasks, id) && RowShape(repo.tasks[id])
        && var r := repo.tasks[id];
           && (r.op.Stop? <==> req.operation == "stop") && r.target == req.target
           && r.prov == req.prov.value && r.cls == req.cls
           && r.work.image == Text.TrimSpace(req.work.image)
           && r.work.business == (if req.work.business == "" then "{}" else req.work.business)
           && r.work.cpu == req.work.cpu && r.work.memory == req.work.memory && r.work.gpu == req.work.gpu
           && r.work.maxRuntime == req.work.maxRuntime
           && r.status == Pending && r.ref == "" && r.runningAt == None
           && r.createdAt == repo.now && r.updatedAt == repo.now
      ensures !ok ==> repo.tasks == old(repo.tasks)
    {
      hide Inv, IsRun, Exec, Initial, Text.TrimSpace;
      if !Validate(req) {
        return false;
      }
      var op := OpOf(req.operation).value;
      var work := req.work.(image := Text.TrimSpace(req.work.image));
      ok := Submit(id, op, req.target, req.cls, req.prov.value, work);
    }

    /** Why no stop can be queued for the row. */
    ghost predicate Unstoppable(t: Tasks, id: TaskId) {
      id !in t || t[id].op.Stop? || !Registered(t[id].prov)
    }

    /** `EnqueueStopForTarget`: a stop row aimed at an existing start row, under its provider. */
    method EnqueueStopForTarget(id: TaskId, target: TaskId) returns (ok: bool)
      requires repo.Valid()
      modifies repo
      ensures repo.Carries(Nobody, old(repo.sys), old(repo.trace))
      ensures ok ==>
        && id in repo.tasks && repo.tasks[id].op.Stop? && repo.tasks[id].status == Pending
        && repo.tasks[id].target == Some(target) && target in repo.tasks
        && repo.tasks[target].op.Start? && repo.tasks[id].prov == repo.tasks[target].prov
        && repo.tasks[id].cls == repo.tasks[target].cls && Registered(repo.tasks[id].prov)
        && repo.tasks[id].work == Workload("{}", "", "", "", "", 0)
      ensures !ok ==>
        || Unstoppable(old(repo.tasks), target)
        || Made(repo.sys.calls, |old(repo.sys).calls|, Fetched(target, false))
        || InsertFailed(|old(repo.sys).calls|, id)
    {
      hide Inv, IsRun, Exec, Initial, Reaches, Finished, Reaped;
      var row := Read(Nobody, target);
      if row.None? || row.value.op.Stop? || !Registered(row.value.prov) {
        return false;
      }
      repo.Others(Nobody);
      ok := Submit(id, Stop, Some(target), row.value.cls, row.value.prov, BARE);
    }

    /** A read between other processes' steps. */
    method Read(ghost me: Actor, id: TaskId) returns (row: Option<Row>)
      requires repo.Valid()
      modifies repo
      ensures repo.Carries(me, old(repo.sys), old(repo.trace)) && SameLocals(me, old(repo.sys), repo.sys)
      ensures Inv(repo.sys)
      ensures forall j :: j in old(repo.tasks) ==> j in repo.tasks && SameColumns(old(repo.tasks)[j], repo.tasks[j])
      ensures row.Some? ==> id in repo.tasks && row == Some(repo.tasks[id])
      ensures row.None? ==>
        id !in repo.tasks || Made(repo.sys.calls, |old(repo.sys).calls|, Fetched(id, false))
    {
      hide Inv, IsRun, Exec, Initial, Reaches, Finished, Reaped;
      repo.Others(me);
      var ok;
      ok, row := repo.Get(id);
      assert repo.calls[|repo.calls| - 1] == Fetched(id, ok);
      repo.Step(NoEffect(Fetched(id, ok)));
    }

    /** The stop half of a restart: `EnqueueStopForTarget` on the row being restarted. */
    method InsertStop(ghost q: ProcId, stop: TaskId, id: TaskId) returns (ok: bool)
      requires repo.Valid() && q in repo.sys.requests && repo.sys.requests[q].RestartStop?
      requires repo.sys.requests[q].orig == id
      modifies repo
      ensures repo.Carries(Requester(q), old(repo.sys), old(repo.trace)) && id in repo.tasks
      ensures q in repo.sys.requests <==> ok
      ensures ok ==> repo.sys.requests[q] == RestartClone(id, stop, old(repo.sys).requests[q].row)
      ensures ok ==> stop in repo.tasks && IsStopOf(repo.tasks[stop], id, repo.tasks[id])
                     && repo.tasks[stop].createdAt == repo.now
      ensures !ok ==>
        || !Registered(repo.tasks[id].prov)
        || Made(repo.sys.calls, |old(repo.sys).calls|, Fetched(id, false))
        || InsertFailed(|old(repo.sys).calls|, stop)
      ensures id in old(repo.tasks) ==> SameColumns(old(repo.tasks)[id], repo.tasks[id])
    {
      hide Inv, IsRun, Exec, Initial, Reaches, Finished, Reaped, StopEnded, NextHistory;
      var row := Read(Requester(q), id);
      RequestFits(repo.sys, q);
      if row.None? || row.value.op.Stop? || !Registered(row.value.prov) {
        repo.Step(RequestDies(q));
        return false;
      }
      ok := InsertStopRow(q, stop, id, row.value);
    }

    method InsertStopRow(ghost q: ProcId, stop: TaskId, id: TaskId, row: Row) returns (ok: bool)
      requires repo.Valid() && q in repo.sys.requests && repo.sys.requests[q].RestartStop?
      requires repo.sys.requests[q].orig == id && id in repo.tasks && row == repo.tasks[id] && Registered(row.prov)
      modifies repo
      ensures repo.Carries(Requester(q), old(repo.sys), old(repo.trace))
      ensures id in repo.tasks && SameColumns(row, repo.tasks[id])
      ensures q in repo.sys.requests <==> ok
      ensures ok ==> repo.sys.requests[q] == RestartClone(id, stop, old(repo.sys).requests[q].row)
      ensures ok ==> stop in repo.tasks && IsStopOf(repo.tasks[stop], id, repo.tasks[id])
                     && repo.tasks[stop].createdAt == repo.now
      ensures !ok ==> InsertFailed(|old(repo.sys).calls|, stop)
    {
      hide Inv, IsRun, Exec, Initial, Reaches, Finished, Reaped, StopEnded, NextHistory, NextRecon, NextSweeps;
      hide NextListed, NextReapers, NextMarks, NextWorkers, WorkStatement, WorkPc, StartPc, StopPc, WorkCalls;
      hide WorkHistory, Legal, HolderFits, Rows, Holding, Watchers, Reapers, Requests, Counters;
      repo.Others(Requester(q));
      RequestFits(repo.sys, q);
      var inserted := NewRow(Stop, Some(id), row.cls, row.prov, BARE, repo.now);
      ok := repo.Create(stop, inserted);
      assert repo.calls[|repo.calls| - 1] == Wrote(Create(stop, inserted), ok);
      if ok {
        repo.Step(RestartInsertStop(q, stop, repo.now));
      } else {
        GiveUp(q, stop, inserted);
      }
    }

    /** The request ends with a failed insert. */
    ghost method GiveUp(q: ProcId, id: TaskId, row: Row)
      requires repo.Linked() && q in repo.sys.requests
      requires repo.tasks == repo.sys.tasks && repo.records == repo.sys.records && repo.now == repo.sys.now
      requires repo.calls == repo.sys.calls + [Wrote(Create(id, row), false)]
      modifies repo`sys, repo`trace
      ensures repo.Carries(Requester(q), old(repo.sys), old(repo.trace))
      ensures q !in repo.sys.requests && repo.sys.calls == old(repo.calls)
    {
      hide Inv, IsRun, Exec, Initial;
      repo.Step(NoEffect(Wrote(Create(id, row), false)));
      repo.Step(RequestDies(q));
    }

    lemma RequestFits(s: State, q: ProcId)
      requires Inv(s) && q in s.requests
      ensures s.requests[q].orig in s.tasks && s.tasks[s.requests[q].orig].op.Start?
      ensures SameColumns(s.requests[q].row, s.tasks[s.requests[q].orig])
    {
      assert SnapshotFits(s, s.requests[q].orig, s.requests[q].row);
    }

    /** The start half: the clone, from the row as it was first read. */
    method InsertClone(ghost q: ProcId, ghost stop: TaskId, clone: TaskId, id: TaskId, row: Row) returns (ok: bool)
      requires repo.Valid() && q in repo.sys.requests && repo.sys.requests[q] == RestartClone(id, stop, row)
      modifies repo
      ensures repo.Carries(Requester(q), old(repo.sys), old(repo.trace))
      ensures q !in repo.sys.requests && id in repo.tasks
      ensures ok ==> clone in repo.tasks && IsCloneOf(repo.tasks[clone], repo.tasks[id])
                     && Restart(id, stop, clone) in repo.sys.hist.restarts
                     && old(repo.now) <= repo.now == repo.tasks[clone].createdAt
      ensures !ok ==> InsertFailed(|old(repo.sys).calls|, clone)
      ensures forall j :: j in old(repo.tasks) ==> j in repo.tasks && SameColumns(old(repo.tasks)[j], repo.tasks[j])
    {
      hide Inv, IsRun, Exec, Initial, Reaches, Finished, Reaped, NextRecon, NextSweeps, NextListed, NextReapers;
      hide NextMarks, NextWorkers, WorkStatement, WorkPc, StartPc, StopPc, WorkCalls, WorkHistory, Legal, HolderFits;
      hide Rows, Holding, Watchers, Reapers, Requests, Counters, Later;
      repo.Others(Requester(q));
      RequestFits(repo.sys, q);
      var inserted := NewRow(Start, None, row.cls, row.prov, Filled(row.work), repo.now);
      ok := repo.Create(clone, inserted);
      assert repo.calls[|repo.calls| - 1] == Wrote(Create(clone, inserted), ok);
      if ok {
        repo.Step(RestartInsertClone(q, clone, repo.now));
      } else {
        GiveUp(q, clone, inserted);
      }
    }

    /** Restarting a row that was read in its slot. */
    method RestartOccupying(ghost q: ProcId, id: TaskId, row: Row, stop: TaskId, clone: TaskId) returns (res: Restarted)
      requires repo.Valid() && q in repo.sys.requests && repo.sys.requests[q] == RestartStop(id, row)
      requires id in repo.tasks
      modifies repo
      ensures repo.Carries(Requester(q), old(repo.sys), old(repo.trace))
      ensures q !in repo.sys.requests && !res.CloneOnly?
      ensures id in repo.tasks && SameColumns(old(repo.tasks)[id], repo.tasks[id])
      ensures res.Both? || res.StopOnly? ==>
        res.stop == stop && stop in repo.tasks && IsStopOf(repo.tasks[stop], id, repo.tasks[id])
      ensures res.Both? ==>
        && res.clone == clone && clone in repo.tasks && IsCloneOf(repo.tasks[clone], repo.tasks[id])
        && Restart(id, stop, clone) in repo.sys.hist.restarts
        && repo.tasks[stop].createdAt <= repo.tasks[clone].createdAt
      ensures res.StopOnly? ==> InsertFailed(|old(repo.sys).calls|, clone)
      ensures res.Rejected? ==>
        || !Registered(repo.tasks[id].prov)
        || Made(repo.sys.calls, |old(repo.sys).calls|, Fetched(id, false))
        || InsertFailed(|old(repo.sys).calls|, stop)
    {
      hide Inv, Repo.Valid, Later;
      var ok := InsertStop(q, stop, id);
      if !ok {
        return Rejected;
      }
      ok := InsertClone(q, stop, clone, id, row);
      return if ok then Both(stop, clone) else StopOnly(stop);
    }

    /** Restarting a row that was read finished. */
    method CloneFinished(ghost q: ProcId, id: TaskId, row: Row, clone: TaskId) returns (ok: bool)
      requires repo.Valid() && q !in repo.sys.requests
      requires id in repo.tasks && SameColumns(row, repo.tasks[id])
      modifies repo
      ensures repo.Carries(Requester(q), old(repo.sys), old(repo.trace)) && q !in repo.sys.requests
      ensures id in repo.tasks && SameColumns(row, repo.tasks[id])
      ensures ok ==> clone in repo.tasks && IsCloneOf(repo.tasks[clone], repo.tasks[id])
      ensures !ok ==> InsertFailed(|old(repo.sys).calls|, clone)
    {
      hide Inv, IsRun, Exec, Initial, Reaches, Finished, Reaped;
      repo.Others(Requester(q));
      ProvidersKnownRun(repo.cfg, ANYTHING, repo.start, repo.trace);
      ok := Submit(clone, Start, None, row.cls, row.prov, row.work);
    }

    /** `RestartStartWorkload`; `read` is the status it found.  A finished row is cloned; for a row
        in its slot a stop is queued first and the clone is stamped no earlier; queued rows and
        stop rows are rejected.  Anything less than that takes a failing call or an unknown
        provider. */
    method RestartStartWorkload(ghost q: ProcId, id: TaskId, stop: TaskId, clone: TaskId)
      returns (res: Restarted, read: Option<Status>)
      requires repo.Valid() && q !in repo.sys.requests
      modifies repo
      ensures repo.Carries(Requester(q), old(repo.sys), old(repo.trace)) && q !in repo.sys.requests
      ensures read.Some? ==> id in repo.tasks && repo.tasks[id].op.Start?
      ensures read.None? ==>
        && res.Rejected?
        && (|| id !in old(repo.tasks) || old(repo.tasks)[id].op.Stop?
            || Made(repo.sys.calls, |old(repo.sys).calls|, Fetched(id, false)))
      ensures read.Some? ==>
        match res
        case Both(st, cl) => InSlot(read.value) && RestartedAs(id, st, cl) && st == stop && cl == clone
        case StopOnly(st) =>
          && InSlot(read.value) && st == stop && stop in repo.tasks && IsStopOf(repo.tasks[stop], id, repo.tasks[id])
          && InsertFailed(|old(repo.sys).calls|, clone)
        case CloneOnly(cl) =>
          Terminal(read.value) && cl == clone && clone in repo.tasks && IsCloneOf(repo.tasks[clone], repo.tasks[id])
        case Rejected =>
          || read.value == Pending || read.value == Processing
          || (Terminal(read.value) && InsertFailed(|old(repo.sys).calls|, clone))
          || !Registered(repo.tasks[id].prov)
          || Made(repo.sys.calls, |old(repo.sys).calls|, Fetched(id, false))
          || InsertFailed(|old(repo.sys).calls|, stop)
    {
      hide Inv, Repo.Valid, Reaches, Finished, Reaped;
      var begun, row := ReadForRestart(q, id);
      if row.None? || row.value.op.Stop? {
        return Rejected, None;
      }
      read := Some(row.value.status);
      if row.value.status == Pending || row.value.status == Processing {
        res := Rejected;
      } else if begun {
        res := RestartOccupying(q, id, row.value, stop, clone);
      } else {
        var ok := CloneFinished(q, id, row.value, clone);
        res := if ok then CloneOnly(clone) else Rejected;
      }
    }

    ghost predicate RestartedAs(id: TaskId, stop: TaskId, clone: TaskId)
      reads repo
    {
      && id in repo.tasks && stop in repo.tasks && IsStopOf(repo.tasks[stop], id, repo.tasks[id])
      && clone in repo.tasks && IsCloneOf(repo.tasks[clone], repo.tasks[id])
      && Restart(id, stop, clone) in repo.sys.hist.restarts
      && repo.tasks[stop].createdAt <= repo.tasks[clone].createdAt
    }

    /** The first read.  On a start row in its slot a restart begins. */
    method ReadForRestart(ghost q: ProcId, id: TaskId) returns (begun: bool, row: Option<Row>)
      requires repo.Valid() && q !in repo.sys.requests
      modifies repo
      ensures repo.Carries(Requester(q), old(repo.sys), old(repo.trace))
      ensures Inv(repo.sys)
      ensures forall j :: j in old(repo.tasks) ==> j in repo.tasks && SameColumns(old(repo.tasks)[j], repo.tasks[j])
      ensures row.Some? ==> id in repo.tasks && row == Some(repo.tasks[id])
      ensures row.None? ==>
        id !in repo.tasks || Made(repo.sys.calls, |old(repo.sys).calls|, Fetched(id, false))
      ensures begun <==> row.Some? && Occupies(row.value)
      ensures if begun then q in repo.sys.requests && repo.sys.requests[q] == RestartStop(id, row.value)
              else q !in repo.sys.requests
    {
      hide Inv, IsRun, Exec, Initial, Reaches, Finished, Reaped;
      repo.Others(Requester(q));
      var ok;
      ok, row := repo.Get(id);
      assert repo.calls[|repo.calls| - 1] == Fetched(id, ok);
      begun := row.Some? && Occupies(row.value);
      repo.Step(if begun then RestartBegin(q, id) else NoEffect(Fetched(id, ok)));
    }
  }
}
