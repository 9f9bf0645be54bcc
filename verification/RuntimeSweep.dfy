/** `internal/worker/runtime_sweep.go`: one sweep over the listed running rows. */
module RuntimeSweep {
  import opened Model
  import opened Table
  import opened Machine
  import opened Invariant
  import opened Safety
  import opened TaskRepo
  import RuntimeLimit

  predicate Hit(cfg: Config, r: Row, at: int) {
    Overdue(cfg, r, at) && Registered(r.prov)
  }

  /** The listed rows to be failed, in listing order. */
  function Due(cfg: Config, listing: seq<Task>, at: int): seq<TaskId> {
    if listing == [] then []
    else
      var last := listing[|listing| - 1];
      Due(cfg, listing[..|listing| - 1], at) + if Hit(cfg, last.row, at) then [last.id] else []
  }

  /** Since when the row has run: its running stamp or, without one, its last update. */
  function RunsSince(r: Row): int {
    if r.runningAt.Some? then r.runningAt.value else r.updatedAt
  }

  /** The limit, in seconds, has been reached; one that does not fit 64 bits is judged by its wrapped
      product. */
  predicate Reached(limit: int, r: Row, at: int) {
    if RuntimeLimit.Fits(limit) then at - RunsSince(r) >= limit * 1_000_000_000
    else RuntimeLimit.SweeperSaysSo(limit, RunsSince(r), at)
  }

  /** The row's own positive limit counts, the default one if it has none, and no limit at all if it
      is negative. */
  predicate OverLimit(cfg: Config, r: Row, at: int) {
    || (r.work.maxRuntime > 0 && Reached(r.work.maxRuntime, r, at))
    || (r.work.maxRuntime == 0 && cfg.defaultMaxRuntime > 0 && Reached(cfg.defaultMaxRuntime, r, at))
  }

  /** Which rows the sweep goes after, by their columns. */
  lemma HitByColumn(cfg: Config, r: Row, at: int)
    ensures Hit(cfg, r, at) <==> (r.prov == Docker || r.prov == K8s) && OverLimit(cfg, r, at)
    ensures r.work.maxRuntime < 0 ==> !Hit(cfg, r, at)
  {
    var limit := if r.work.maxRuntime == 0 then cfg.defaultMaxRuntime else r.work.maxRuntime;
    if limit > 0 && RuntimeLimit.Fits(limit) {
      RuntimeLimit.FittingLimitIsExact(limit, RunsSince(r), at);
    }
  }

  /** `Due` is the listing filtered: a row is due exactly when it is over its limit under a known
      provider. */
  lemma {:induction false} DueExactly(cfg: Config, listing: seq<Task>, at: int, id: TaskId)
    ensures id in Due(cfg, listing, at)
       <==> exists i :: 0 <= i < |listing| && listing[i].id == id && Registered(listing[i].row.prov)
                        && OverLimit(cfg, listing[i].row, at)
    decreases |listing|
  {
    if listing == [] {
    } else {
      hide Hit, OverLimit;
      var n := |listing| - 1;
      var init := listing[..n];
      DueExactly(cfg, init, at, id);
      HitByColumn(cfg, listing[n].row, at);
      if i :| 0 <= i < |init| && init[i].id == id && Registered(init[i].row.prov) && OverLimit(cfg, init[i].row, at) {
        assert listing[i].id == id;
      }
      if i :| 0 <= i < |listing| && listing[i].id == id && Registered(listing[i].row.prov)
              && OverLimit(cfg, listing[i].row, at) {
        if i < n {
          assert init[i].id == id;
        }
      }
    }
  }

  /** The row whose reference a sweep has just cleared is detached, so failing it is final. */
  lemma FailingIsFinal(cfg: Config, s: State, p: ProcId)
    requires Inv(s) && p in s.sweeps && s.sweeps[p].cur.Some?
    ensures Finished(Next(cfg, s, SweepFail(p, true)), s.sweeps[p].cur.value)
  {
    var id := s.sweeps[p].cur.value;
    StepFlows(cfg, s, SweepFail(p, true));
    DetachedFlows(s, Next(cfg, s, SweepFail(p, true)), id);
    assert StatementOf(s, SweepFail(p, true)) == UpdateStatus(id, Failed);
  }

  /** The sweep did to the row what it does to an overdue one, down to its status: the row is out
      of its slot for good, or the write of `failed` failed. */
  ghost predicate Pursued(s: State, since: nat, id: TaskId, failed: bool) {
    && (exists ok :: Made(s.calls, since, AskedToStop(id, ok)))
    && Tried(s.calls, since, ClearRuntimeRef(id))
    && (if failed then Finished(s, id) else Made(s.calls, since, Wrote(UpdateStatus(id, Failed), false)))
  }

  lemma PursuedLater(s: State, s': State, since: nat, since': nat, id: TaskId, failed: bool)
    requires Pursued(s, since, id, failed) && s.calls <= s'.calls && since' <= since
    requires Finished(s, id) ==> Finished(s', id)
    ensures Pursued(s', since', id, failed)
  {
    hide Finished;
    var ok :| Made(s.calls, since, AskedToStop(id, ok));
    MadeBefore(s.calls, s'.calls, since, since', AskedToStop(id, ok));
  }

  /** All the rows gone after so far. */
  ghost predicate AllPursued(s: State, since: nat, hits: seq<TaskId>, failed: set<TaskId>) {
    forall id :: id in hits ==> Pursued(s, since, id, id in failed)
  }

  /** One round of the loop.  `Stop` works on the row as listed, and its outcome is ignored. */
  method Visit(repo: Repo, ghost p: ProcId, ghost left: Tasks, at: int, task: Task) returns (hit: bool, failed: bool)
    requires repo.Valid() && p in repo.sys.sweeps && repo.sys.sweeps[p] == Sweep(left, at, None)
    requires task.id in left && left[task.id] == task.row
    modifies repo
    ensures repo.Carries(Sweeper(p), old(repo.sys), old(repo.trace))
    ensures p in repo.sys.sweeps && repo.sys.sweeps[p] == Sweep(left - {task.id}, at, None)
    ensures hit == Hit(repo.cfg, task.row, at)
    ensures hit <==> Registered(task.row.prov) && OverLimit(repo.cfg, task.row, at)
    ensures hit ==> Pursued(repo.sys, |old(repo.sys).calls|, task.id, failed)
    ensures failed ==> hit && Finished(repo.sys, task.id)
  {
    hide Inv, IsRun, Exec, Initial, Reaches, Finished, Overdue, Made, OverLimit;
    HitByColumn(repo.cfg, task.row, at);
    hit, failed := Overdue(repo.cfg, task.row, at) && Registered(task.row.prov), false;
    if hit {
      failed := Pursue(repo, p, left, at, task);
    } else {
      repo.Step(SweepSkip(p, task.id));
    }
  }

  method Pursue(repo: Repo, ghost p: ProcId, ghost left: Tasks, ghost at: int, task: Task) returns (failed: bool)
    requires repo.Valid() && p in repo.sys.sweeps && repo.sys.sweeps[p] == Sweep(left, at, None)
    requires task.id in left && left[task.id] == task.row && Hit(repo.cfg, task.row, at)
    modifies repo
    ensures repo.Carries(Sweeper(p), old(repo.sys), old(repo.trace))
    ensures p in repo.sys.sweeps && repo.sys.sweeps[p] == Sweep(left - {task.id}, at, None)
    ensures Pursued(repo.sys, |old(repo.sys).calls|, task.id, failed)
  {
    hide Inv, Repo.Valid, Finished, Overdue;
    StopAndClear(repo, p, left, at, task);
    failed := Fail(repo, p, left - {task.id}, at, task.id);
  }

  /** `Stop`, then `ClearRuntimeRef` whatever `Stop` said. */
  method StopAndClear(repo: Repo, ghost p: ProcId, ghost left: Tasks, ghost at: int, task: Task)
    requires repo.Valid() && p in repo.sys.sweeps && repo.sys.sweeps[p] == Sweep(left, at, None)
    requires task.id in left && left[task.id] == task.row && Hit(repo.cfg, task.row, at)
    modifies repo
    ensures repo.Carries(Sweeper(p), old(repo.sys), old(repo.trace))
    ensures p in repo.sys.sweeps && repo.sys.sweeps[p] == Sweep(left - {task.id}, at, Some(task.id))
    ensures exists ok :: Made(repo.sys.calls, |old(repo.sys).calls|, AskedToStop(task.id, ok))
    ensures Tried(repo.sys.calls, |old(repo.sys).calls|, ClearRuntimeRef(task.id))
  {
    hide Inv, IsRun, Exec, Initial, Reaches, Finished, Reaped, SameColumns, Overdue;
    repo.Others(Sweeper(p));
    var stopped := repo.StopWorkload(task.id, task.row);
    var ok := repo.ClearRuntimeRef(task.id);
    assert repo.calls[|repo.calls| - 2] == AskedToStop(task.id, stopped);
    assert repo.calls[|repo.calls| - 1] == Wrote(ClearRuntimeRef(task.id), ok);
    repo.Step(SweepClear(p, task.id, stopped, ok));
  }

  method Fail(repo: Repo, ghost p: ProcId, ghost left: Tasks, ghost at: int, id: TaskId) returns (ok: bool)
    requires repo.Valid() && p in repo.sys.sweeps && repo.sys.sweeps[p] == Sweep(left, at, Some(id))
    modifies repo
    ensures repo.Carries(Sweeper(p), old(repo.sys), old(repo.trace))
    ensures p in repo.sys.sweeps && repo.sys.sweeps[p] == Sweep(left, at, None)
    ensures if ok then Finished(repo.sys, id)
            else Made(repo.sys.calls, |old(repo.sys).calls|, Wrote(UpdateStatus(id, Failed), false))
  {
    hide Inv, IsRun, Exec, Initial, Reaches, Finished, Reaped, SameColumns, NextRequests, NextRecon, NextListed;
    hide NextReapers, NextMarks, NextWorkers, WorkStatement, WorkPc, StartPc, StopPc, WorkCalls, WorkHistory, Legal;
    hide HolderFits, Rows, Holding, Watchers, Reapers, Requests, Counters;
    repo.Others(Sweeper(p));
    ok := repo.UpdateStatus(id, Failed);
    if ok {
      FailingIsFinal(repo.cfg, repo.sys, p);
    }
    assert repo.calls[|repo.calls| - 1] == Wrote(UpdateStatus(id, Failed), ok);
    repo.Step(SweepFail(p, ok));
  }

  /** The listed rows, as the sweep remembers them. */
  ghost function Snapshot(t: Tasks): Tasks {
    map id | id in t && SweepListed(t[id]) :: t[id]
  }

  method Scan(repo: Repo, ghost p: ProcId) returns (ok: bool, listing: seq<Task>, at: int)
    requires repo.Valid() && repo.cfg.runtimeSweep && p !in repo.sys.sweeps
    modifies repo
    ensures repo.Carries(Sweeper(p), old(repo.sys), old(repo.trace))
    ensures ok ==> IsListing(listing, SweepRows(repo.sys.tasks), repo.sys.tasks) && at == repo.sys.now
    ensures ok ==> p in repo.sys.sweeps && repo.sys.sweeps[p] == Sweep(Snapshot(repo.sys.tasks), at, None)
    ensures !ok ==>
      p !in repo.sys.sweeps && Made(repo.sys.calls, |old(repo.sys).calls|, Queried(RunningWithRef, false))
  {
    hide Inv, IsRun, Exec, Initial, Finished, Reaped, SameColumns, SweepListed, IsListing;
    repo.Others(Sweeper(p));
    ok, listing := repo.ListRunningStartWorkloadsWithRef();
    at := repo.now;
    assert repo.calls[|repo.calls| - 1] == Queried(RunningWithRef, ok);
    repo.Step(SweepList(p, ok));
  }

  /** The loop over the listing. */
  method Walk(repo: Repo, ghost p: ProcId, listing: seq<Task>, at: int, ghost snap: Tasks)
    returns (hits: seq<TaskId>, failed: set<TaskId>)
    requires repo.Valid() && p in repo.sys.sweeps && repo.sys.sweeps[p] == Sweep(snap, at, None)
    requires IsListing(listing, snap.Keys, snap)
    modifies repo
    ensures repo.Carries(Sweeper(p), old(repo.sys), old(repo.trace))
    ensures p in repo.sys.sweeps && repo.sys.sweeps[p] == Sweep(map[], at, None)
    ensures hits == Due(repo.cfg, listing, at)
    ensures (forall id :: id in failed ==> id in hits) && AllPursued(repo.sys, |old(repo.sys).calls|, hits, failed)
  {
    hide Inv, IsRun, Exec, Initial, Reaches, Finished, Hit, IsListing, Pursued;
    hits, failed := [], {};
    ghost var left := snap;
    var i := 0;
    while i < |listing|
      invariant i <= |listing| && repo.Carries(Sweeper(p), old(repo.sys), old(repo.trace))
      invariant p in repo.sys.sweeps && repo.sys.sweeps[p] == Sweep(left, at, None)
      invariant IsListing(listing[i..], left.Keys, left)
      invariant forall id :: id in hits ==> id !in left
      invariant hits == Due(repo.cfg, listing[..i], at)
      invariant forall id :: id in failed ==> id in hits
      invariant AllPursued(repo.sys, |old(repo.sys).calls|, hits, failed)
    {
      ListingRest(listing[i..], left);
      assert listing[i..][1..] == listing[i + 1..] && listing[..i + 1][..i] == listing[..i];
      var hit, done := Round(repo, p, left, at, listing[i], |old(repo.sys).calls|, hits, failed);
      left := left - {listing[i].id};
      if hit {
        hits := hits + [listing[i].id];
        failed := if done then failed + {listing[i].id} else failed;
      }
      i := i + 1;
    }
    ListingRest(listing[i..], left);
    assert listing[..i] == listing;
  }

  /** A visit, seen from the loop: the rows gone after before stay as they are. */
  method Round(repo: Repo, ghost p: ProcId, ghost left: Tasks, at: int, task: Task,
               ghost since: nat, ghost hits: seq<TaskId>, ghost failed: set<TaskId>)
    returns (hit: bool, done: bool)
    requires repo.Valid() && p in repo.sys.sweeps && repo.sys.sweeps[p] == Sweep(left, at, None)
    requires task.id in left && left[task.id] == task.row && task.id !in hits
    requires (forall id :: id in failed ==> id in hits) && AllPursued(repo.sys, since, hits, failed)
    requires since <= |repo.sys.calls|
    modifies repo
    ensures repo.Carries(Sweeper(p), old(repo.sys), old(repo.trace))
    ensures p in repo.sys.sweeps && repo.sys.sweeps[p] == Sweep(left - {task.id}, at, None)
    ensures hit == Hit(repo.cfg, task.row, at)
    ensures AllPursued(repo.sys, since, if hit then hits + [task.id] else hits,
                       if done then failed + {task.id} else failed)
    ensures done ==> hit
  {
    hide Inv, IsRun, Exec, Initial, Reaches, Finished, Hit, Pursued;
    ghost var was, steps := repo.sys, repo.trace;
    hit, done := Visit(repo, p, left, at, task);
    repo.Since(was, steps);
    forall id | id in hits ensures Pursued(repo.sys, since, id, id in failed) {
      PursuedLater(was, repo.sys, since, since, id, id in failed);
    }
    if hit {
      PursuedLater(repo.sys, repo.sys, |was.calls|, since, task.id, done);
    }
  }

  method End(repo: Repo, ghost p: ProcId)
    requires repo.Valid() && p in repo.sys.sweeps
    requires repo.sys.sweeps[p].snap == map[] && repo.sys.sweeps[p].cur.None?
    modifies repo
    ensures repo.Carries(Sweeper(p), old(repo.sys), old(repo.trace)) && p !in repo.sys.sweeps
    ensures Later(old(repo.sys), repo.sys)
  {
    hide Inv, IsRun, Exec, Initial, Reaches, Finished;
    ghost var was, steps := repo.sys, repo.trace;
    repo.Step(SweepEnd(p));
    repo.Since(was, steps);
  }

  /** Which rows of the table a sweep of its listing goes after. */
  lemma HitsByColumn(cfg: Config, listing: seq<Task>, t: Tasks, at: int)
    requires IsListing(listing, SweepRows(t), t)
    ensures forall id :: id in Due(cfg, listing, at) <==>
      && id in t && t[id].op == Start && t[id].status == Running && NotBlank(t[id].ref)
      && Registered(t[id].prov) && OverLimit(cfg, t[id], at)
  {
    hide OverLimit, SweepListed, NotBlank, Due;
    RowsByColumn(t);
    forall id
      ensures id in Due(cfg, listing, at) <==> id in SweepRows(t) && Registered(t[id].prov) && OverLimit(cfg, t[id], at)
    {
      DueExactly(cfg, listing, at, id);
    }
  }

  /** `sweepRuntimeTimeouts`, whose loop is started only if the sweeper is switched on.  It lists the
      table as it stands in a state `seen` on the way, and goes after exactly the listed rows that
      are overdue under a known provider, in listing order: each is stopped and cleared, and at the
      end it is out of its slot for good unless the write of `failed` failed.  It comes back with
      nothing only if the listing failed. */
  method SweepRuntimeTimeouts(repo: Repo, ghost p: ProcId)
    returns (ghost seen: State, ok: bool, listing: seq<Task>, at: int, hits: seq<TaskId>, failed: set<TaskId>)
    requires repo.Valid() && repo.cfg.runtimeSweep && p !in repo.sys.sweeps
    modifies repo
    ensures repo.Carries(Sweeper(p), old(repo.sys), old(repo.trace)) && p !in repo.sys.sweeps
    ensures repo.Passed(seen, |old(repo.trace)|)
    ensures ok ==> IsListing(listing, SweepRows(seen.tasks), seen.tasks) && at == seen.now
    ensures ok ==> forall id :: id in hits <==>
      && id in seen.tasks && seen.tasks[id].op == Start && seen.tasks[id].status == Running
      && NotBlank(seen.tasks[id].ref) && Registered(seen.tasks[id].prov) && OverLimit(repo.cfg, seen.tasks[id], at)
    ensures !ok ==>
      listing == [] && Made(repo.sys.calls, |old(repo.sys).calls|, Queried(RunningWithRef, false))
    ensures hits == Due(repo.cfg, listing, at)
    ensures AllPursued(repo.sys, |old(repo.sys).calls|, hits, failed)
  {
    hide Inv, IsRun, Exec, Initial, Reaches, Finished, Hit, IsListing, SweepListed, Pursued, Made, Repo.Passed;
    ok, listing, at := Scan(repo, p);
    seen, hits, failed := repo.sys, [], {};
    ghost var steps := repo.trace;
    if !ok {
      listing := [];
      repo.HasPassed(seen, steps, |old(repo.trace)|);
      return;
    }
    ghost var snap := Snapshot(repo.tasks);
    ListingOfSnapshot(listing, SweepRows(repo.tasks), repo.tasks, snap);
    hits, failed := Walk(repo, p, listing, at, snap);
    HitsByColumn(repo.cfg, listing, seen.tasks, at);
    ghost var walked := repo.sys;
    End(repo, p);
    repo.HasPassed(seen, steps, |old(repo.trace)|);
    forall id | id in hits ensures Pursued(repo.sys, |old(repo.sys).calls|, id, id in failed) {
      PursuedLater(walked, repo.sys, |seen.calls|, |old(repo.sys).calls|, id, id in failed);
    }
  }
}
