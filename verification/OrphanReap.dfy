/** `internal/reconciler/reconciler.go`: reaping containers that outlive their rows.  The runner
    remembers which rows have a reaper in flight; reapers of the same runner and all other
    processes run between any two calls. */
module OrphanReap {
  import opened Model
  import opened Table
  import opened Machine
  import opened Providers
  import opened Invariant
  import opened Safety
  import opened TaskRepo

  /** What a reaper saw: the row as it was read, and its container. */
  datatype Sight = Sight(row: Row, ins: Inspect)

  predicate Up(sight: Sight) {
    IsUp(sight.row, sight.ins)
  }

  predicate Over(sight: Sight) {
    EndedWell(sight.row, sight.ins) || EndedBadly(sight.row, sight.ins)
  }

  lemma ReaperRow(s: State, p: ProcId, id: TaskId)
    requires Inv(s) && (p, id) in s.reapers
    ensures Finished(s, id) && id in s.tasks && s.tasks[id].prov.Docker? && (p, id) in s.marks
  {
  }

  /** Clearing the reference of a finished row leaves nothing to reap. */
  lemma WipingReaps(cfg: Config, s: State, p: ProcId, id: TaskId)
    requires Inv(s) && (p, id) in s.reapers && s.reapers[(p, id)].Wipe?
    ensures Reaped(Next(cfg, s, Reap(p, id, PhaseUnknown, false, true)), id)
  {
    var e := Reap(p, id, PhaseUnknown, false, true);
    ReaperRow(s, p, id);
    FinishedStep(cfg, s, e, id);
    assert StatementOf(s, e) == ClearRuntimeRef(id);
  }

  class Runner {
    const repo: Repo
    const p: ProcId
    var orphanInFlight: set<TaskId>

    constructor (repo: Repo, p: ProcId)
      requires repo.Valid() && forall id :: (p, id) !in repo.sys.marks
      ensures Valid() && this.repo == repo && this.p == p && orphanInFlight == {}
    {
      this.repo := repo;
      this.p := p;
      orphanInFlight := {};
    }

    /** The map of reapers in flight is the machine's. */
    ghost predicate Valid()
      reads this, repo
    {
      repo.Valid() && forall id :: id in orphanInFlight <==> (p, id) in repo.sys.marks
    }

    ghost predicate Carries(me: Actor, s: State, es: seq<Event>)
      reads this, repo
    {
      Valid() && repo.Carries(me, s, es)
    }

    /** Other processes and the other goroutines of this one run; a goroutine's own mark and its
        own reaper stay. */
    method Others(ghost me: Actor)
      requires Valid()
      modifies this`orphanInFlight, repo
      ensures Valid() && old(repo.trace) <= repo.trace && SameLocals(me, old(repo.sys), repo.sys)
      ensures Inv(repo.sys) && Later(old(repo.sys), repo.sys)
    {
      hide Inv, Later, IsRun, Exec, Initial;
      repo.Sound();
      ReachesSelf(repo.cfg, ANYTHING, repo.sys);
      ReachesLater(repo.cfg, ANYTHING, repo.sys, repo.sys);
    }

    /** `LoadOrStore` and, if the mark is new, the goroutine. */
    method Spawn(id: TaskId) returns (started: bool)
      requires Valid() && p in repo.sys.listed && id in repo.sys.listed[p]
      modifies this`orphanInFlight, repo
      ensures Carries(Lister(p), old(repo.sys), old(repo.trace))
      ensures started <==> id !in old(orphanInFlight)
      ensures orphanInFlight == old(orphanInFlight) + {id}
      ensures repo.sys == Next(repo.cfg, old(repo.sys), OrphanSpawn(p, id))
      ensures started ==> (p, id) !in old(repo.sys).reapers
      ensures started ==> (p, id) in repo.sys.reapers && repo.sys.reapers[(p, id)].Probe?
    {
      hide IsRun, Exec, Initial, Reaches, Rows, Holding, Watchers, Requests, Counters;
      repo.Sound();
      started := id !in orphanInFlight;
      orphanInFlight := orphanInFlight + {id};
      repo.Step(OrphanSpawn(p, id));
    }

    /** One look at the row and its container. */
    method Observe(id: TaskId, ghost now: Reaper) returns (phase: Option<Phase>, ghost sight: Sight)
      requires Valid() && (p, id) in repo.sys.reapers && repo.sys.reapers[(p, id)] == now && (now.Probe? || now.Watch?)
      modifies this`orphanInFlight, repo
      ensures Carries(Reaping(p, id), old(repo.sys), old(repo.trace)) && id in orphanInFlight
      ensures (if (p, id) in repo.sys.reapers then Some(repo.sys.reapers[(p, id)]) else None)
           == if phase.None? then None else ReapNext(repo.cfg, now, true, phase.value)
      ensures old(Reaped(repo.sys, id)) ==> Reaped(repo.sys, id) && (phase.None? || phase == Some(PhaseUnknown))
      ensures phase.Some? ==>
        phase.value == Shows(sight.row, sight.ins) && id in repo.tasks && sight.row == repo.tasks[id]
      ensures if phase.Some? then Made(repo.sys.calls, |old(repo.sys).calls|, Looked(id, phase.value))
              else Made(repo.sys.calls, |old(repo.sys).calls|, Fetched(id, false))
    {
      hide Inv, IsRun, Exec, Initial, Reaches, Finished, SameColumns, ReapNext;
      Others(Reaping(p, id));
      ReaperRow(repo.sys, p, id);
      phase, sight := Look(id, now);
    }

    method Look(id: TaskId, ghost now: Reaper) returns (phase: Option<Phase>, ghost sight: Sight)
      requires Valid() && (p, id) in repo.sys.reapers && repo.sys.reapers[(p, id)] == now && (now.Probe? || now.Watch?)
      requires Inv(repo.sys) && id in repo.tasks && repo.tasks[id].prov.Docker?
      modifies this`orphanInFlight, repo
      ensures Carries(Reaping(p, id), old(repo.sys), old(repo.trace)) && orphanInFlight == old(orphanInFlight)
      ensures (if (p, id) in repo.sys.reapers then Some(repo.sys.reapers[(p, id)]) else None)
           == if phase.None? then None else ReapNext(repo.cfg, now, true, phase.value)
      ensures Reaped(old(repo.sys), id) ==> Reaped(repo.sys, id) && (phase.None? || phase == Some(PhaseUnknown))
      ensures phase.Some? ==>
        phase.value == Shows(sight.row, sight.ins) && id in repo.tasks && sight.row == repo.tasks[id]
      ensures if phase.Some? then Made(repo.sys.calls, |old(repo.sys).calls|, Looked(id, phase.value))
              else Made(repo.sys.calls, |old(repo.sys).calls|, Fetched(id, false))
    {
      hide Inv, IsRun, Exec, Initial, Reaches, Finished, NextRequests, NextRecon, NextSweeps, NextListed;
      hide NextWorkers, WorkStatement, WorkPc, StartPc, StopPc, WorkCalls, WorkHistory, Legal, HolderFits, Rows;
      hide Holding, Watchers, Reapers, Requests, Counters;
      var ok, row := repo.Get(id);
      assert repo.calls[|repo.calls| - 1] == Fetched(id, ok);
      phase, sight := None, Sight(repo.tasks[id], NoState);
      if ok {
        var seen;
        ghost var ins;
        seen, ins := repo.Status(id, row.value);
        assert repo.calls[|repo.calls| - 1] == Looked(id, seen);
        phase, sight := Some(seen), Sight(row.value, ins);
      }
      ghost var e := Reap(p, id, if phase.Some? then phase.value else PhaseUnknown, false, phase.Some?);
      if Reaped(repo.sys, id) {
        ReapedStep(repo.cfg, repo.sys, e, id);
      }
      repo.Step(e);
    }

    /** The last resort: stop the container, whatever `Stop` returns. */
    method StopContainer(id: TaskId) returns (called: bool)
      requires Valid() && (p, id) in repo.sys.reapers && repo.sys.reapers[(p, id)].Halt?
      modifies this`orphanInFlight, repo
      ensures Carries(Reaping(p, id), old(repo.sys), old(repo.trace)) && id in orphanInFlight
      ensures called <==> (p, id) in repo.sys.reapers
      ensures called ==> repo.sys.reapers[(p, id)].Wipe?
      ensures if called then exists ok :: Made(repo.sys.calls, |old(repo.sys).calls|, AskedToStop(id, ok))
              else Made(repo.sys.calls, |old(repo.sys).calls|, Fetched(id, false))
    {
      hide Inv, IsRun, Exec, Initial, Reaches, Finished;
      Others(Reaping(p, id));
      ReaperRow(repo.sys, p, id);
      called := StopNow(id);
    }

    method StopNow(id: TaskId) returns (called: bool)
      requires Valid() && (p, id) in repo.sys.reapers && repo.sys.reapers[(p, id)].Halt?
      requires Inv(repo.sys) && id in repo.tasks && repo.tasks[id].prov.Docker?
      modifies this`orphanInFlight, repo
      ensures Carries(Reaping(p, id), old(repo.sys), old(repo.trace)) && orphanInFlight == old(orphanInFlight)
      ensures called <==> (p, id) in repo.sys.reapers
      ensures called ==> repo.sys.reapers[(p, id)].Wipe?
      ensures if called then exists ok :: Made(repo.sys.calls, |old(repo.sys).calls|, AskedToStop(id, ok))
              else Made(repo.sys.calls, |old(repo.sys).calls|, Fetched(id, false))
    {
      hide Inv, IsRun, Exec, Initial, Reaches, Finished, Reaped, SameColumns, NextRequests, NextRecon, NextSweeps;
      hide NextListed, NextWorkers, WorkStatement, WorkPc, StartPc, StopPc, WorkCalls, WorkHistory, Legal;
      hide HolderFits, Rows, Holding, Watchers, Reapers, Requests, Counters;
      var row;
      called, row := repo.Get(id);
      assert repo.calls[|repo.calls| - 1] == Fetched(id, called);
      var stopped := false;
      if called {
        stopped := repo.StopWorkload(id, row.value);
        assert repo.calls[|repo.calls| - 1] == AskedToStop(id, stopped);
      }
      repo.Step(Reap(p, id, PhaseUnknown, stopped, called));
    }

    /** `ClearRuntimeRef`, the end of a reaper that got this far. */
    method Wipe(id: TaskId) returns (ok: bool)
      requires Valid() && (p, id) in repo.sys.reapers && repo.sys.reapers[(p, id)].Wipe?
      modifies this`orphanInFlight, repo
      ensures Carries(Reaping(p, id), old(repo.sys), old(repo.trace)) && (p, id) !in repo.sys.reapers
      ensures id in orphanInFlight
      ensures Made(repo.sys.calls, |old(repo.sys).calls|, Wrote(ClearRuntimeRef(id), ok))
      ensures ok ==> Reaped(repo.sys, id)
    {
      hide Inv, IsRun, Exec, Initial, Reaches, Finished, Reaped;
      Others(Reaping(p, id));
      ReaperRow(repo.sys, p, id);
      ok := WipeNow(id);
    }

    method WipeNow(id: TaskId) returns (ok: bool)
      requires Valid() && (p, id) in repo.sys.reapers && repo.sys.reapers[(p, id)].Wipe?
      requires Inv(repo.sys) && id in repo.tasks
      modifies this`orphanInFlight, repo
      ensures Carries(Reaping(p, id), old(repo.sys), old(repo.trace)) && (p, id) !in repo.sys.reapers
      ensures orphanInFlight == old(orphanInFlight)
      ensures Made(repo.sys.calls, |old(repo.sys).calls|, Wrote(ClearRuntimeRef(id), ok))
      ensures ok ==> Reaped(repo.sys, id)
    {
      hide Inv, IsRun, Exec, Initial, Reaches, Finished, Reaped, SameColumns, NextRequests, NextRecon, NextSweeps;
      hide NextListed, NextWorkers, WorkStatement, WorkPc, StartPc, StopPc, WorkCalls, WorkHistory, Legal;
      hide HolderFits, Rows, Holding, Watchers, Reapers, Requests, Counters;
      ok := repo.ClearRuntimeRef(id);
      assert repo.calls[|repo.calls| - 1] == Wrote(ClearRuntimeRef(id), ok);
      if ok {
        WipingReaps(repo.cfg, repo.sys, p, id);
      }
      repo.Step(Reap(p, id, PhaseUnknown, false, ok));
    }

    /** One look, and the clearing of the reference when it shows the workload gone. */
    method LookAndWipe(id: TaskId, ghost now: Reaper) returns (phase: Option<Phase>, ok: bool, ghost sight: Sight)
      requires Valid() && (p, id) in repo.sys.reapers && repo.sys.reapers[(p, id)] == now && (now.Probe? || now.Watch?)
      modifies this`orphanInFlight, repo
      ensures Carries(Reaping(p, id), old(repo.sys), old(repo.trace))
      ensures phase.Some? ==> (phase.value.PhaseRunning? <==> Up(sight)) && (Gone(phase.value) <==> Over(sight))
      ensures if phase.Some? && Up(sight)
              then (p, id) in repo.sys.reapers
                   && Some(repo.sys.reapers[(p, id)]) == ReapNext(repo.cfg, now, true, PhaseRunning)
              else (p, id) !in repo.sys.reapers
      ensures old(Reaped(repo.sys, id)) ==> phase.None? || (!Up(sight) && !Over(sight))
      ensures phase.None? ==> Made(repo.sys.calls, |old(repo.sys).calls|, Fetched(id, false))
      ensures if phase.Some? && Over(sight)
              then Made(repo.sys.calls, |old(repo.sys).calls|, Wrote(ClearRuntimeRef(id), ok)) else !ok
      ensures ok ==> Reaped(repo.sys, id)
    {
      hide Inv, Repo.Valid, Reaped;
      ok := false;
      phase, sight := Observe(id, now);
      ShowsByState(sight.row, sight.ins);
      if phase.Some? && Gone(phase.value) {
        ok := Wipe(id);
      }
    }

    /** Stop the container and clear the reference. */
    method HaltAndWipe(id: TaskId) returns (stopped: bool, ok: bool)
      requires Valid() && (p, id) in repo.sys.reapers && repo.sys.reapers[(p, id)].Halt?
      modifies this`orphanInFlight, repo
      ensures Carries(Reaping(p, id), old(repo.sys), old(repo.trace)) && (p, id) !in repo.sys.reapers
      ensures if stopped then Made(repo.sys.calls, |old(repo.sys).calls|, Wrote(ClearRuntimeRef(id), ok))
              else !ok && Made(repo.sys.calls, |old(repo.sys).calls|, Fetched(id, false))
      ensures ok ==> Reaped(repo.sys, id)
    {
      hide Inv, Repo.Valid, Reaped;
      ok := false;
      stopped := StopContainer(id);
      if stopped {
        ok := Wipe(id);
      }
    }

    /** `reapOrphanGoroutine`.  `log` is what it saw of the container.
        - It calls `Stop` only after seeing it up at the first look and after every wait.
        - It clears the reference only after that, or after seeing it ended or gone.
        - If the reference was already cleared when it started, it does neither.
        - It ends without a look only if its read of the row failed. */
    method ReapOrphan(id: TaskId) returns (stopped: bool, cleared: bool, ok: bool, ghost log: seq<Sight>)
      requires Valid() && (p, id) in repo.sys.reapers && repo.sys.reapers[(p, id)].Probe?
      modifies this`orphanInFlight, repo
      ensures Carries(Reaping(p, id), old(repo.sys), old(repo.trace))
      ensures (p, id) !in repo.sys.reapers && id !in orphanInFlight
      ensures stopped ==> |log| == 1 + |repo.cfg.waits| && forall i :: 0 <= i < |log| ==> Up(log[i])
      ensures cleared ==> stopped || (log != [] && Over(log[|log| - 1]))
      ensures old(Reaped(repo.sys, id)) ==> !stopped && !cleared
      ensures if cleared then Made(repo.sys.calls, |old(repo.sys).calls|, Wrote(ClearRuntimeRef(id), ok)) else !ok
      ensures ok ==> Reaped(repo.sys, id)
      ensures !cleared ==>
        || (log != [] && !Up(log[|log| - 1]) && !Over(log[|log| - 1]))
        || Made(repo.sys.calls, |old(repo.sys).calls|, Fetched(id, false))
    {
      hide Inv, IsRun, Exec, Initial, Finished, Reaped, SameColumns, Reaches;
      stopped, cleared, ok, log := false, false, false, [];
      var phase;
      ghost var sight;
      phase, ok, sight := LookAndWipe(id, Probe);
      if phase.Some? {
        log, cleared := [sight], Gone(phase.value);
        if phase.value.PhaseRunning? {
          stopped, cleared, ok, log := WatchOut(id, sight);
        }
      }
      Done(id);
    }

    /** The deferred removal of the mark. */
    method Done(id: TaskId)
      requires Valid() && (p, id) !in repo.sys.reapers
      modifies this`orphanInFlight, repo
      ensures Carries(Reaping(p, id), old(repo.sys), old(repo.trace))
      ensures (p, id) !in repo.sys.reapers && orphanInFlight == old(orphanInFlight) - {id}
      ensures repo.sys.calls == old(repo.sys).calls && (Reaped(old(repo.sys), id) ==> Reaped(repo.sys, id))
    {
      hide Inv, IsRun, Exec, Initial;
      orphanInFlight := orphanInFlight - {id};
      repo.Step(Unmark(p, id));
    }

    /** The container was running: look again after every wait, and stop it if it never ends. */
    method WatchOut(id: TaskId, ghost first: Sight)
      returns (stopped: bool, cleared: bool, ok: bool, ghost log: seq<Sight>)
      requires Valid() && (p, id) in repo.sys.reapers && Up(first)
      requires repo.sys.reapers[(p, id)] == if repo.cfg.waits == [] then Halt else Watch(|repo.cfg.waits|)
      modifies this`orphanInFlight, repo
      ensures Carries(Reaping(p, id), old(repo.sys), old(repo.trace)) && (p, id) !in repo.sys.reapers
      ensures stopped ==> |log| == 1 + |repo.cfg.waits| && forall i :: 0 <= i < |log| ==> Up(log[i])
      ensures cleared ==> stopped || (log != [] && Over(log[|log| - 1]))
      ensures if cleared then Made(repo.sys.calls, |old(repo.sys).calls|, Wrote(ClearRuntimeRef(id), ok)) else !ok
      ensures ok ==> Reaped(repo.sys, id)
      ensures !cleared ==>
        || (log != [] && !Up(log[|log| - 1]) && !Over(log[|log| - 1]))
        || Made(repo.sys.calls, |old(repo.sys).calls|, Fetched(id, false))
    {
      hide Inv, IsRun, Exec, Initial, Finished, Reaped, SameColumns, Reaches;
      stopped, cleared, ok, log := false, false, false, [first];
      var n := |repo.cfg.waits|;
      for i := 0 to n
        invariant Carries(Reaping(p, id), old(repo.sys), old(repo.trace)) && (p, id) in repo.sys.reapers
        invariant repo.sys.reapers[(p, id)] == if i == n then Halt else Watch(n - i)
        invariant |log| == 1 + i && (forall j :: 0 <= j < |log| ==> Up(log[j])) && !stopped && !cleared && !ok
      {
        var phase;
        ghost var sight;
        phase, ok, sight := LookAndWipe(id, Watch(n - i));
        if phase.None? {
          return;
        }
        log := log + [sight];
        if !phase.value.PhaseRunning? {
          cleared := Gone(phase.value);
          return;
        }
      }
      stopped, ok := HaltAndWipe(id);
      cleared := stopped;
    }

    /** `visits` holds the state in which each row was visited, one `OrphanSpawn` each. */
    ghost predicate Visited(visits: map<TaskId, State>, since: nat)
      reads this, repo
    {
      forall id :: id in visits ==>
        repo.Passed(visits[id], since) && repo.Passed(Next(repo.cfg, visits[id], OrphanSpawn(p, id)), since)
    }

    /** `TickOrphanReap`.  It lists the table as it stands in a state `seen` on the way and visits
        every listed row; the rows that get a goroutine are exactly those unmarked when visited,
        and each of them is out of its slot for good.  Switched off, it makes no call. */
    method TickOrphanReap()
      returns (ghost seen: State, ok: bool, started: set<TaskId>, ghost visits: map<TaskId, State>)
      requires Valid()
      modifies this`orphanInFlight, repo
      ensures Carries(Lister(p), old(repo.sys), old(repo.trace)) && repo.Passed(seen, |old(repo.trace)|)
      ensures visits.Keys == if ok then OrphanRows(seen.tasks) else {}
      ensures ok ==> forall id :: id in visits <==> id in seen.tasks && OrphanColumns(seen.tasks[id])
      ensures !repo.cfg.reapOrphans ==> !ok && repo.sys.calls == old(repo.sys).calls
      ensures repo.cfg.reapOrphans && !ok ==>
        Made(repo.sys.calls, |old(repo.sys).calls|, Queried(TerminalWithRef, false))
      ensures Visited(visits, |old(repo.trace)|)
      ensures forall id :: id in started <==> id in visits && (p, id) !in visits[id].marks
      ensures AllFinished(repo.sys, started)
    {
      hide Inv, IsRun, Exec, Initial, Finished, Reaped, OrphanListed, Reaches, SameColumns, Repo.Passed;
      if !repo.cfg.reapOrphans {
        ok, seen, started, visits := false, repo.sys, {}, map[];
        repo.HasPassed(seen, repo.trace, |repo.trace|);
        return;
      }
      var listing;
      ok, listing := Scan();
      seen, started, visits := repo.sys, {}, map[];
      ghost var steps := repo.trace;
      if ok {
        started, visits := Walk(listing, |old(repo.trace)|);
        RowsByColumn(seen.tasks);
      }
      repo.HasPassed(seen, steps, |old(repo.trace)|);
    }

    method Scan() returns (ok: bool, listing: seq<Task>)
      requires Valid() && repo.cfg.reapOrphans
      modifies this`orphanInFlight, repo
      ensures Carries(Lister(p), old(repo.sys), old(repo.trace))
      ensures ok ==> IsListing(listing, OrphanRows(repo.sys.tasks), repo.sys.tasks)
      ensures ok ==> p in repo.sys.listed && repo.sys.listed[p] == OrphanRows(repo.sys.tasks)
      ensures !ok ==> Made(repo.sys.calls, |old(repo.sys).calls|, Queried(TerminalWithRef, false))
    {
      hide Inv, IsRun, Exec, Initial, Finished, Reaped, OrphanListed, Reaches, SameColumns, IsListing;
      Others(Lister(p));
      ok, listing := repo.ListTerminalDockerWithRuntimeRef();
      assert repo.calls[|repo.calls| - 1] == Queried(TerminalWithRef, ok);
      repo.Step(OrphanList(p, ok));
    }

    /** The loop over the listing. */
    method Walk(listing: seq<Task>, ghost since: nat)
      returns (started: set<TaskId>, ghost visits: map<TaskId, State>)
      requires Valid() && p in repo.sys.listed && since <= |repo.trace|
      requires repo.sys.listed[p] == set j | 0 <= j < |listing| :: listing[j].id
      requires forall i, j :: 0 <= i < j < |listing| ==> listing[i].id != listing[j].id
      modifies this`orphanInFlight, repo
      ensures Carries(Lister(p), old(repo.sys), old(repo.trace))
      ensures visits.Keys == set j | 0 <= j < |listing| :: listing[j].id
      ensures Visited(visits, since)
      ensures forall id :: id in started <==> id in visits && (p, id) !in visits[id].marks
      ensures AllFinished(repo.sys, started)
    {
      hide Inv, IsRun, Exec, Initial, Finished, Reaped, Reaches, SameColumns, Next;
      started, visits := {}, map[];
      for i := 0 to |listing|
        invariant Carries(Lister(p), old(repo.sys), old(repo.trace))
        invariant p in repo.sys.listed && repo.sys.listed[p] == set j | i <= j < |listing| :: listing[j].id
        invariant visits.Keys == set j | 0 <= j < i :: listing[j].id
        invariant Visited(visits, since)
        invariant forall id :: id in started <==> id in visits && (p, id) !in visits[id].marks
        invariant AllFinished(repo.sys, started)
      {
        ghost var was;
        var begun;
        begun, was := Visit(listing[i].id, since, visits, started);
        visits := visits[listing[i].id := was];
        started := if begun then started + {listing[i].id} else started;
      }
    }

    lemma VisitsKept(es: seq<Event>, visits: map<TaskId, State>, since: nat)
      requires es <= repo.trace
      requires forall j :: j in visits ==>
        && repo.PassedBy(es, visits[j], since)
        && repo.PassedBy(es, Next(repo.cfg, visits[j], OrphanSpawn(p, j)), since)
      ensures Visited(visits, since)
    {
      hide Next, Repo.PassedBy;
      forall j | j in visits
        ensures repo.Passed(visits[j], since) && repo.Passed(Next(repo.cfg, visits[j], OrphanSpawn(p, j)), since)
      {
        repo.PassedOn(es, repo.trace, visits[j], since, since);
        repo.PassedOn(es, repo.trace, Next(repo.cfg, visits[j], OrphanSpawn(p, j)), since, since);
      }
    }

    /** One row of the loop: the others stay as they are. */
    method Visit(id: TaskId, ghost since: nat, ghost visits: map<TaskId, State>, ghost started: set<TaskId>)
      returns (begun: bool, ghost was: State)
      requires Valid() && p in repo.sys.listed && id in repo.sys.listed[p] && since <= |repo.trace|
      requires Visited(visits, since) && AllFinished(repo.sys, started) && id !in visits
      modifies this`orphanInFlight, repo
      ensures Carries(Lister(p), old(repo.sys), old(repo.trace))
      ensures p in repo.sys.listed && repo.sys.listed[p] == old(repo.sys).listed[p] - {id}
      ensures begun <==> (p, id) !in was.marks
      ensures Visited(visits[id := was], since)
      ensures AllFinished(repo.sys, if begun then started + {id} else started)
    {
      hide Inv, IsRun, Exec, Initial, Finished, Reaped, Reaches, SameColumns, NextRecords, NextRequests, NextRecon;
      hide NextSweeps, NextReapers, NextMarks, NextHistory, NextWorkers, CallsOf, Apply, StatementOf, WorkStatement;
      hide WorkPc, StartPc, StopPc, WorkCalls, WorkHistory, Legal, HolderFits, Rows, Holding, Watchers, Reapers;
      hide Requests, Counters;
      ghost var s0, es := repo.sys, repo.trace;
      Others(Lister(p));
      was := repo.sys;
      ghost var steps := repo.trace;
      begun := Spawn(id);
      repo.StillFinished(s0, es, started);
      repo.HasPassed(was, steps, since);
      repo.HasPassed(repo.sys, repo.trace, since);
      VisitsKept(es, visits, since);
      if begun {
        repo.Sound();
        ReaperRow(repo.sys, p, id);
      }
    }
  }
}
