/** `internal/taskrepo/repo.go`: the shared `tasks` table as an object, one method per database
    call, and beside it the providers.  Every call may fail, and then changes nothing.  Ghost
    state ties this to the state machine: `calls` are the calls made, `sys` is the state of all
    processes, `trace` the steps that led there.  A caller performs a call and then logs, with
    `Step`, the machine step it amounts to; between two calls `Others` lets all other processes
    run. */
module TaskRepo {
  import opened Model
  import opened Table
  import opened Machine
  import opened Invariant
  import opened Providers
  import opened Safety
  import GpuSlots

  /** Whoever is executing: a worker, a reconciler tick, a runtime sweep, an orphan listing, a
      reaper, or a restart request. */
  datatype Actor =
    | Worker(w: WorkerId)
    | Ticker(p: ProcId)
    | Sweeper(p: ProcId)
    | Lister(p: ProcId)
    | Reaping(p: ProcId, id: TaskId)
    | Requester(q: ProcId)
    | Nobody

  /** Nobody else touches an actor's own locals, marks a row for its listing, claims in its name,
      or dies in its place. */
  ghost predicate SameLocals(a: Actor, s: State, s': State) {
    && Alive(a, s, s')
    && match a
    case Worker(w) =>
      && (w in s.workers ==> w in s'.workers && s'.workers[w] == s.workers[w])
      && s'.hist.polls[w] == s.hist.polls[w]
    case Ticker(p) => p in s.recon ==> p in s'.recon && s'.recon[p] == s.recon[p]
    case Sweeper(p) =>
      (p in s.sweeps <==> p in s'.sweeps) && (p in s.sweeps ==> s'.sweeps[p] == s.sweeps[p])
    case Lister(p) =>
      && (p in s.listed ==> p in s'.listed && s'.listed[p] == s.listed[p])
    case Reaping(p, id) =>
      && ((p, id) in s.reapers ==> (p, id) in s'.reapers && s'.reapers[(p, id)] == s.reapers[(p, id)])
      && ((p, id) in s.marks ==> (p, id) in s'.marks)
    case Requester(q) =>
      (q in s.requests <==> q in s'.requests) && (q in s.requests ==> s'.requests[q] == s.requests[q])
    case Nobody => true
  }

  /** The actor has not died: what it did, it did by its own calls. */
  ghost predicate Alive(a: Actor, s: State, s': State) {
    match a
    case Worker(w) => s'.hist.crashes[w] == s.hist.crashes[w]
    case Ticker(p) => s'.hist.deaths[p] == s.hist.deaths[p]
    case Sweeper(p) => s'.hist.deaths[p] == s.hist.deaths[p]
    case Lister(p) => s'.hist.deaths[p] == s.hist.deaths[p]
    case Reaping(p, _) => s'.hist.deaths[p] == s.hist.deaths[p]
    case _ => true
  }

  /** How a state follows an earlier one in which the actor began some work of its own. */
  ghost predicate Onward(a: Actor, s: State, s': State) {
    Alive(a, s, s') && s.calls <= s'.calls
  }

  /** The call was made after the first `since` ones. */
  ghost predicate Made(calls: seq<Call>, since: nat, c: Call) {
    exists i :: since <= i < |calls| && calls[i] == c
  }

  /** The write was attempted, whether or not it went through. */
  ghost predicate Tried(calls: seq<Call>, since: nat, stmt: Statement) {
    Made(calls, since, Wrote(stmt, true)) || Made(calls, since, Wrote(stmt, false))
  }

  lemma MadeBefore(calls: seq<Call>, calls': seq<Call>, since: nat, since': nat, c: Call)
    requires Made(calls, since, c) && calls <= calls' && since' <= since
    ensures Made(calls', since', c)
  {
    var i :| since <= i < |calls| && calls[i] == c;
    assert calls'[i] == c;
  }

  datatype ClaimResult = Got(id: TaskId) | NothingWaiting | ClaimError

  class Repo {
    const cfg: Config
    var tasks: Tasks
    var records: seq<StopRecord>
    var now: int
    ghost var calls: seq<Call>
    ghost const start: State
    ghost var sys: State
    ghost var trace: seq<Event>

    /** The logged steps are a run of the machine from an initial state. */
    ghost predicate Linked()
      reads this
    {
      Initial(start) && IsRun(cfg, ANYTHING, start, trace) && sys == Exec(cfg, ANYTHING, start, trace)
    }

    /** All calls made so far have been logged: the table is the machine's table. */
    ghost predicate Valid()
      reads this
    {
      Linked() && tasks == sys.tasks && records == sys.records && calls == sys.calls && now == sys.now
    }

    /** Where a piece of work of the actor leads: its steps are logged, and it is alive. */
    ghost predicate Carries(me: Actor, s: State, es: seq<Event>)
      reads this
    {
      Valid() && es <= trace && Onward(me, s, sys)
    }

    /** The steps `es` go through the state, after no fewer than `since` of them. */
    ghost predicate PassedBy(es: seq<Event>, s: State, since: nat) {
      exists n :: since <= n <= |es| && IsStateAfter(es, s, n)
    }

    ghost predicate IsStateAfter(es: seq<Event>, s: State, n: nat)
      requires n <= |es|
    {
      IsRun(cfg, ANYTHING, start, es[..n]) && Exec(cfg, ANYTHING, start, es[..n]) == s
    }

    ghost predicate Passed(s: State, since: nat)
      reads this
    {
      PassedBy(trace, s, since)
    }

    lemma PassedOn(es: seq<Event>, es': seq<Event>, s: State, since: nat, since': nat)
      requires PassedBy(es, s, since) && es <= es' && since' <= since
      ensures PassedBy(es', s, since')
    {
      hide IsRun, Exec;
      var n :| since <= n <= |es| && IsStateAfter(es, s, n);
      assert es'[..n] == es[..n];
      assert IsStateAfter(es', s, n);
    }

    lemma HasPassed(s: State, es: seq<Event>, since: nat)
      requires es <= trace && since <= |es|
      requires IsRun(cfg, ANYTHING, start, es) && Exec(cfg, ANYTHING, start, es) == s
      ensures Passed(s, since)
    {
      hide IsRun, Exec;
      assert trace[..|es|] == es;
      assert IsStateAfter(trace, s, |es|);
    }

    /** A fresh database served by the given workers, all idle. */
    constructor (cfg: Config, ghost workers: set<WorkerId>)
      ensures Valid() && this.cfg == cfg && tasks == map[] && records == [] && calls == [] && trace == []
      ensures sys.workers == map w | w in workers :: Idle
    {
      ghost var init := State(map[], [], [], 0, map w | w in workers :: Idle, map[], map[], map[], map[], map[], {},
                              NO_HISTORY);
      this.cfg := cfg;
      tasks, records, now := map[], [], 0;
      start, sys, trace, calls := init, init, [], [];
    }

    lemma Sound()
      requires Linked()
      ensures Inv(sys)
    {
      InitialInv(start);
      InvRun(cfg, ANYTHING, start, trace);
    }

    /** Log the machine step that the calls made since the last one amount to. */
    ghost method Step(e: Event)
      requires Linked() && Enabled(cfg, sys, e) && !e.Advance?
      requires tasks == Apply(sys.tasks, StatementOf(sys, e), sys.now)
      requires records == NextRecords(sys, e) && calls == Logged(sys.calls, CallsOf(sys, e)) && now == sys.now
      modifies this`sys, this`trace
      ensures Valid() && sys == Next(cfg, old(sys), e) && trace == old(trace) + [e]
      ensures Inv(sys)
    {
      hide NextRecords, NextRequests, NextRecon, NextSweeps, NextListed, NextReapers, NextMarks, NextHistory;
      hide NextWorkers, CallsOf, Apply, StatementOf, WorkStatement, WorkPc, StartPc, StopPc, WorkCalls, WorkHistory;
      hide Legal, HolderFits, Finished, Rows, Holding, Watchers, Reapers, Requests, Counters;
      RunSnoc(cfg, ANYTHING, start, trace, e);
      sys, trace := Next(cfg, sys, e), trace + [e];
      Sound();
    }

    /** Log a worker's step. */
    ghost method WorkStep(w: WorkerId, o: Outcome)
      requires Linked() && w in sys.workers && !sys.workers[w].Idle?
      requires tasks == Apply(sys.tasks, WorkStatement(sys, sys.workers[w], o), sys.now) && now == sys.now
      requires records ==
        if o.db && sys.workers[w].StopRec? then sys.records + [sys.workers[w].rec] else sys.records
      requires calls == Logged(sys.calls, WorkCalls(sys, sys.workers[w], o))
      modifies this`sys, this`trace
      ensures Valid() && Inv(sys) && trace == old(trace) + [Work(w, o)]
      ensures sys.workers == old(sys).workers[w := WorkPc(cfg, old(sys), old(sys).workers[w], o)]
      ensures sys.hist == WorkHistory(old(sys), old(sys).workers[w], o)
      ensures sys.hist.crashes == old(sys).hist.crashes && sys.hist.polls == old(sys).hist.polls
    {
      hide WorkPc, WorkStatement, WorkCalls, IsRun, Exec, Inv, Initial;
      Step(Work(w, o));
    }

    /** What followed from an earlier state of the same history. */
    lemma Since(s: State, es: seq<Event>)
      requires Linked() && es <= trace
      requires IsRun(cfg, ANYTHING, start, es) && Exec(cfg, ANYTHING, start, es) == s
      ensures Reaches(cfg, ANYTHING, s, sys) && Later(s, sys) && Inv(sys)
    {
      hide Inv, Later, Initial;
      assert trace[..|es|] == es;
      RunSplit(cfg, ANYTHING, start, trace, |es|);
      InitialInv(start);
      InvRun(cfg, ANYTHING, start, es);
      ReachesLater(cfg, ANYTHING, s, sys);
    }

    lemma StillFinished(s: State, es: seq<Event>, ids: set<TaskId>)
      requires Linked() && es <= trace && AllFinished(s, ids)
      requires IsRun(cfg, ANYTHING, start, es) && Exec(cfg, ANYTHING, start, es) == s
      ensures AllFinished(sys, ids)
    {
      hide Inv, IsRun, Exec, Initial, Finished;
      Since(s, es);
    }

    /** Everybody else runs for a while: any number of steps of other processes, which leave the
        actor's own locals alone.  What is kept of everything else follows from reachability. */
    method Others(ghost me: Actor)
      requires Valid()
      modifies this
      ensures Valid() && old(trace) <= trace && Reaches(cfg, ANYTHING, old(sys), sys) && SameLocals(me, old(sys), sys)
      ensures Inv(sys) && Later(old(sys), sys)
    {
      Sound();
      ReachesSelf(cfg, ANYTHING, sys);
      ReachesLater(cfg, ANYTHING, sys, sys);
    }

    // ---- Provider calls about a row ----

    /** `ResourceCheck`: `None` is an error return. */
    method ResourceCheck(id: TaskId, row: Row) returns (verdict: Option<bool>)
      requires Registered(row.prov)
      modifies this`calls
      ensures calls == old(calls) + [Checked(id, verdict == Some(true))]
    {
      verdict := Some(true);
      if row.prov.Docker? {
        verdict := *;
      }
      calls := calls + [Checked(id, verdict == Some(true))];
    }

    /** `Run`: the reference of what was started, or an error. */
    method Run(id: TaskId, row: Row) returns (ref: Result<string>)
      requires Registered(row.prov)
      modifies this`calls
      ensures calls == old(calls) + [Ran(id, if ref.Ok? then Some(ref.value) else None)]
    {
      ref := *;
      calls := calls + [Ran(id, if ref.Ok? then Some(ref.value) else None)];
    }

    method StopWorkload(id: TaskId, row: Row) returns (ok: bool)
      requires Registered(row.prov)
      modifies this`calls
      ensures row.prov.K8s? || row.ref == "" ==> ok
      ensures calls == old(calls) + [AskedToStop(id, ok)]
    {
      ghost var removal;
      ok, removal := Providers.Stop(row);
      calls := calls + [AskedToStop(id, ok)];
    }

    /** `Status`; `ins` is what inspecting the container yields. */
    method Status(id: TaskId, row: Row) returns (phase: Phase, ghost ins: Inspect)
      requires Registered(row.prov)
      modifies this`calls
      ensures phase == Shows(row, ins) && CanReport(row, phase)
      ensures calls == old(calls) + [Looked(id, phase)]
    {
      var seen;
      seen, ins := QueryStatus(row);
      phase := if seen.Some? then seen.value else PhaseUnknown;
      calls := calls + [Looked(id, phase)];
    }

    // ---- Reads ----

    method Get(id: TaskId) returns (ok: bool, row: Option<Row>)
      modifies this`calls
      ensures row == if ok && id in tasks then Some(tasks[id]) else None
      ensures calls == old(calls) + [Fetched(id, ok)]
    {
      ok := *;
      row := if ok && id in tasks then Some(tasks[id]) else None;
      calls := calls + [Fetched(id, ok)];
    }

    /** One COUNT statement: one snapshot. */
    method CountOccupying(g: Group) returns (ok: bool, n: int)
      modifies this`calls
      ensures ok ==> n == Count(g, tasks)
      ensures ok && !g.GpuOnes? ==> n == |InSlots(tasks, g)|
      ensures calls == old(calls) + [Counted(g, ok)]
    {
      ok := *;
      n := |Occupying(g, tasks)|;
      assert !g.GpuOnes? ==> Occupying(g, tasks) == InSlots(tasks, g);
      calls := calls + [Counted(g, ok)];
    }

    /** The selected rows, in some order, each once. */
    method Select(ids: set<TaskId>) returns (out: seq<Task>)
      requires ids <= tasks.Keys
      ensures IsListing(out, ids, tasks)
    {
      out := [];
      var done: set<TaskId> := {};
      while ids - done != {}
        invariant done <= ids && IsListing(out, done, tasks)
        decreases ids - done
      {
        var id :| id in ids - done;
        ListingSnoc(out, done, tasks, id);
        out, done := out + [Task(id, tasks[id])], done + {id};
      }
      assert ids == done + (ids - done);
    }

    method ListDockerOccupyingGPUTasks() returns (ok: bool, out: seq<Task>)
      modifies this`calls
      ensures ok ==> IsListing(out, DockerInSlots(tasks), tasks)
      ensures ok ==> forall id :: Lists(out, id) <==>
        id in tasks && InSlotColumns(tasks[id]) && tasks[id].prov == Docker
      ensures calls == old(calls) + [Queried(DockerSlotRows, ok)]
    {
      ok, out := *, [];
      if ok {
        out := Select(DockerInSlots(tasks));
        ListsExactly(out, DockerInSlots(tasks), tasks);
        RowsByColumn(tasks);
      }
      calls := calls + [Queried(DockerSlotRows, ok)];
    }

    method ListStartByStatuses() returns (ok: bool, out: seq<Task>)
      modifies this`calls
      ensures ok ==> IsListing(out, Occupying(Everyone, tasks), tasks)
      ensures ok ==> forall id :: Lists(out, id) <==> id in tasks && InSlotColumns(tasks[id])
      ensures calls == old(calls) + [Queried(SlotRows, ok)]
    {
      ok, out := *, [];
      if ok {
        out := Select(Occupying(Everyone, tasks));
        ListsExactly(out, Occupying(Everyone, tasks), tasks);
        RowsByColumn(tasks);
      }
      calls := calls + [Queried(SlotRows, ok)];
    }

    method ListRunningStartWorkloadsWithRef() returns (ok: bool, out: seq<Task>)
      modifies this`calls
      ensures ok ==> IsListing(out, SweepRows(tasks), tasks)
      ensures ok ==> forall id :: Lists(out, id) <==>
        id in tasks && tasks[id].op == Start && tasks[id].status == Running && NotBlank(tasks[id].ref)
      ensures calls == old(calls) + [Queried(RunningWithRef, ok)]
    {
      ok, out := *, [];
      if ok {
        out := Select(SweepRows(tasks));
        ListsExactly(out, SweepRows(tasks), tasks);
        RowsByColumn(tasks);
      }
      calls := calls + [Queried(RunningWithRef, ok)];
    }

    method ListTerminalDockerWithRuntimeRef() returns (ok: bool, out: seq<Task>)
      modifies this`calls
      ensures ok ==> IsListing(out, OrphanRows(tasks), tasks)
      ensures ok ==> forall id :: Lists(out, id) <==> id in tasks && OrphanColumns(tasks[id])
      ensures calls == old(calls) + [Queried(TerminalWithRef, ok)]
    {
      ok, out := *, [];
      if ok {
        out := Select(OrphanRows(tasks));
        ListsExactly(out, OrphanRows(tasks), tasks);
        RowsByColumn(tasks);
      }
      calls := calls + [Queried(TerminalWithRef, ok)];
    }

    // ---- Writes ----

    method Create(id: TaskId, row: Row) returns (ok: bool)
      modifies this`tasks, this`calls
      ensures ok ==> id !in old(tasks) && tasks == Apply(old(tasks), Statement.Create(id, row), now)
      ensures !ok ==> tasks == old(tasks)
      ensures calls == old(calls) + [Wrote(Statement.Create(id, row), ok)]
    {
      ok := *;
      ok := ok && id !in tasks;
      if ok {
        tasks := tasks[id := row];
      }
      calls := calls + [Wrote(Statement.Create(id, row), ok)];
    }

    /** Rows locked by concurrent claims, at most one for each other idle worker. */
    method LockedByOthers(ghost w: WorkerId) returns (locked: set<TaskId>)
      ensures Lockable(sys, w, locked)
    {
      locked := {};
    }

    /** Take the oldest waiting row that is not locked, and mark it processing. */
    method ClaimNext(ghost w: WorkerId, locked: set<TaskId>) returns (res: ClaimResult)
      modifies this`tasks, this`calls
      ensures !res.Got? ==> tasks == old(tasks)
      ensures res.Got? ==>
        && Oldest(cfg, old(tasks), locked, res.id)
        && tasks == CompareAndSet(old(tasks), res.id, Pending, Processing, now)
      ensures res.Got? ==>
        && res.id in old(tasks) && res.id !in locked && WaitsFor(cfg, old(tasks)[res.id])
        && forall j :: j in old(tasks) && j !in locked && WaitsFor(cfg, old(tasks)[j]) ==>
             old(tasks)[res.id].createdAt <= old(tasks)[j].createdAt
      ensures res.NothingWaiting? ==> forall j :: j in tasks && j !in locked ==> !Waiting(cfg, tasks, j)
      ensures res.NothingWaiting? ==> forall j :: j in tasks && j !in locked ==> !WaitsFor(cfg, tasks[j])
      ensures calls == old(calls) + [Polled(w, if res.Got? then Some(res.id) else None, !res.ClaimError?)]
    {
      var oldest := FindOldest(locked);
      var up: bool := *;
      if !up {
        res := ClaimError;
      } else if oldest.None? {
        res := NothingWaiting;
      } else {
        var id := oldest.value;
        tasks := tasks[id := tasks[id].(status := Processing, updatedAt := now)];
        res := Got(id);
      }
      calls := calls + [Polled(w, if res.Got? then Some(res.id) else None, !res.ClaimError?)];
    }

    method FindOldest(locked: set<TaskId>) returns (oldest: Option<TaskId>)
      ensures oldest.Some? ==> Oldest(cfg, tasks, locked, oldest.value)
      ensures oldest.None? ==> forall j :: j in tasks && j !in locked ==> !Waiting(cfg, tasks, j)
    {
      oldest := None;
      var todo := set id | id in tasks && Waiting(cfg, tasks, id) && id !in locked;
      ghost var all := todo;
      assert forall j :: j in tasks && j !in locked && Waiting(cfg, tasks, j) ==> j in all;
      while todo != {}
        invariant todo <= all
        invariant oldest.None? ==> todo == all
        invariant oldest.Some? ==> oldest.value in all
        invariant oldest.Some? ==> forall j :: j in all - todo ==> tasks[oldest.value].createdAt <= tasks[j].createdAt
        decreases todo
      {
        var id :| id in todo;
        if oldest.None? || tasks[id].createdAt < tasks[oldest.value].createdAt {
          oldest := Some(id);
        }
        todo := todo - {id};
      }
    }

    /** The conditional status update; `swapped` says whether the row matched. */
    method TrySetStatus(id: TaskId, from: Status, to: Status) returns (ok: bool, swapped: bool)
      modifies this`tasks, this`calls
      ensures tasks == if ok then CompareAndSet(old(tasks), id, from, to, now) else old(tasks)
      ensures ok ==> (swapped <==> id in old(tasks) && old(tasks)[id].status == from)
      ensures calls == old(calls) + [Wrote(Cas(id, from, to), ok)]
    {
      ok := *;
      swapped := id in tasks && tasks[id].status == from;
      if ok && swapped {
        tasks := tasks[id := tasks[id].(status := to, updatedAt := now)];
      }
      calls := calls + [Wrote(Cas(id, from, to), ok)];
    }

    method ResetToPending(id: TaskId) returns (ok: bool)
      modifies this`tasks, this`calls
      ensures tasks == if ok then CompareAndSet(old(tasks), id, Processing, Pending, now) else old(tasks)
      ensures calls == old(calls) + [Wrote(Cas(id, Processing, Pending), ok)]
    {
      var swapped;
      ok, swapped := TrySetStatus(id, Processing, Pending);
    }

    method UpdateStatus(id: TaskId, st: Status) returns (ok: bool)
      modifies this`tasks, this`calls
      ensures tasks == if ok then SetStatus(old(tasks), id, st, now) else old(tasks)
      ensures calls == old(calls) + [Wrote(Statement.UpdateStatus(id, st), ok)]
    {
      ok := *;
      if ok && id in tasks {
        tasks := tasks[id := tasks[id].(status := st, updatedAt := now)];
      }
      calls := calls + [Wrote(Statement.UpdateStatus(id, st), ok)];
    }

    method UpdateRuntime(id: TaskId, ref: string) returns (ok: bool)
      modifies this`tasks, this`calls
      ensures tasks == if ok then SetRunning(old(tasks), id, ref, now) else old(tasks)
      ensures calls == old(calls) + [Wrote(Statement.UpdateRuntime(id, ref), ok)]
    {
      ok := *;
      if ok && id in tasks {
        tasks := tasks[id := tasks[id].(status := Running, ref := ref, runningAt := Some(now), updatedAt := now)];
      }
      calls := calls + [Wrote(Statement.UpdateRuntime(id, ref), ok)];
    }

    method ClearRuntimeRef(id: TaskId) returns (ok: bool)
      modifies this`tasks, this`calls
      ensures tasks == if ok then ClearRef(old(tasks), id, now) else old(tasks)
      ensures calls == old(calls) + [Wrote(Statement.ClearRuntimeRef(id), ok)]
    {
      ok := *;
      if ok && id in tasks {
        tasks := tasks[id := tasks[id].(ref := "", updatedAt := now)];
      }
      calls := calls + [Wrote(Statement.ClearRuntimeRef(id), ok)];
    }

    /** Fail every row that has been admitted for too long; returns how many. */
    method RevertAdmittedStuck(before: int) returns (ok: bool, n: int)
      modifies this`tasks, this`calls
      ensures tasks == if ok then RevertStuck(old(tasks), before, now) else old(tasks)
      ensures ok ==> n == |StuckRows(old(tasks), before)|
      ensures calls == old(calls) + [Wrote(Statement.RevertAdmittedStuck(before), ok)]
    {
      ok := *;
      n := |StuckRows(tasks, before)|;
      if ok {
        tasks := map id | id in tasks ::
          if Stuck(tasks[id], before) then tasks[id].(status := Failed, updatedAt := now) else tasks[id];
      }
      calls := calls + [Wrote(Statement.RevertAdmittedStuck(before), ok)];
    }

    method CreateStop(rec: StopRecord) returns (ok: bool)
      modifies this`records, this`calls
      ensures records == if ok then old(records) + [rec] else old(records)
      ensures calls == old(calls) + [Filed(rec, ok)]
    {
      ok := *;
      if ok {
        records := records + [rec];
      }
      calls := calls + [Filed(rec, ok)];
    }
  }

  ghost predicate Lists(out: seq<Task>, id: TaskId) {
    exists i :: 0 <= i < |out| && out[i].id == id
  }

  lemma ListsExactly(out: seq<Task>, ids: set<TaskId>, t: Tasks)
    requires IsListing(out, ids, t)
    ensures forall id :: Lists(out, id) <==> id in ids
  {
  }

  /** The selections of the listing queries, by column. */
  lemma ListedByColumn(r: Row)
    ensures Occupies(r) <==> InSlotColumns(r)
    ensures SweepListed(r) <==> r.op == Start && r.status == Running && NotBlank(r.ref)
    ensures OrphanListed(r) <==> OrphanColumns(r)
  {
    assert HasRef(r) <==> NotBlank(r.ref);
  }

  lemma RowsByColumn(t: Tasks)
    ensures forall id :: id in t ==> (Occupies(t[id]) <==> InSlotColumns(t[id]))
    ensures forall id :: id in OrphanRows(t) <==> id in t && OrphanColumns(t[id])
    ensures forall id :: id in SweepRows(t) <==>
      id in t && t[id].op == Start && t[id].status == Running && NotBlank(t[id].ref)
  {
    hide Occupies, InSlotColumns, SweepListed, OrphanListed, OrphanColumns, NotBlank;
    forall id | id in t
      ensures Occupies(t[id]) <==> InSlotColumns(t[id])
      ensures OrphanListed(t[id]) <==> OrphanColumns(t[id])
      ensures SweepListed(t[id]) <==> t[id].op == Start && t[id].status == Running && NotBlank(t[id].ref)
    {
      ListedByColumn(t[id]);
    }
  }

  /** A pending row of an allowed provider; an empty filter allows them all. */
  predicate WaitsFor(cfg: Config, r: Row) {
    r.status == Pending && (cfg.allowed == {} || r.prov in cfg.allowed)
  }

  /** A start row that is admitted or running. */
  predicate InSlotColumns(r: Row) {
    r.op == Start && (r.status == Admitted || r.status == Running)
  }

  /** The rows in a slot, all of them or those of one class. */
  ghost function InSlots(t: Tasks, g: Group): set<TaskId> {
    set id | id in t && InSlotColumns(t[id])
             && (g.SlowOnes? ==> t[id].cls == Slow) && (g.FastOnes? ==> t[id].cls == Fast)
  }

  /** The SQL test on a reference: it has a character other than a space. */
  predicate NotBlank(ref: string) {
    exists i :: 0 <= i < |ref| && ref[i] != ' '
  }

  /** A docker start row that has ended, one way or another, and still carries a reference. */
  predicate OrphanColumns(r: Row) {
    && r.op == Start && r.prov == Docker
    && (r.status == Succeeded || r.status == Failed || r.status == Stopped) && NotBlank(r.ref)
  }

  /** `out` lists exactly the rows `ids` of the table, each once. */
  ghost predicate IsListing(out: seq<Task>, ids: set<TaskId>, t: Tasks) {
    && (forall i :: 0 <= i < |out| ==> out[i].id in ids && out[i].id in t && out[i].row == t[out[i].id])
    && (forall i, j :: 0 <= i < j < |out| ==> out[i].id != out[j].id)
    && (forall id :: id in ids ==> exists i :: 0 <= i < |out| && out[i].id == id)
  }

  /** The same rows, read from a snapshot of just them. */
  lemma ListingOfSnapshot(out: seq<Task>, ids: set<TaskId>, t: Tasks, snap: Tasks)
    requires IsListing(out, ids, t)
    requires snap.Keys == ids && forall id :: id in snap ==> id in t && snap[id] == t[id]
    ensures IsListing(out, snap.Keys, snap)
  {
  }

  /** Visiting the first listed row leaves a listing of the others. */
  lemma ListingRest(out: seq<Task>, snap: Tasks)
    requires IsListing(out, snap.Keys, snap)
    ensures out == [] ==> snap == map[]
    ensures out != [] ==>
      && out[0].id in snap && snap[out[0].id] == out[0].row
      && IsListing(out[1..], (snap - {out[0].id}).Keys, snap - {out[0].id})
  {
    if out != [] {
      var rest, snap' := out[1..], snap - {out[0].id};
      forall id | id in snap'.Keys ensures exists i :: 0 <= i < |rest| && rest[i].id == id {
        var i :| 0 <= i < |out| && out[i].id == id;
        assert rest[i - 1].id == id;
      }
    } else {
      assert snap.Keys == {};
    }
  }

  lemma ListingSnoc(out: seq<Task>, ids: set<TaskId>, t: Tasks, id: TaskId)
    requires IsListing(out, ids, t) && id in t && id !in ids
    ensures IsListing(out + [Task(id, t[id])], ids + {id}, t)
  {
    var out' := out + [Task(id, t[id])];
    forall j | j in ids + {id} ensures exists i :: 0 <= i < |out'| && out'[i].id == j {
      if j in ids {
        var i :| 0 <= i < |out| && out[i].id == j;
        assert out'[i].id == j;
      } else {
        assert out'[|out|].id == j;
      }
    }
  }

  ghost function Wanting(ids: set<TaskId>, t: Tasks): set<TaskId> {
    set id | id in ids && id in t && WantsGPU(t[id].work.gpu)
  }

  lemma WantingLess(ids: set<TaskId>, t: Tasks, id: TaskId)
    requires id in ids && id in t
    ensures |Wanting(ids, t)| == |Wanting(ids - {id}, t)| + if WantsGPU(t[id].work.gpu) then 1 else 0
  {
    hide WantsGPU;
    assert Wanting(ids, t) == Wanting(ids - {id}, t) + if WantsGPU(t[id].work.gpu) then {id} else {};
  }

  /** Counting GPU tasks in a listing counts the selected rows that want a GPU. */
  lemma {:induction false} ListingCounts(out: seq<Task>, ids: set<TaskId>, t: Tasks)
    requires IsListing(out, ids, t)
    ensures GpuSlots.CountWants(out) == |Wanting(ids, t)|
    decreases |out|
  {
    hide WantsGPU;
    if out == [] {
      assert Wanting(ids, t) == {};
    } else {
      var last := out[|out| - 1];
      ListingInit(out, ids, t);
      ListingCounts(out[..|out| - 1], ids - {last.id}, t);
      WantingLess(ids, t, last.id);
    }
  }

  lemma ListingInit(out: seq<Task>, ids: set<TaskId>, t: Tasks)
    requires IsListing(out, ids, t) && out != []
    ensures IsListing(out[..|out| - 1], ids - {out[|out| - 1].id}, t)
  {
    var init, last := out[..|out| - 1], out[|out| - 1];
    forall id | id in ids - {last.id} ensures exists i :: 0 <= i < |init| && init[i].id == id {
      var i :| 0 <= i < |out| && out[i].id == id;
      assert init[i].id == id;
    }
  }

  lemma GpuListingCounts(out: seq<Task>, t: Tasks)
    requires IsListing(out, DockerInSlots(t), t)
    ensures GpuSlots.CountWants(out) == Count(GpuOnes, t)
  {
    var ids := DockerInSlots(t);
    ListingCounts(out, ids, t);
    assert Wanting(ids, t) == Occupying(GpuOnes, t);
  }
}
