/** How much several workers can overfill the slots, exactly.  For each group of rows `Peak` is the
    largest number of them that ever hold a slot: no run goes above it, and some run reaches it.
    So each documented limit is an invariant exactly in the deployments whose peak is within
    it. */
module Tightness {
  import opened Model
  import opened Table
  import opened Machine
  import opened Invariant
  import opened Overshoot
  import Fifo
  import GpuSlots
  import Safety
  import opened Scheduler

  const FINE := Outcome(true, true, "container")

  /** What all the submitted tasks of a run look like. */
  datatype Job = Job(cls: Class, prov: Provider, work: Workload)

  predicate IsJob(j: Job, r: Row) {
    r.op.Start? && r.cls == j.cls && r.prov == j.prov && r.work == Filled(j.work)
  }

  /** The workers claim rows of this provider. */
  predicate Takes(cfg: Config, p: Provider) {
    cfg.allowed == {} || p in cfg.allowed
  }

  /** A row that is the job belongs to the group. */
  predicate JobBelongs(g: Group, j: Job) {
    match g
    case Everyone => true
    case SlowOnes => j.cls.Slow?
    case FastOnes => j.cls.Fast?
    case GpuOnes => j.prov.Docker? && WantsGPU(j.work.gpu)
  }

  /** While fewer than `m` jobs, and nothing else, hold slots, every check lets one more in. */
  predicate RoomFor(cfg: Config, j: Job, m: int) {
    && m <= Cap(cfg, Total)
    && (j.cls.Slow? ==> m <= Cap(cfg, SlowCap) && m <= Cap(cfg, SlowReserve))
    && (JobBelongs(GpuOnes, j) ==> m <= Cap(cfg, Gpu))
  }

  ghost predicate OnlyJobs(t: Tasks, j: Job) {
    forall id :: id in t && Occupies(t[id]) ==> IsJob(j, t[id])
  }

  lemma CountsOfJobs(t: Tasks, j: Job, g: Group)
    requires OnlyJobs(t, j)
    ensures Count(g, t) == if JobBelongs(g, j) then Count(Everyone, t) else 0
  {
    hide WantsGPU;
    assert Occupying(g, t) == if JobBelongs(g, j) then Occupying(Everyone, t) else {};
  }

  /** Nothing is queued, and ids and stamps from `next` on are unused. */
  ghost predicate Quiet(s: State, next: TaskId) {
    forall id :: id in s.tasks ==> id < next && s.tasks[id].createdAt < next && s.tasks[id].status != Pending
  }

  // ---- One job: submit and claim, walk up to the commit, commit, leave it in its slot ----

  lemma Enqueue(cfg: Config, reg: Regime, s: State, j: Job, w: WorkerId, next: TaskId) returns (s': State)
    requires Takes(cfg, j.prov) && Registered(j.prov)
    requires Quiet(s, next) && w in s.workers && s.workers[w].Idle? && OnlyJobs(s.tasks, j)
    ensures Reaches(cfg, reg, s, s')
    ensures s'.workers == s.workers[w := Claimed(next)] && s'.requests == s.requests && s'.now == s.now
    ensures s'.sweeps == s.sweeps && s'.recon == s.recon
    ensures && s'.tasks.Keys == s.tasks.Keys + {next}
            && (forall id :: id in s.tasks ==> s'.tasks[id] == s.tasks[id])
            && s'.tasks[next].status == Processing && IsJob(j, s'.tasks[next]) && s'.tasks[next].createdAt == next
    ensures Quiet(s', next + 1) && OnlyJobs(s'.tasks, j)
    ensures Count(Everyone, s'.tasks) == Count(Everyone, s.tasks)
  {
    hide OnlyJobs, Occupying;
    hide Reaches, NextRecords, NextListed, NextReapers, NextMarks, NextHistory, CallsOf, WorkStatement, WorkPc;
    hide StartPc, StopPc, WorkCalls, WorkHistory, Legal, HolderFits, Finished, Rows, Holding, Watchers, Reapers;
    hide Requests, Counters;
    var e1, e2 := Submit(next, Start, None, j.cls, j.prov, j.work, next), Claim(w, {}, next);
    var s1 := Next(cfg, s, e1);
    s' := Next(cfg, s1, e2);
    ReachesNext(cfg, reg, s, e1);
    ReachesNext(cfg, reg, s1, e2);
    ReachesTrans(cfg, reg, s, s1, s');
    NoSlotTaken(s.tasks, s'.tasks, j, next);
  }

  lemma NoSlotTaken(t: Tasks, t': Tasks, j: Job, next: TaskId)
    requires OnlyJobs(t, j) && next !in t && t'.Keys == t.Keys + {next} && !InSlot(t'[next].status)
    requires forall id :: id in t ==> t'[id] == t[id]
    ensures OnlyJobs(t', j) && Count(Everyone, t') == Count(Everyone, t)
  {
    assert Occupying(Everyone, t') == Occupying(Everyone, t);
  }

  function StepsToCommit(pc: Pc): nat {
    if pc.Claimed? then 6 else if pc.Begin? then 5 else if pc.CountTotal? then 4
    else if pc.CountFast? then 3 else if pc.CountSlow? then 2 else if pc.CheckGpu? then 1 else 0
  }

  /** Walking up to the commit, everything the worker has read is current. */
  ghost predicate Admissible(cfg: Config, s: State, j: Job, m: int, w: WorkerId) {
    && w in s.workers && StepsToCommit(s.workers[w]) > 0
    && var pc := s.workers[w];
    && pc.id in s.tasks && s.tasks[pc.id].status == Processing && IsJob(j, s.tasks[pc.id])
    && OnlyJobs(s.tasks, j) && RoomFor(cfg, j, m) && Count(Everyone, s.tasks) < m
    && (pc.CountFast? || pc.CountSlow? ==> pc.total == Count(Everyone, s.tasks))
    && (pc.CheckGpu? ==> j.prov.Docker?)
  }

  /** The checks let the job pass. */
  lemma ChecksPass(cfg: Config, s: State, j: Job, m: int, w: WorkerId)
    requires Admissible(cfg, s, j, m, w)
    ensures var pc' := StartPc(cfg, s, s.workers[w], FINE);
            && pc' == WorkPc(cfg, s, s.workers[w], FINE) && pc'.id == s.workers[w].id
            && (if pc'.Commit? then StepsToCommit(s.workers[w]) <= 2
                else StepsToCommit(pc') < StepsToCommit(s.workers[w]))
            && (!pc'.Commit? ==> StepsToCommit(pc') > 0 && (pc'.CheckGpu? ==> j.prov.Docker?)
                                 && (pc'.CountFast? || pc'.CountSlow? ==> pc'.total == Count(Everyone, s.tasks)))
    ensures !StartPc(cfg, s, s.workers[w], FINE).Idle? && !StartPc(cfg, s, s.workers[w], FINE).Refused?
  {
    hide WantsGPU, OnlyJobs, GpuSlots.SlotLimit;
    CountsOfJobs(s.tasks, j, SlowOnes);
    CountsOfJobs(s.tasks, j, GpuOnes);
  }

  /** The worker reads while there is room, and gets as far as the commit. */
  lemma {:induction false} WalkToCommit(cfg: Config, reg: Regime, s: State, j: Job, m: int, w: WorkerId)
    returns (s': State)
    requires Admissible(cfg, s, j, m, w)
    ensures Reaches(cfg, reg, s, s')
    ensures s'.tasks == s.tasks && s'.workers == s.workers[w := Commit(s.workers[w].id)] && s'.now == s.now
    ensures s'.requests == s.requests && s'.hist.restarts == s.hist.restarts
    ensures s'.sweeps == s.sweeps && s'.recon == s.recon
    decreases StepsToCommit(s.workers[w])
  {
    hide Reaches, RoomFor, OnlyJobs, IsJob, StartPc, StopPc;
    var e := Work(w, FINE);
    s' := Next(cfg, s, e);
    ReachesNext(cfg, reg, s, e);
    ChecksPass(cfg, s, j, m, w);
    if !s'.workers[w].Commit? {
      var s1 := s';
      s' := WalkToCommit(cfg, reg, s1, j, m, w);
      ReachesTrans(cfg, reg, s, s1, s');
    }
  }

  /** The commit takes effect whatever the counts have become meanwhile. */
  lemma CommitNow(cfg: Config, reg: Regime, s: State, j: Job, w: WorkerId) returns (s': State)
    requires w in s.workers && s.workers[w].Commit? && OnlyJobs(s.tasks, j)
    requires var id := s.workers[w].id; id in s.tasks && s.tasks[id].status == Processing && IsJob(j, s.tasks[id])
    ensures Reaches(cfg, reg, s, s')
    ensures var id := s.workers[w].id;
            && s'.workers == s.workers[w := Reload(id)] && s'.requests == s.requests && s'.now == s.now
            && s'.tasks.Keys == s.tasks.Keys && s'.hist.restarts == s.hist.restarts
            && (forall k :: k in s.tasks && k != id ==> s'.tasks[k] == s.tasks[k])
            && s'.tasks[id].status == Admitted && SameColumns(s.tasks[id], s'.tasks[id])
    ensures s'.sweeps == s.sweeps && s'.recon == s.recon
    ensures OnlyJobs(s'.tasks, j) && Count(Everyone, s'.tasks) == Count(Everyone, s.tasks) + 1
  {
    hide Reaches, WantsGPU;
    var e := Work(w, FINE);
    s' := Next(cfg, s, e);
    ReachesNext(cfg, reg, s, e);
    var id := s.workers[w].id;
    assert Occupying(Everyone, s'.tasks) == Occupying(Everyone, s.tasks) + {id};
  }

  function StepsToIdle(pc: Pc): nat {
    if pc.Reload? then 4 else if pc.Precheck? then 3 else if pc.Launch? then 2 else if pc.Record? then 1 else 0
  }

  /** The row is launched and the worker free again. */
  lemma {:induction false} WalkToIdle(cfg: Config, reg: Regime, s: State, j: Job, w: WorkerId) returns (s': State)
    requires Registered(j.prov) && w in s.workers && StepsToIdle(s.workers[w]) > 0 && OnlyJobs(s.tasks, j)
    requires s.workers[w].Record? ==> s.workers[w].ref == FINE.ref
    requires var id := s.workers[w].id; id in s.tasks && InSlot(s.tasks[id].status) && IsJob(j, s.tasks[id])
    ensures Reaches(cfg, reg, s, s')
    ensures var id := s.workers[w].id;
            && s'.workers == s.workers[w := Idle] && s'.requests == s.requests && s'.now == s.now
            && s'.hist.restarts == s.hist.restarts
            && s'.tasks.Keys == s.tasks.Keys && SameColumns(s.tasks[id], s'.tasks[id])
            && (forall k :: k in s.tasks && k != id ==> s'.tasks[k] == s.tasks[k])
            && s'.tasks[id].status == Running && s'.tasks[id].ref == FINE.ref && s'.tasks[id].runningAt == Some(s.now)
    ensures s'.sweeps == s.sweeps && s'.recon == s.recon
    ensures OnlyJobs(s'.tasks, j) && Count(Everyone, s'.tasks) == Count(Everyone, s.tasks)
    decreases StepsToIdle(s.workers[w])
  {
    hide Next, CanStep, Reaches, IsJob, OnlyJobs;
    var e := Work(w, FINE);
    s' := Next(cfg, s, e);
    LaunchCall(cfg, reg, s, j, w);
    SlotKept(s.tasks, s'.tasks, j, s.workers[w].id);
    ReachesNext(cfg, reg, s, e);
    if !s.workers[w].Record? {
      var s1 := s';
      s' := WalkToIdle(cfg, reg, s1, j, w);
      ReachesTrans(cfg, reg, s, s1, s');
    }
  }

  /** One call of the tail: it moves the worker on, and the last one writes `running`. */
  lemma LaunchCall(cfg: Config, reg: Regime, s: State, j: Job, w: WorkerId)
    requires Registered(j.prov) && w in s.workers && StepsToIdle(s.workers[w]) > 0
    requires s.workers[w].Record? ==> s.workers[w].ref == FINE.ref
    requires var id := s.workers[w].id; id in s.tasks && InSlot(s.tasks[id].status) && IsJob(j, s.tasks[id])
    ensures CanStep(cfg, reg, s, Work(w, FINE))
    ensures var s', pc := Next(cfg, s, Work(w, FINE)), s.workers[w];
            && s'.requests == s.requests && s'.now == s.now && s'.hist.restarts == s.hist.restarts
            && s'.sweeps == s.sweeps && s'.recon == s.recon && s'.workers.Keys == s.workers.Keys
            && s'.workers == s.workers[w := s'.workers[w]]
            && StepsToIdle(s'.workers[w]) == StepsToIdle(pc) - 1
            && (pc.Record? ==> s'.workers[w].Idle? && s'.tasks == s.tasks[pc.id := s.tasks[pc.id].(
                  status := Running, ref := FINE.ref, runningAt := Some(s.now), updatedAt := s.now)])
            && (!pc.Record? ==>
                  s'.tasks == s.tasks && StepsToIdle(s'.workers[w]) > 0 && s'.workers[w].id == pc.id
                  && (s'.workers[w].Record? ==> s'.workers[w].ref == FINE.ref))
  {
    hide NextRecords, NextListed, NextReapers, NextMarks, CallsOf, WorkPc, WorkStatement, StepsToIdle, IsJob;
    LaunchPc(cfg, s, j, s.workers[w]);
  }

  lemma LaunchPc(cfg: Config, s: State, j: Job, pc: Pc)
    requires Registered(j.prov) && StepsToIdle(pc) > 0 && (pc.Record? ==> pc.ref == FINE.ref)
    requires pc.id in s.tasks && IsJob(j, s.tasks[pc.id])
    ensures var pc' := WorkPc(cfg, s, pc, FINE);
            && StepsToIdle(pc') == StepsToIdle(pc) - 1
            && (if pc.Record? then pc'.Idle? else StepsToIdle(pc') > 0 && pc'.id == pc.id)
            && (pc'.Record? ==> pc'.ref == FINE.ref)
    ensures WorkStatement(s, pc, FINE) == if pc.Record? then UpdateRuntime(pc.id, FINE.ref) else Nothing
    ensures WorkHistory(s, pc, FINE).restarts == s.hist.restarts && !pc.Idle?
  {
  }

  lemma SlotKept(t: Tasks, t': Tasks, j: Job, id: TaskId)
    requires OnlyJobs(t, j) && id in t && InSlot(t[id].status) && IsJob(j, t[id])
    requires id in t' && t' == t[id := t'[id]] && InSlot(t'[id].status) && SameColumns(t[id], t'[id])
    ensures OnlyJobs(t', j) && Count(Everyone, t') == Count(Everyone, t) && IsJob(j, t'[id])
  {
    assert Occupying(Everyone, t') == Occupying(Everyone, t);
  }

  // ---- Filling up to one below the room with a single worker ----

  ghost predicate AllIdle(s: State) {
    forall w :: w in s.workers ==> s.workers[w].Idle?
  }

  /** Submit the next job and bring it to the conditional update. */
  lemma BringToCommit(cfg: Config, reg: Regime, s: State, j: Job, m: int, w: WorkerId, next: TaskId)
    returns (s': State)
    requires Takes(cfg, j.prov) && Registered(j.prov) && RoomFor(cfg, j, m)
    requires Quiet(s, next) && w in s.workers && s.workers[w].Idle? && OnlyJobs(s.tasks, j)
    requires Count(Everyone, s.tasks) < m
    ensures Reaches(cfg, reg, s, s')
    ensures s'.workers == s.workers[w := Commit(next)] && Quiet(s', next + 1) && OnlyJobs(s'.tasks, j)
    ensures next in s'.tasks && s'.tasks[next].status == Processing && IsJob(j, s'.tasks[next])
    ensures Count(Everyone, s'.tasks) == Count(Everyone, s.tasks)
  {
    hide Reaches, RoomFor, OnlyJobs, IsJob;
    var s1 := Enqueue(cfg, reg, s, j, w, next);
    s' := WalkToCommit(cfg, reg, s1, j, m, w);
    ReachesTrans(cfg, reg, s, s1, s');
  }

  lemma LaunchOne(cfg: Config, reg: Regime, s: State, j: Job, m: int, w: WorkerId, next: TaskId) returns (s': State)
    requires Takes(cfg, j.prov) && Registered(j.prov) && RoomFor(cfg, j, m)
    requires Quiet(s, next) && AllIdle(s) && w in s.workers && OnlyJobs(s.tasks, j) && Count(Everyone, s.tasks) < m
    ensures Reaches(cfg, reg, s, s')
    ensures Quiet(s', next + 1) && s'.workers == s.workers && OnlyJobs(s'.tasks, j)
    ensures Count(Everyone, s'.tasks) == Count(Everyone, s.tasks) + 1
  {
    hide Reaches, RoomFor, OnlyJobs, IsJob;
    var s1 := BringToCommit(cfg, reg, s, j, m, w, next);
    s' := CommitAndLaunch(cfg, reg, s1, j, w);
    ReachesTrans(cfg, reg, s, s1, s');
  }

  lemma CommitAndLaunch(cfg: Config, reg: Regime, s: State, j: Job, w: WorkerId) returns (s': State)
    requires Registered(j.prov) && w in s.workers && s.workers[w].Commit? && OnlyJobs(s.tasks, j)
    requires var id := s.workers[w].id; id in s.tasks && s.tasks[id].status == Processing && IsJob(j, s.tasks[id])
    ensures Reaches(cfg, reg, s, s')
    ensures var id := s.workers[w].id;
            && s'.workers == s.workers[w := Idle] && s'.tasks.Keys == s.tasks.Keys
            && (forall k :: k in s.tasks && k != id ==> s'.tasks[k] == s.tasks[k])
            && s'.tasks[id].status == Running && SameColumns(s.tasks[id], s'.tasks[id])
    ensures OnlyJobs(s'.tasks, j) && Count(Everyone, s'.tasks) == Count(Everyone, s.tasks) + 1
  {
    hide Reaches, OnlyJobs, IsJob, Occupying;
    var id := s.workers[w].id;
    var s1 := CommitNow(cfg, reg, s, j, w);
    JobKept(j, s.tasks[id], s1.tasks[id]);
    s' := WalkToIdle(cfg, reg, s1, j, w);
    ReachesTrans(cfg, reg, s, s1, s');
  }

  lemma JobKept(j: Job, r: Row, r': Row)
    requires IsJob(j, r) && SameColumns(r, r')
    ensures IsJob(j, r')
  {
  }

  lemma {:induction false} FillTo(
    cfg: Config, reg: Regime, s: State, j: Job, m: int, w: WorkerId, next: TaskId, goal: nat)
    returns (s': State, next': TaskId)
    requires Takes(cfg, j.prov) && Registered(j.prov) && RoomFor(cfg, j, m)
    requires Quiet(s, next) && AllIdle(s) && w in s.workers && OnlyJobs(s.tasks, j)
    requires Count(Everyone, s.tasks) <= goal < m
    ensures Reaches(cfg, reg, s, s')
    ensures Quiet(s', next') && s'.workers == s.workers && OnlyJobs(s'.tasks, j)
    ensures Count(Everyone, s'.tasks) == goal
    decreases goal - Count(Everyone, s.tasks)
  {
    hide Reaches, RoomFor, OnlyJobs, Quiet;
    if Count(Everyone, s.tasks) == goal {
      s', next' := s, next;
      ReachesSelf(cfg, reg, s);
    } else {
      var s1 := LaunchOne(cfg, reg, s, j, m, w, next);
      s', next' := FillTo(cfg, reg, s1, j, m, w, next + 1, goal);
      ReachesTrans(cfg, reg, s, s1, s');
    }
  }

  // ---- All workers read the same counts, then all commit ----

  ghost predicate BeforeItsCommit(s: State, j: Job, w: WorkerId) {
    && w in s.workers && s.workers[w].Commit? && s.workers[w].id in s.tasks
    && s.tasks[s.workers[w].id].status == Processing && IsJob(j, s.tasks[s.workers[w].id])
  }

  ghost predicate Apart(s: State, ws: set<WorkerId>) {
    forall v, w ::
      (v in ws && w in ws && v in s.workers && w in s.workers && v != w
       && s.workers[v].Commit? && s.workers[w].Commit?)
      ==> s.workers[v].id != s.workers[w].id
  }

  /** Workers outside `todo` stand before the commit of distinct processing rows. */
  ghost predicate Poised(s: State, j: Job, todo: set<WorkerId>) {
    && (forall w :: w in s.workers && w in todo ==> s.workers[w].Idle?)
    && (forall w :: w in s.workers && w !in todo ==> BeforeItsCommit(s, j, w))
    && Apart(s, s.workers.Keys - todo)
  }

  lemma {:induction false} PoiseAll(
    cfg: Config, reg: Regime, s: State, j: Job, m: int, todo: set<WorkerId>, next: TaskId) returns (s': State)
    requires Takes(cfg, j.prov) && Registered(j.prov) && RoomFor(cfg, j, m) && OnlyJobs(s.tasks, j)
    requires Quiet(s, next) && todo <= s.workers.Keys && Poised(s, j, todo)
    requires Count(Everyone, s.tasks) < m
    ensures Reaches(cfg, reg, s, s')
    ensures s'.workers.Keys == s.workers.Keys && Poised(s', j, {}) && OnlyJobs(s'.tasks, j)
    ensures Count(Everyone, s'.tasks) == Count(Everyone, s.tasks)
    decreases todo
  {
    hide Reaches, RoomFor, OnlyJobs, IsJob;
    if todo == {} {
      s' := s;
      ReachesSelf(cfg, reg, s);
    } else {
      var w :| w in todo;
      var s1 := Enqueue(cfg, reg, s, j, w, next);
      var s2 := WalkToCommit(cfg, reg, s1, j, m, w);
      ReachesTrans(cfg, reg, s, s1, s2);
      PoisedNext(s, s2, j, todo, w, next);
      s' := PoiseAll(cfg, reg, s2, j, m, todo - {w}, next + 1);
      ReachesTrans(cfg, reg, s, s2, s');
    }
  }

  lemma PoisedNext(s: State, s': State, j: Job, todo: set<WorkerId>, w: WorkerId, next: TaskId)
    requires Poised(s, j, todo) && Quiet(s, next) && w in todo && w in s.workers
    requires s'.workers == s.workers[w := Commit(next)] && next in s'.tasks
    requires forall id :: id in s.tasks ==> id in s'.tasks && s'.tasks[id] == s.tasks[id]
    requires s'.tasks[next].status == Processing && IsJob(j, s'.tasks[next])
    ensures Poised(s', j, todo - {w})
  {
    hide IsJob;
  }

  lemma {:induction false} CommitAll(cfg: Config, reg: Regime, s: State, j: Job, left: set<WorkerId>)
    returns (s': State)
    requires (forall w :: w in left ==> BeforeItsCommit(s, j, w)) && Apart(s, left) && OnlyJobs(s.tasks, j)
    ensures Reaches(cfg, reg, s, s') && OnlyJobs(s'.tasks, j)
    ensures Count(Everyone, s'.tasks) == Count(Everyone, s.tasks) + |left|
    decreases left
  {
    hide Reaches, OnlyJobs, IsJob;
    if left == {} {
      s' := s;
      ReachesSelf(cfg, reg, s);
    } else {
      var w :| w in left;
      var s1 := CommitNow(cfg, reg, s, j, w);
      s' := CommitAll(cfg, reg, s1, j, left - {w});
      ReachesTrans(cfg, reg, s, s1, s');
    }
  }

  /** With room for `m` jobs, some run has `m + workers - 1` of them in slots. */
  lemma RoomIsOverfilled(cfg: Config, reg: Regime, s0: State, j: Job, m: int) returns (s': State)
    requires Initial(s0) && |s0.workers| >= 1 && m >= 1
    requires Takes(cfg, j.prov) && Registered(j.prov) && RoomFor(cfg, j, m)
    ensures Reaches(cfg, reg, s0, s') && OnlyJobs(s'.tasks, j)
    ensures Count(Everyone, s'.tasks) == m + |s0.workers| - 1
  {
    hide Reaches, RoomFor, OnlyJobs, NextRecon, NextSweeps, NextListed, NextReapers, NextMarks, NextWorkers;
    hide WorkStatement, WorkPc, StartPc, StopPc, WorkCalls, WorkHistory, Legal, HolderFits, Rows, Holding, Watchers;
    hide Reapers, Requests, Counters, Quiet;
    assert s0.workers.Keys != {};
    var w :| w in s0.workers;
    NothingYet(s0, j);
    var s1, next := FillTo(cfg, reg, s0, j, m, w, 0, m - 1);
    var s2 := PoiseAll(cfg, reg, s1, j, m, s1.workers.Keys, next);
    ReachesTrans(cfg, reg, s0, s1, s2);
    s' := CommitAll(cfg, reg, s2, j, s2.workers.Keys);
    ReachesTrans(cfg, reg, s0, s2, s');
    assert |s2.workers.Keys| == |s0.workers|;
  }

  lemma NothingYet(s0: State, j: Job)
    requires Initial(s0)
    ensures OnlyJobs(s0.tasks, j) && Quiet(s0, 0) && forall g :: Count(g, s0.tasks) == 0
  {
    forall g ensures Count(g, s0.tasks) == 0 {
      assert Occupying(g, s0.tasks) == {};
    }
  }

  // ---- The peaks ----

  /** Slots that slow rows may fill by themselves, after both limits on them. */
  function SlowRoom(cfg: Config): int {
    if Cap(cfg, SlowCap) <= Cap(cfg, SlowReserve) then Cap(cfg, SlowCap) else Cap(cfg, SlowReserve)
  }

  /** Slots that GPU rows may fill: none unless the workers claim docker rows. */
  function GpuRoom(cfg: Config): int {
    if !Takes(cfg, Docker) then 0
    else if Cap(cfg, Gpu) <= Cap(cfg, Total) then Cap(cfg, Gpu) else Cap(cfg, Total)
  }

  /** The workers claim rows of some provider that exists. */
  predicate TakesWork(cfg: Config) {
    Takes(cfg, Docker) || Takes(cfg, K8s)
  }

  /** Slots that rows of the group may fill by themselves: none if the workers claim only rows of
      providers that do not exist, of which there are none. */
  function Room(cfg: Config, g: Group): int {
    if !TakesWork(cfg) then 0
    else match g
    case Everyone => Cap(cfg, Total)
    case FastOnes => Cap(cfg, Total)
    case SlowOnes => SlowRoom(cfg)
    case GpuOnes => GpuRoom(cfg)
  }

  function Peak(cfg: Config, g: Group, workers: nat): int {
    if Room(cfg, g) <= 0 then 0 else Room(cfg, g) + workers - 1
  }

  /** No run goes above the peak. */
  lemma {:induction false} NeverAbovePeak(cfg: Config, reg: Regime, s0: State, es: seq<Event>, g: Group)
    requires Initial(s0) && |s0.workers| >= 1 && IsRun(cfg, reg, s0, es)
    ensures Count(g, Exec(cfg, reg, s0, es).tasks) <= Peak(cfg, g, |s0.workers|)
  {
    hide IsRun, Exec, Count, GpuSlots.SlotLimit;
    var t := Exec(cfg, reg, s0, es).tasks;
    BoundedOvershoot(cfg, reg, Total, s0, es);
    FewerThanAll(t, g);
    if !TakesWork(cfg) {
      NothingServed(cfg, reg, s0, es);
    }
    match g
    case Everyone =>
    case FastOnes =>
    case SlowOnes =>
      BoundedOvershoot(cfg, reg, SlowCap, s0, es);
      BoundedOvershoot(cfg, reg, SlowReserve, s0, es);
    case GpuOnes =>
      BoundedOvershoot(cfg, reg, Gpu, s0, es);
      if !Takes(cfg, Docker) {
        NoDockerRows(cfg, reg, s0, es);
      }
  }

  /** A row that has left the queue is claimable, and its provider exists. */
  lemma {:induction false} ServedTakesWork(cfg: Config, reg: Regime, s0: State, es: seq<Event>, id: TaskId)
    requires Initial(s0) && IsRun(cfg, reg, s0, es)
    requires var t := Exec(cfg, reg, s0, es).tasks; id in t && t[id].status != Pending
    ensures TakesWork(cfg)
  {
    hide IsRun, Exec;
    InitialInv(s0);
    Fifo.ServedAreClaimableRun(cfg, reg, s0, es);
    Safety.ProvidersKnownRun(cfg, reg, s0, es);
  }

  lemma {:induction false} NothingServed(cfg: Config, reg: Regime, s0: State, es: seq<Event>)
    requires Initial(s0) && IsRun(cfg, reg, s0, es) && !TakesWork(cfg)
    ensures Count(Everyone, Exec(cfg, reg, s0, es).tasks) == 0
  {
    hide IsRun, Exec, TakesWork;
    forall id | id in Exec(cfg, reg, s0, es).tasks ensures Exec(cfg, reg, s0, es).tasks[id].status == Pending {
      if Exec(cfg, reg, s0, es).tasks[id].status != Pending {
        ServedTakesWork(cfg, reg, s0, es, id);
      }
    }
    assert Occupying(Everyone, Exec(cfg, reg, s0, es).tasks) == {};
  }

  lemma FewerThanAll(t: Tasks, g: Group)
    ensures Count(g, t) <= Count(Everyone, t)
  {
    SubsetCard(Occupying(g, t), Occupying(Everyone, t));
  }

  lemma {:induction false} NoDockerRows(cfg: Config, reg: Regime, s0: State, es: seq<Event>)
    requires Initial(s0) && IsRun(cfg, reg, s0, es) && !Takes(cfg, Docker)
    ensures Count(GpuOnes, Exec(cfg, reg, s0, es).tasks) == 0
  {
    InitialInv(s0);
    Fifo.ServedAreClaimableRun(cfg, reg, s0, es);
    assert Occupying(GpuOnes, Exec(cfg, reg, s0, es).tasks) == {};
  }

  lemma SomeProvider(cfg: Config) returns (p: Provider)
    requires TakesWork(cfg)
    ensures Takes(cfg, p) && Registered(p)
  {
    p := if Takes(cfg, Docker) then Docker else K8s;
  }

  /** An ordinary workload, and one that wants the GPU. */
  const PLAIN := Workload("{}", "busybox", "", "", "", 0)
  const GPU_WORK := PLAIN.(gpu := "1")

  /** A job that fills the room of the group. */
  lemma FittingJob(cfg: Config, g: Group) returns (j: Job)
    requires Room(cfg, g) > 0
    ensures Takes(cfg, j.prov) && Registered(j.prov) && JobBelongs(g, j) && RoomFor(cfg, j, Room(cfg, g))
  {
    var p := SomeProvider(cfg);
    match g
    case Everyone => j := Job(Fast, p, PLAIN);
    case FastOnes => j := Job(Fast, p, PLAIN);
    case SlowOnes => j := Job(Slow, p, PLAIN);
    case GpuOnes => j := Job(Fast, Docker, GPU_WORK);
  }

  /** Some run reaches the peak, even without faults. */
  lemma PeakIsReached(cfg: Config, reg: Regime, s0: State, g: Group) returns (s': State)
    requires Initial(s0) && |s0.workers| >= 1
    ensures Reaches(cfg, reg, s0, s') && Count(g, s'.tasks) == Peak(cfg, g, |s0.workers|)
  {
    hide Reaches, RoomFor, OnlyJobs, JobBelongs, Room;
    if Room(cfg, g) <= 0 {
      s' := s0;
      ReachesSelf(cfg, reg, s0);
      NothingYet(s0, Job(Fast, Docker, PLAIN));
    } else {
      var j := FittingJob(cfg, g);
      s' := RoomIsOverfilled(cfg, reg, s0, j, Room(cfg, g));
      CountsOfJobs(s'.tasks, j, g);
    }
  }

  /** At most `n` rows of the group hold slots, in every run of every regime. */
  ghost predicate AlwaysAtMost(cfg: Config, s0: State, g: Group, n: int) {
    forall reg, s :: Reaches(cfg, reg, s0, s) ==> Count(g, s.tasks) <= n
  }

  /** A bound on a group is an invariant exactly if the peak is within it. */
  lemma InvariantIffPeakWithin(cfg: Config, s0: State, g: Group, n: int)
    requires Initial(s0) && |s0.workers| >= 1
    ensures AlwaysAtMost(cfg, s0, g, n) <==> Peak(cfg, g, |s0.workers|) <= n
  {
    hide IsRun, Exec, Count, Peak;
    if Peak(cfg, g, |s0.workers|) <= n {
      forall reg, s | Reaches(cfg, reg, s0, s) ensures Count(g, s.tasks) <= n {
        var es :| IsRun(cfg, reg, s0, es) && Exec(cfg, reg, s0, es) == s;
        NeverAbovePeak(cfg, reg, s0, es, g);
      }
    } else {
      var s := PeakIsReached(cfg, ANYTHING, s0, g);
    }
  }

  // ---- The documented limits, in configuration terms ----

  /** "At most `max_concurrent_running` slots are occupied", in the configured number, holds exactly
      with one worker and a limit of at least 1, or if nothing is ever claimed. */
  lemma TotalLimitHoldsIff(cfg: Config, s0: State)
    requires Initial(s0) && |s0.workers| >= 1
    ensures AlwaysAtMost(cfg, s0, Everyone, cfg.maxRunning) <==>
      (cfg.maxRunning >= 1 && |s0.workers| == 1) || (cfg.maxRunning >= 0 && !TakesWork(cfg))
  {
    InvariantIffPeakWithin(cfg, s0, Everyone, cfg.maxRunning);
  }

  /** "At most `max_concurrent_slow` slow tasks hold slots", in the configured number, holds exactly
      if that is not negative and slow tasks never get in, or the reserve leaves the other workers'
      overshoot below it. */
  lemma SlowLimitHoldsIff(cfg: Config, s0: State)
    requires Initial(s0) && |s0.workers| >= 1
    ensures AlwaysAtMost(cfg, s0, SlowOnes, cfg.maxSlow) <==>
      && cfg.maxSlow >= 0
      && (!TakesWork(cfg) || SlowRoom(cfg) <= 0 || SlowRoom(cfg) + |s0.workers| - 1 <= cfg.maxSlow)
  {
    InvariantIffPeakWithin(cfg, s0, SlowOnes, cfg.maxSlow);
  }

  /** "Slow tasks leave `min_free_slots_for_fast` slots" holds exactly if there are that many, and
      slow tasks never get in or the slow limit leaves room for the overshoot. */
  lemma ReserveHoldsIff(cfg: Config, s0: State)
    requires Initial(s0) && |s0.workers| >= 1
    ensures var others := AtLeast(cfg.maxRunning, 1) - AtLeast(cfg.minFree, 0);
            AlwaysAtMost(cfg, s0, SlowOnes, others) <==>
              && others >= 0
              && (!TakesWork(cfg) || SlowRoom(cfg) <= 0 || SlowRoom(cfg) + |s0.workers| - 1 <= others)
  {
    InvariantIffPeakWithin(cfg, s0, SlowOnes, AtLeast(cfg.maxRunning, 1) - AtLeast(cfg.minFree, 0));
  }

  /** "No device is charged beyond its multiplicity" holds exactly if no GPU task gets in, or the
      total limit keeps the overshoot below the least multiplicity. */
  lemma GpuLimitHoldsIff(cfg: Config, s0: State)
    requires Initial(s0) && |s0.workers| >= 1
    ensures AlwaysAtMost(cfg, s0, GpuOnes, GpuSlots.SlotLimit(cfg.gpuIDs)) <==>
      GpuRoom(cfg) == 0 || GpuRoom(cfg) + |s0.workers| - 1 <= GpuSlots.SlotLimit(cfg.gpuIDs)
  {
    InvariantIffPeakWithin(cfg, s0, GpuOnes, GpuSlots.SlotLimit(cfg.gpuIDs));
  }
}
