/** Everything that writes to the task table, as one state machine.  A step is one database
    call (the admission transaction contributes one step per statement, its conditional update
    taking effect at commit) or one provider call; the background processes' provider calls are
    taken together with the database call beside them, with which they commute.  Steps of different processes interleave
    freely, any process may die between two steps, and any database call may fail. */
module Machine {
  import opened Model
  import opened Table
  import opened Providers
  import GpuSlots
  import Scheduler

  type WorkerId = nat
  type ProcId = nat

  /** Where a worker stands in `Run`, `Dispatch`, `executeStart` and `executeStop`: the call it
      is about to make, with the locals it still needs. */
  datatype Pc =
    | Idle
    | Claimed(id: TaskId)                                   // Dispatch: Get
    | Begin(id: TaskId)                                     // transaction: Get
    | CountTotal(id: TaskId)
    | CountFast(id: TaskId, total: int)
    | CountSlow(id: TaskId, total: int, fast: int)          // then Admit
    | CheckGpu(id: TaskId)
    | Commit(id: TaskId)                                    // processing -> admitted
    | Refused(id: TaskId)                                   // ResetToPending
    | Reload(id: TaskId)                                    // Get, provider lookup
    | Precheck(id: TaskId)                                  // ResourceCheck
    | Launch(id: TaskId)                                    // Run
    | Record(id: TaskId, ref: string)                       // UpdateRuntime
    | MarkFailed(id: TaskId)
    | StopLoad(id: TaskId)                                  // Get target
    | StopCall(id: TaskId, target: TaskId, row: Row)        // Stop
    | StopTarget(id: TaskId, target: TaskId, row: Row)      // target -> stopped
    | StopSucceed(id: TaskId, target: TaskId, row: Row)     // own row -> succeeded
    | StopFail(id: TaskId, target: TaskId, before: Option<Status>)
    | StopRec(id: TaskId, rec: StopRecord)                  // writeStopRec

  /** What the outside world answers to a call: whether the database call went through, whether
      the provider reported success, and the reference `Run` returned. */
  datatype Outcome = Outcome(db: bool, prov: bool, ref: string)

  /** A restart request of a running or admitted task, between its inserts. */
  datatype Request =
    | RestartStop(orig: TaskId, row: Row)
    | RestartClone(orig: TaskId, stop: TaskId, row: Row)

  datatype Restart = Restart(orig: TaskId, stop: TaskId, clone: TaskId)

  /** A runtime sweep: the rows still to visit, the time the scan began, and the row whose
      reference has been cleared but whose status has not been written yet. */
  datatype Sweep = Sweep(snap: Tasks, at: int, cur: Option<TaskId>)

  /** An orphan reaper: first probe, `left` further probes to go, about to stop, about to
      clear the reference. */
  datatype Reaper = Probe | Watch(left: nat) | Halt | Wipe

  /** What a stop row read of its target. */
  datatype Read = Read(target: TaskId, status: Status)

  /** Facts about the past that no column keeps. */
  datatype History = History(
    admits: multiset<TaskId>,        // commits of processing -> admitted
    launches: multiset<TaskId>,      // calls of Run
    seen: map<TaskId, Read>,         // by stop row
    stopErrs: set<TaskId>,           // stop rows whose provider Stop failed
    restartStops: map<TaskId, TaskId>,  // stop rows queued by a restart, with their original
    restarts: set<Restart>,
    polls: multiset<WorkerId>,       // calls of ClaimNext
    crashes: multiset<WorkerId>,     // deaths of a worker
    deaths: multiset<ProcId>)        // deaths of a background process

  /** The listing queries. */
  datatype Query = DockerSlotRows | SlotRows | RunningWithRef | TerminalWithRef

  /** A call to the outside and whether it went through: a provider call about a row, or a
      database call.  A `Status` that fails counts as seeing nothing known. */
  datatype Call =
    | Checked(id: TaskId, ok: bool)
    | Ran(id: TaskId, started: Option<string>)
    | AskedToStop(id: TaskId, ok: bool)
    | Looked(id: TaskId, phase: Phase)
    | Wrote(stmt: Statement, ok: bool)
    | Filed(rec: StopRecord, ok: bool)
    | Fetched(id: TaskId, ok: bool)
    | Counted(g: Group, ok: bool)
    | Queried(q: Query, ok: bool)
    | Polled(w: WorkerId, found: Option<TaskId>, ok: bool)

  datatype State = State(
    tasks: Tasks,
    records: seq<StopRecord>,
    calls: seq<Call>,
    now: int,
    workers: map<WorkerId, Pc>,
    requests: map<ProcId, Request>,
    recon: map<ProcId, Tasks>,
    sweeps: map<ProcId, Sweep>,
    listed: map<ProcId, set<TaskId>>,
    reapers: map<(ProcId, TaskId), Reaper>,
    marks: set<(ProcId, TaskId)>,
    hist: History)

  datatype Event =
    | Claim(w: WorkerId, locked: set<TaskId>, picked: TaskId)
    | Pass(w: WorkerId, locked: set<TaskId>, db: bool)
    | Work(w: WorkerId, o: Outcome)
    | Crash(w: WorkerId)
    | Submit(id: TaskId, op: Op, target: Option<TaskId>, cls: Class, prov: Provider, work: Workload, stamp: int)
    | RestartBegin(q: ProcId, orig: TaskId)
    | RestartInsertStop(q: ProcId, id: TaskId, stamp: int)
    | RestartInsertClone(q: ProcId, id: TaskId, stamp: int)
    | RequestDies(q: ProcId)
    | ReconList(p: ProcId, db: bool)
    | ReconItem(p: ProcId, id: TaskId, phase: Phase, db: bool)
    | SweepList(p: ProcId, db: bool)
    | SweepSkip(p: ProcId, id: TaskId)
    | SweepClear(p: ProcId, id: TaskId, stopped: bool, db: bool)
    | SweepFail(p: ProcId, db: bool)
    | SweepEnd(p: ProcId)
    | AdmittedSweep(before: int)
    | OrphanList(p: ProcId, db: bool)
    | OrphanSpawn(p: ProcId, id: TaskId)
    | Reap(p: ProcId, id: TaskId, phase: Phase, stopped: bool, db: bool)
    | Unmark(p: ProcId, id: TaskId)
    | ProcDies(p: ProcId)
    | NoEffect(c: Call)
    | Advance(to: int)

  // ---- Rules of the collaborators ----

  /** Docker's `Stop` has nothing to do without a reference; the k8s stub always succeeds. */
  predicate StopSucceeds(r: Row, o: Outcome) {
    r.prov.K8s? || r.ref == "" || o.prov
  }

  const NANOS_PER_SECOND := 1_000_000_000
  const MAX_INT64 := 0x7FFF_FFFF_FFFF_FFFF

  function EffectiveMaxRuntime(maxRuntime: int, default: int): int {
    if maxRuntime < 0 then -1 else if maxRuntime > 0 then maxRuntime else default
  }

  /** `time.Duration(limit) * time.Second` in 64-bit arithmetic. */
  function WrapInt64(x: int): int {
    var m := x % 0x1_0000_0000_0000_0000;
    if m > MAX_INT64 then m - 0x1_0000_0000_0000_0000 else m
  }

  function AdmittedTimeout(cfg: Config): int {
    WrapInt64(cfg.admittedTimeout * NANOS_PER_SECOND)
  }

  /** `Time.Sub`, which saturates. */
  function Elapsed(from: int, to: int): int {
    var d := to - from;
    if d > MAX_INT64 then MAX_INT64 else if d < -MAX_INT64 - 1 then -MAX_INT64 - 1 else d
  }

  /** The sweeper's test on a listed row. */
  predicate Overdue(cfg: Config, r: Row, now: int) {
    var limit := EffectiveMaxRuntime(r.work.maxRuntime, cfg.defaultMaxRuntime);
    var start := match r.runningAt case Some(t) => t case None => r.updatedAt;
    limit > 0 && Elapsed(start, now) >= WrapInt64(limit * NANOS_PER_SECOND)
  }

  function NewRow(op: Op, target: Option<TaskId>, cls: Class, prov: Provider, work: Workload, stamp: int): Row {
    Row(op, target, cls, prov, work, Pending, "", None, stamp, stamp)
  }

  /** `business` falls back to an empty JSON object. */
  function Filled(work: Workload): Workload {
    work.(business := if work.business == "" then "{}" else work.business)
  }

  const BARE := Workload("{}", "", "", "", "", 0)

  // ---- Steps: the statement issued, and where every process stands afterwards ----

  function WorkStatement(s: State, pc: Pc, o: Outcome): Statement {
    if !o.db then Nothing
    else match pc
      case Commit(id) => Cas(id, Processing, Admitted)
      case Refused(id) => Cas(id, Processing, Pending)
      case Record(id, ref) => UpdateRuntime(id, ref)
      case MarkFailed(id) => UpdateStatus(id, Failed)
      case StopTarget(_, target, _) => UpdateStatus(target, Stopped)
      case StopSucceed(id, _, _) => UpdateStatus(id, Succeeded)
      case StopFail(id, _, _) => UpdateStatus(id, Failed)
      case _ => Nothing
  }

  /** `Dispatch` and the first read of the admission transaction insist on `processing`. */
  predicate StillProcessing(s: State, o: Outcome, id: TaskId) {
    o.db && id in s.tasks && s.tasks[id].status == Processing
  }

  function StartPc(cfg: Config, s: State, pc: Pc, o: Outcome): Pc {
    match pc
    case Claimed(id) =>
      if !StillProcessing(s, o, id) then Idle
      else if s.tasks[id].op.Stop? then StopLoad(id) else Begin(id)
    case Begin(id) => if StillProcessing(s, o, id) then CountTotal(id) else Idle
    case CountTotal(id) => if o.db then CountFast(id, Count(Everyone, s.tasks)) else Idle
    case CountFast(id, total) => if o.db then CountSlow(id, total, Count(FastOnes, s.tasks)) else Idle
    case CountSlow(id, total, fast) =>
      if !o.db || id !in s.tasks then Idle
      else
        var r := s.tasks[id];
        var counts := Scheduler.Counts(total, fast, Count(SlowOnes, s.tasks));
        if !Scheduler.Admit(cfg, r.op, r.cls, counts).Accept? then Refused(id)
        else if r.prov.Docker? then CheckGpu(id) else Commit(id)
    case CheckGpu(id) =>
      if !o.db || id !in s.tasks then Idle
      else if GpuFits(cfg, s, id) then Commit(id) else Refused(id)
    case Commit(id) => if StillProcessing(s, o, id) then Reload(id) else Idle
    case Reload(id) =>
      if !o.db || id !in s.tasks then Idle
      else if Registered(s.tasks[id].prov) then Precheck(id) else MarkFailed(id)
    case Precheck(id) => if o.prov then Launch(id) else MarkFailed(id)
    case Launch(id) => if o.prov then Record(id, o.ref) else MarkFailed(id)
    case _ => Idle
  }

  /** The occupancy check with the candidate added. */
  predicate GpuFits(cfg: Config, s: State, id: TaskId)
    requires id in s.tasks
  {
    Count(GpuOnes, s.tasks) + (if WantsGPU(s.tasks[id].work.gpu) then 1 else 0) <= GpuSlots.SlotLimit(cfg.gpuIDs)
  }

  function StopPc(s: State, pc: Pc, o: Outcome): Pc {
    match pc
    case StopLoad(id) =>
      if id !in s.tasks || s.tasks[id].target.None? then Idle
      else
        var target := s.tasks[id].target.value;
        if !o.db || target !in s.tasks then StopFail(id, target, None)
        else
          var row := s.tasks[target];
          if Stoppable(s.tasks[id], row) then StopCall(id, target, row)
          else StopFail(id, target, Some(row.status))
    case StopCall(id, target, row) =>
      if StopSucceeds(row, o) then StopTarget(id, target, row) else StopFail(id, target, Some(row.status))
    case StopTarget(id, target, row) =>
      if o.db then StopSucceed(id, target, row) else StopFail(id, target, Some(row.status))
    case StopSucceed(id, target, row) =>
      if o.db then StopRec(id, StopRecord(id, target, Some(row.status), true)) else Idle
    case StopFail(id, target, before) => StopRec(id, StopRecord(id, target, before, false))
    case _ => Idle
  }

  /** The checks `executeStop` makes on the row it read. */
  predicate Stoppable(own: Row, target: Row) {
    target.op.Start? && InSlot(target.status) && own.prov == target.prov && Registered(target.prov)
  }

  predicate IsStopPc(pc: Pc) {
    pc.StopLoad? || pc.StopCall? || pc.StopTarget? || pc.StopSucceed? || pc.StopFail? || pc.StopRec?
  }

  function WorkPc(cfg: Config, s: State, pc: Pc, o: Outcome): Pc {
    if IsStopPc(pc) then StopPc(s, pc, o) else StartPc(cfg, s, pc, o)
  }

  function WorkHistory(s: State, pc: Pc, o: Outcome): History {
    match pc
    case Commit(id) =>
      if StillProcessing(s, o, id) then s.hist.(admits := s.hist.admits + multiset{id}) else s.hist
    case Launch(id) => s.hist.(launches := s.hist.launches + multiset{id})
    case StopLoad(id) =>
      if o.db && id in s.tasks && s.tasks[id].target.Some? && s.tasks[id].target.value in s.tasks then
        var target := s.tasks[id].target.value;
        s.hist.(seen := s.hist.seen[id := Read(target, s.tasks[target].status)])
      else s.hist
    case StopCall(id, _, row) =>
      if StopSucceeds(row, o) then s.hist else s.hist.(stopErrs := s.hist.stopErrs + {id})
    case _ => s.hist
  }

  predicate Fresh(s: State, id: TaskId) {
    id !in s.tasks
  }

  /** A pending row the worker's provider filter lets through. */
  predicate Waiting(cfg: Config, t: Tasks, id: TaskId) {
    id in t && t[id].status == Pending && Claimable(cfg, t[id])
  }

  /** The claim query: the oldest waiting row that no concurrent claim has locked. */
  predicate Oldest(cfg: Config, t: Tasks, locked: set<TaskId>, id: TaskId) {
    && Waiting(cfg, t, id) && id !in locked
    && forall j :: j in t && j !in locked && Waiting(cfg, t, j) ==> t[id].createdAt <= t[j].createdAt
  }

  /** The other workers that may be in the middle of a claim. */
  function OtherIdle(s: State, w: WorkerId): set<WorkerId> {
    set v | v in s.workers && v != w && s.workers[v].Idle?
  }

  /** Rows locked by concurrent claims: a claim locks one row, the one it is about to take. */
  predicate Lockable(s: State, w: WorkerId, locked: set<TaskId>) {
    |locked| <= |OtherIdle(s, w)|
  }

  /** A call that changes nothing here: a read outside a worker's turn, or a failing insert or
      admitted sweep. */
  predicate Harmless(c: Call) {
    c.Fetched? || (c.Wrote? && !c.ok && (c.stmt.Create? || c.stmt.RevertAdmittedStuck?))
  }

  predicate Enabled(cfg: Config, s: State, e: Event) {
    match e
    case Claim(w, locked, picked) =>
      && w in s.workers && s.workers[w].Idle? && Lockable(s, w, locked)
      && Oldest(cfg, s.tasks, locked, picked)
    case Pass(w, locked, db) =>
      && w in s.workers && s.workers[w].Idle? && Lockable(s, w, locked)
      && (db ==> forall j :: j in s.tasks && j !in locked ==> !Waiting(cfg, s.tasks, j))
    case Work(w, o) => w in s.workers && !s.workers[w].Idle?
    case Crash(w) => w in s.workers
    case Submit(id, op, target, cls, prov, work, stamp) =>
      Fresh(s, id) && Registered(prov) && (op.Stop? ==> target.Some?)
    case RestartBegin(q, orig) =>
      q !in s.requests && orig in s.tasks && Occupies(s.tasks[orig])
    case RestartInsertStop(q, id, stamp) =>
      && q in s.requests && s.requests[q].RestartStop? && Fresh(s, id)
      && Registered(s.requests[q].row.prov)
    case RestartInsertClone(q, id, stamp) =>
      q in s.requests && s.requests[q].RestartClone? && Fresh(s, id)
    case RequestDies(q) => q in s.requests
    case ReconList(p, db) => cfg.reconcile
    case ReconItem(p, id, phase, db) =>
      p in s.recon && id in s.recon[p] && CanReport(s.recon[p][id], phase)
    case SweepList(p, db) => cfg.runtimeSweep && p !in s.sweeps
    case SweepSkip(p, id) =>
      && p in s.sweeps && s.sweeps[p].cur.None? && id in s.sweeps[p].snap
      && !(Overdue(cfg, s.sweeps[p].snap[id], s.sweeps[p].at) && Registered(s.sweeps[p].snap[id].prov))
    case SweepClear(p, id, stopped, db) =>
      && p in s.sweeps && s.sweeps[p].cur.None? && id in s.sweeps[p].snap
      && Overdue(cfg, s.sweeps[p].snap[id], s.sweeps[p].at) && Registered(s.sweeps[p].snap[id].prov)
    case SweepFail(p, db) => p in s.sweeps && s.sweeps[p].cur.Some?
    case SweepEnd(p) => p in s.sweeps && s.sweeps[p].cur.None? && s.sweeps[p].snap == map[]
    case AdmittedSweep(before) => cfg.admittedTimeout > 0 && before <= s.now - AdmittedTimeout(cfg)
    case OrphanList(p, db) => cfg.reapOrphans
    case OrphanSpawn(p, id) => p in s.listed && id in s.listed[p]
    case Reap(p, id, phase, stopped, db) =>
      (p, id) in s.reapers && (id in s.tasks ==> CanReport(s.tasks[id], phase))
    case Unmark(p, id) => (p, id) !in s.reapers
    case ProcDies(p) => true
    case NoEffect(c) => Harmless(c)
    case Advance(to) => to >= s.now
  }

  /** What a reaper does with the phase it sees. */
  function ReapNext(cfg: Config, r: Reaper, docker: bool, phase: Phase): Option<Reaper> {
    if r.Halt? then Some(Wipe)
    else if r.Wipe? || !docker then None
    else if phase.PhaseRunning? then
      var left := if r.Probe? then |cfg.waits| else if r.left > 0 then r.left - 1 else 0;
      Some(if left == 0 then Halt else Watch(left))
    else if Gone(phase) then Some(Wipe)
    else None
  }

  /** The statement an event issues. */
  function StatementOf(s: State, e: Event): Statement {
    match e
    case Claim(_, _, id) => Cas(id, Pending, Processing)
    case Work(w, o) => if w in s.workers then WorkStatement(s, s.workers[w], o) else Nothing
    case Submit(id, op, target, cls, prov, work, stamp) =>
      Create(id, NewRow(op, target, cls, prov, Filled(work), stamp))
    case RestartInsertStop(q, id, stamp) =>
      if q in s.requests then
        var r := s.requests[q];
        Create(id, NewRow(Stop, Some(r.orig), r.row.cls, r.row.prov, BARE, stamp))
      else Nothing
    case RestartInsertClone(q, id, stamp) =>
      if q in s.requests then
        var r := s.requests[q];
        Create(id, NewRow(Start, None, r.row.cls, r.row.prov, Filled(r.row.work), stamp))
      else Nothing
    case ReconItem(p, id, phase, db) =>
      if db && p in s.recon && id in s.recon[p] && Registered(s.recon[p][id].prov) && Gone(phase) then
        UpdateStatus(id, PhaseStatus(phase))
      else Nothing
    case SweepClear(_, id, _, db) => if db then ClearRuntimeRef(id) else Nothing
    case SweepFail(p, db) =>
      if db && p in s.sweeps && s.sweeps[p].cur.Some? then UpdateStatus(s.sweeps[p].cur.value, Failed) else Nothing
    case AdmittedSweep(before) => RevertAdmittedStuck(before)
    case Reap(p, id, _, _, db) =>
      if db && (p, id) in s.reapers && s.reapers[(p, id)].Wipe? then ClearRuntimeRef(id) else Nothing
    case _ => Nothing
  }

  function NextWorkers(cfg: Config, s: State, e: Event): map<WorkerId, Pc> {
    match e
    case Claim(w, _, id) => s.workers[w := Claimed(id)]
    case Work(w, o) => if w in s.workers then s.workers[w := WorkPc(cfg, s, s.workers[w], o)] else s.workers
    case Crash(w) => s.workers[w := Idle]
    case _ => s.workers
  }

  function NextRecords(s: State, e: Event): seq<StopRecord> {
    match e
    case Work(w, o) =>
      if o.db && w in s.workers && s.workers[w].StopRec? then s.records + [s.workers[w].rec] else s.records
    case _ => s.records
  }

  function WorkCalls(s: State, pc: Pc, o: Outcome): seq<Call> {
    match pc
    case Idle => []
    case Claimed(id) => [Fetched(id, o.db)]
    case Begin(id) => [Fetched(id, o.db)]
    case CountTotal(_) => [Counted(Everyone, o.db)]
    case CountFast(_, _) => [Counted(FastOnes, o.db)]
    case CountSlow(_, _, _) => [Counted(SlowOnes, o.db)]
    case CheckGpu(_) => [Queried(DockerSlotRows, o.db)]
    case Commit(id) => [Wrote(Cas(id, Processing, Admitted), o.db)]
    case Refused(id) => [Wrote(Cas(id, Processing, Pending), o.db)]
    case Reload(id) => [Fetched(id, o.db)]
    case Precheck(id) => [Checked(id, o.prov)]
    case Launch(id) => [Ran(id, if o.prov then Some(o.ref) else None)]
    case Record(id, ref) => [Wrote(UpdateRuntime(id, ref), o.db)]
    case MarkFailed(id) => [Wrote(UpdateStatus(id, Failed), o.db)]
    case StopLoad(id) =>
      if id in s.tasks && s.tasks[id].target.Some? then [Fetched(s.tasks[id].target.value, o.db)] else []
    case StopCall(_, target, row) => [AskedToStop(target, StopSucceeds(row, o))]
    case StopTarget(_, target, _) => [Wrote(UpdateStatus(target, Stopped), o.db)]
    case StopSucceed(id, _, _) => [Wrote(UpdateStatus(id, Succeeded), o.db)]
    case StopFail(id, _, _) => [Wrote(UpdateStatus(id, Failed), o.db)]
    case StopRec(_, rec) => [Filed(rec, o.db)]
  }

  function ReapCalls(r: Reaper, id: TaskId, phase: Phase, stopped: bool, db: bool): seq<Call> {
    if r.Wipe? then [Wrote(ClearRuntimeRef(id), db)]
    else if !db then [Fetched(id, false)]
    else if r.Halt? then [Fetched(id, true), AskedToStop(id, stopped)]
    else [Fetched(id, true), Looked(id, phase)]
  }

  function ReconCalls(r: Row, id: TaskId, phase: Phase, db: bool): seq<Call> {
    if !Registered(r.prov) then []
    else if Gone(phase) then [Looked(id, phase), Wrote(UpdateStatus(id, PhaseStatus(phase)), db)]
    else [Looked(id, phase)]
  }

  /** The calls an event makes, failed ones included. */
  function CallsOf(s: State, e: Event): seq<Call> {
    match e
    case Claim(w, _, id) => [Polled(w, Some(id), true)]
    case Pass(w, _, db) => [Polled(w, None, db)]
    case Work(w, o) => if w in s.workers then WorkCalls(s, s.workers[w], o) else []
    case Submit(_, _, _, _, _, _, _) => [Wrote(StatementOf(s, e), true)]
    case RestartBegin(_, orig) => [Fetched(orig, true)]
    case RestartInsertStop(_, _, _) => [Wrote(StatementOf(s, e), true)]
    case RestartInsertClone(_, _, _) => [Wrote(StatementOf(s, e), true)]
    case ReconList(_, db) => [Queried(SlotRows, db)]
    case ReconItem(p, id, phase, db) =>
      if p in s.recon && id in s.recon[p] then ReconCalls(s.recon[p][id], id, phase, db) else []
    case SweepList(_, db) => [Queried(RunningWithRef, db)]
    case SweepClear(_, id, stopped, db) => [AskedToStop(id, stopped), Wrote(ClearRuntimeRef(id), db)]
    case SweepFail(p, db) =>
      if p in s.sweeps && s.sweeps[p].cur.Some? then [Wrote(UpdateStatus(s.sweeps[p].cur.value, Failed), db)] else []
    case AdmittedSweep(before) => [Wrote(RevertAdmittedStuck(before), true)]
    case OrphanList(_, db) => [Queried(TerminalWithRef, db)]
    case Reap(p, id, phase, stopped, db) =>
      if (p, id) in s.reapers then ReapCalls(s.reapers[(p, id)], id, phase, stopped, db) else []
    case NoEffect(c) => [c]
    case _ => []
  }

  function Logged(calls: seq<Call>, more: seq<Call>): seq<Call> {
    if more == [] then calls else calls + more
  }

  function NextRequests(s: State, e: Event): map<ProcId, Request> {
    match e
    case RestartBegin(q, orig) =>
      if orig in s.tasks then s.requests[q := RestartStop(orig, s.tasks[orig])] else s.requests
    case RestartInsertStop(q, id, _) =>
      if q in s.requests then s.requests[q := RestartClone(s.requests[q].orig, id, s.requests[q].row)] else s.requests
    case RestartInsertClone(q, _, _) => s.requests - {q}
    case RequestDies(q) => s.requests - {q}
    case _ => s.requests
  }

  function NextRecon(s: State, e: Event): map<ProcId, Tasks> {
    match e
    case ReconList(p, db) =>
      if db then s.recon[p := map id | id in s.tasks && Occupies(s.tasks[id]) :: s.tasks[id]] else s.recon
    case ReconItem(p, id, _, _) => if p in s.recon then s.recon[p := s.recon[p] - {id}] else s.recon
    case ProcDies(p) => s.recon - {p}
    case _ => s.recon
  }

  function NextSweeps(s: State, e: Event): map<ProcId, Sweep> {
    match e
    case SweepList(p, db) =>
      if db then
        s.sweeps[p := Sweep(map id | id in s.tasks && SweepListed(s.tasks[id]) :: s.tasks[id], s.now, None)]
      else s.sweeps
    case SweepSkip(p, id) =>
      if p in s.sweeps then s.sweeps[p := s.sweeps[p].(snap := s.sweeps[p].snap - {id})] else s.sweeps
    case SweepClear(p, id, _, _) =>
      if p in s.sweeps then s.sweeps[p := s.sweeps[p].(snap := s.sweeps[p].snap - {id}, cur := Some(id))] else s.sweeps
    case SweepFail(p, _) => if p in s.sweeps then s.sweeps[p := s.sweeps[p].(cur := None)] else s.sweeps
    case SweepEnd(p) => s.sweeps - {p}
    case ProcDies(p) => s.sweeps - {p}
    case _ => s.sweeps
  }

  function NextListed(s: State, e: Event): map<ProcId, set<TaskId>> {
    match e
    case OrphanList(p, db) =>
      if db then s.listed[p := set id | id in s.tasks && OrphanListed(s.tasks[id])] else s.listed
    case OrphanSpawn(p, id) => if p in s.listed then s.listed[p := s.listed[p] - {id}] else s.listed
    case ProcDies(p) => s.listed - {p}
    case _ => s.listed
  }

  function NextReapers(cfg: Config, s: State, e: Event): map<(ProcId, TaskId), Reaper> {
    match e
    case OrphanSpawn(p, id) => if (p, id) in s.marks then s.reapers else s.reapers[(p, id) := Probe]
    case Reap(p, id, phase, _, db) =>
      var r := if db && id in s.tasks && (p, id) in s.reapers
               then ReapNext(cfg, s.reapers[(p, id)], s.tasks[id].prov.Docker?, phase) else None;
      if r.Some? then s.reapers[(p, id) := r.value] else s.reapers - {(p, id)}
    case ProcDies(p) => map k | k in s.reapers && k.0 != p :: s.reapers[k]
    case _ => s.reapers
  }

  /** The rows a process has a reaper in flight for. */
  function NextMarks(s: State, e: Event): set<(ProcId, TaskId)> {
    match e
    case OrphanSpawn(p, id) => s.marks + {(p, id)}
    case Unmark(p, id) => s.marks - {(p, id)}
    case ProcDies(p) => set k | k in s.marks && k.0 != p
    case _ => s.marks
  }

  function NextHistory(s: State, e: Event): History {
    match e
    case Claim(w, _, _) => s.hist.(polls := s.hist.polls + multiset{w})
    case Pass(w, _, _) => s.hist.(polls := s.hist.polls + multiset{w})
    case Work(w, o) => if w in s.workers then WorkHistory(s, s.workers[w], o) else s.hist
    case Crash(w) => s.hist.(crashes := s.hist.crashes + multiset{w})
    case RestartInsertStop(q, id, _) =>
      if q in s.requests then s.hist.(restartStops := s.hist.restartStops[id := s.requests[q].orig]) else s.hist
    case RestartInsertClone(q, id, _) =>
      if q in s.requests && s.requests[q].RestartClone? then
        s.hist.(restarts := s.hist.restarts + {Restart(s.requests[q].orig, s.requests[q].stop, id)})
      else s.hist
    case ProcDies(p) => s.hist.(deaths := s.hist.deaths + multiset{p})
    case _ => s.hist
  }

  function Next(cfg: Config, s: State, e: Event): State {
    State(
      Apply(s.tasks, StatementOf(s, e), s.now),
      NextRecords(s, e),
      Logged(s.calls, CallsOf(s, e)),
      if e.Advance? then e.to else s.now,
      NextWorkers(cfg, s, e),
      NextRequests(s, e),
      NextRecon(s, e),
      NextSweeps(s, e),
      NextListed(s, e),
      NextReapers(cfg, s, e),
      NextMarks(s, e),
      NextHistory(s, e))
  }

  // ---- Runs ----

  const NO_HISTORY := History(
    multiset{}, multiset{}, map[], {}, map[], {}, multiset{}, multiset{}, multiset{})

  /** `workers` idle workers and an empty table. */
  predicate Initial(s: State) {
    && s.tasks == map[] && s.records == [] && s.calls == [] && s.requests == map[]
    && s.recon == map[] && s.sweeps == map[] && s.listed == map[] && s.reapers == map[]
    && s.marks == {} && s.hist == NO_HISTORY
    && forall w :: w in s.workers ==> s.workers[w].Idle?
  }

  /** Which events a run may contain. */
  datatype Regime = Regime(faults: bool, growingStamps: bool)

  /** Neither crashes nor failing database calls; providers may still report errors. */
  predicate FaultFree(e: Event) {
    match e
    case Pass(_, _, db) => db
    case Work(_, o) => o.db
    case Crash(_) => false
    case RequestDies(_) => false
    case ProcDies(_) => false
    case ReconList(_, db) => db
    case ReconItem(_, _, _, db) => db
    case SweepList(_, db) => db
    case OrphanList(_, db) => db
    case NoEffect(c) => c.Fetched? && c.ok
    case SweepClear(_, _, _, db) => db
    case SweepFail(_, db) => db
    case Reap(_, _, _, _, db) => db
    case _ => true
  }

  /** An insert gets a creation stamp above all earlier ones. */
  predicate GrowingStamp(s: State, e: Event) {
    match e
    case Submit(_, _, _, _, _, _, stamp) => forall j :: j in s.tasks ==> s.tasks[j].createdAt < stamp
    case RestartInsertStop(_, _, stamp) => forall j :: j in s.tasks ==> s.tasks[j].createdAt < stamp
    case RestartInsertClone(_, _, stamp) => forall j :: j in s.tasks ==> s.tasks[j].createdAt < stamp
    case _ => true
  }

  predicate Permits(reg: Regime, s: State, e: Event) {
    (reg.faults || FaultFree(e)) && (reg.growingStamps ==> GrowingStamp(s, e))
  }

  predicate CanStep(cfg: Config, reg: Regime, s: State, e: Event) {
    Enabled(cfg, s, e) && Permits(reg, s, e)
  }

  ghost predicate IsRun(cfg: Config, reg: Regime, s: State, es: seq<Event>)
    decreases |es|, 0
  {
    es == [] ||
    var init, last := es[..|es| - 1], es[|es| - 1];
    && IsRun(cfg, reg, s, init)
    && CanStep(cfg, reg, Exec(cfg, reg, s, init), last)
  }

  ghost function Exec(cfg: Config, reg: Regime, s: State, es: seq<Event>): State
    requires IsRun(cfg, reg, s, es)
    decreases |es|, 1
  {
    if es == [] then s
    else Next(cfg, Exec(cfg, reg, s, es[..|es| - 1]), es[|es| - 1])
  }

  const ANYTHING := Regime(true, false)

  lemma RunSnoc(cfg: Config, reg: Regime, s: State, es: seq<Event>, e: Event)
    requires IsRun(cfg, reg, s, es) && CanStep(cfg, reg, Exec(cfg, reg, s, es), e)
    ensures IsRun(cfg, reg, s, es + [e])
    ensures Exec(cfg, reg, s, es + [e]) == Next(cfg, Exec(cfg, reg, s, es), e)
  {
    hide CanStep, Next;
    assert (es + [e])[..|es|] == es;
  }

  /** Two runs that lead to the same state may be continued by the same event. */
  lemma RunExtend(cfg: Config, reg: Regime, s: State, es: seq<Event>, t: State, fs: seq<Event>, e: Event)
    requires IsRun(cfg, reg, s, es) && IsRun(cfg, reg, t, fs) && Exec(cfg, reg, s, es) == Exec(cfg, reg, t, fs)
    requires IsRun(cfg, reg, t, fs + [e])
    ensures IsRun(cfg, reg, s, es + [e]) && Exec(cfg, reg, s, es + [e]) == Exec(cfg, reg, t, fs + [e])
  {
    hide CanStep, Next;
    assert (es + [e])[..|es|] == es && (fs + [e])[..|fs|] == fs;
  }

  lemma {:induction false} RunConcat(cfg: Config, reg: Regime, s: State, es: seq<Event>, fs: seq<Event>)
    requires IsRun(cfg, reg, s, es) && IsRun(cfg, reg, Exec(cfg, reg, s, es), fs)
    ensures IsRun(cfg, reg, s, es + fs)
    ensures Exec(cfg, reg, s, es + fs) == Exec(cfg, reg, Exec(cfg, reg, s, es), fs)
    decreases |fs|
  {
    hide CanStep, Next;
    if fs == [] {
      assert es + fs == es;
    } else {
      var init, last := fs[..|fs| - 1], fs[|fs| - 1];
      assert fs == init + [last];
      RunConcat(cfg, reg, s, es, init);
      RunExtend(cfg, reg, s, es + init, Exec(cfg, reg, s, es), init, last);
      assert es + fs == es + init + [last];
    }
  }

  lemma RunCons(cfg: Config, reg: Regime, s: State, e: Event, es: seq<Event>)
    requires CanStep(cfg, reg, s, e) && IsRun(cfg, reg, Next(cfg, s, e), es)
    ensures IsRun(cfg, reg, s, [e] + es)
    ensures Exec(cfg, reg, s, [e] + es) == Exec(cfg, reg, Next(cfg, s, e), es)
  {
    hide CanStep, Next;
    RunSnoc(cfg, reg, s, [], e);
    assert [] + [e] == [e];
    RunConcat(cfg, reg, s, [e], es);
  }

  lemma {:induction false} RunSplit(cfg: Config, reg: Regime, s: State, es: seq<Event>, k: nat)
    requires IsRun(cfg, reg, s, es) && k <= |es|
    ensures IsRun(cfg, reg, s, es[..k]) && IsRun(cfg, reg, Exec(cfg, reg, s, es[..k]), es[k..])
    ensures Exec(cfg, reg, Exec(cfg, reg, s, es[..k]), es[k..]) == Exec(cfg, reg, s, es)
    decreases |es|
  {
    hide CanStep, Next;
    if k == |es| {
      assert es[..k] == es && es[k..] == [];
    } else {
      var init := es[..|es| - 1];
      RunSplit(cfg, reg, s, init, k);
      assert init[..k] == es[..k];
      assert es[k..][..|es[k..]| - 1] == init[k..];
    }
  }

  ghost predicate Reaches(cfg: Config, reg: Regime, s: State, s': State) {
    exists es :: IsRun(cfg, reg, s, es) && Exec(cfg, reg, s, es) == s'
  }

  lemma ReachesSelf(cfg: Config, reg: Regime, s: State)
    ensures Reaches(cfg, reg, s, s)
  {
    assert IsRun(cfg, reg, s, []) && Exec(cfg, reg, s, []) == s;
  }

  lemma ReachesNext(cfg: Config, reg: Regime, s: State, e: Event)
    requires CanStep(cfg, reg, s, e)
    ensures Reaches(cfg, reg, s, Next(cfg, s, e))
  {
    hide CanStep, Next;
    RunSnoc(cfg, reg, s, [], e);
    assert [] + [e] == [e];
  }

  lemma ReachesTrans(cfg: Config, reg: Regime, a: State, b: State, c: State)
    requires Reaches(cfg, reg, a, b) && Reaches(cfg, reg, b, c)
    ensures Reaches(cfg, reg, a, c)
  {
    var es :| IsRun(cfg, reg, a, es) && Exec(cfg, reg, a, es) == b;
    var fs :| IsRun(cfg, reg, b, fs) && Exec(cfg, reg, b, fs) == c;
    RunConcat(cfg, reg, a, es, fs);
  }
}
