/** The effect of each `taskrepo` statement on the `tasks` table, as functions of the table. */
module Table {
  import opened Model

  type Tasks = map<TaskId, Row>

  function SetStatus(t: Tasks, id: TaskId, st: Status, now: int): Tasks {
    if id in t then t[id := t[id].(status := st, updatedAt := now)] else t
  }

  /** The conditional update behind `ClaimNext`, `ResetToPending` and `TrySetStatusWithDB`. */
  function CompareAndSet(t: Tasks, id: TaskId, from: Status, to: Status, now: int): Tasks {
    if id in t && t[id].status == from then SetStatus(t, id, to, now) else t
  }

  function SetRunning(t: Tasks, id: TaskId, ref: string, now: int): Tasks {
    if id in t then
      t[id := t[id].(status := Running, ref := ref, runningAt := Some(now), updatedAt := now)]
    else t
  }

  function ClearRef(t: Tasks, id: TaskId, now: int): Tasks {
    if id in t then t[id := t[id].(ref := "", updatedAt := now)] else t
  }

  predicate Stuck(r: Row, before: int) {
    r.status == Admitted && r.updatedAt < before
  }

  function RevertStuck(t: Tasks, before: int, now: int): Tasks {
    map id | id in t :: if Stuck(t[id], before) then t[id].(status := Failed, updatedAt := now) else t[id]
  }

  /** The statements that write to the table. */
  datatype Statement =
    | Nothing
    | Create(id: TaskId, row: Row)
    | Cas(id: TaskId, from: Status, to: Status)
    | UpdateStatus(id: TaskId, to: Status)
    | UpdateRuntime(id: TaskId, ref: string)
    | ClearRuntimeRef(id: TaskId)
    | RevertAdmittedStuck(before: int)

  function Apply(t: Tasks, stmt: Statement, now: int): Tasks {
    match stmt
    case Nothing => t
    case Create(id, row) => t[id := row]
    case Cas(id, from, to) => CompareAndSet(t, id, from, to, now)
    case UpdateStatus(id, to) => SetStatus(t, id, to, now)
    case UpdateRuntime(id, ref) => SetRunning(t, id, ref, now)
    case ClearRuntimeRef(id) => ClearRef(t, id, now)
    case RevertAdmittedStuck(before) => RevertStuck(t, before, now)
  }

  // ---- The counted and listed sets ----

  /** The groups of rows that some limit speaks about. */
  datatype Group = Everyone | SlowOnes | FastOnes | GpuOnes

  predicate Belongs(g: Group, r: Row) {
    match g
    case Everyone => true
    case SlowOnes => r.cls.Slow?
    case FastOnes => r.cls.Fast?
    case GpuOnes => UsesGPU(r)
  }

  /** Rows of the group that hold a slot. */
  function Occupying(g: Group, t: Tasks): set<TaskId> {
    set id | id in t && Occupies(t[id]) && Belongs(g, t[id])
  }

  function Count(g: Group, t: Tasks): nat {
    |Occupying(g, t)|
  }

  predicate SweepListed(r: Row) {
    r.status == Running && r.op.Start? && HasRef(r)
  }

  predicate OrphanListed(r: Row) {
    r.prov.Docker? && Terminal(r.status) && r.op.Start? && HasRef(r)
  }

  function DockerInSlots(t: Tasks): set<TaskId> {
    set id | id in t && t[id].prov.Docker? && Occupies(t[id])
  }

  function SweepRows(t: Tasks): set<TaskId> {
    set id | id in t && SweepListed(t[id])
  }

  function OrphanRows(t: Tasks): set<TaskId> {
    set id | id in t && OrphanListed(t[id])
  }

  function StuckRows(t: Tasks, before: int): set<TaskId> {
    set id | id in t && Stuck(t[id], before)
  }

  /** Columns no statement ever changes after the insert. */
  predicate SameColumns(r: Row, r': Row) {
    && r'.op == r.op && r'.target == r.target && r'.cls == r.cls
    && r'.prov == r.prov && r'.work == r.work && r'.createdAt == r.createdAt
  }

  lemma SubsetCard<T>(a: set<T>, b: set<T>)
    requires a <= b
    ensures |a| <= |b|
  {
    assert b == a + (b - a);
  }
}
