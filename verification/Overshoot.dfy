/** How far the slots can be overfilled.  The admission transaction counts rows without locking
    them, so several workers may each let one row in on the same count; but no limit is exceeded
    by more than one row per further worker.  One argument covers the total limit, both limits
    on slow rows and the GPU slots; `Tightness` says which of the bounds are reached. */
module Overshoot {
  import opened Model
  import opened Table
  import opened Machine
  import opened Invariant
  import Tally
  import GpuSlots
  import opened Scheduler

  datatype Limit = Total | SlowCap | SlowReserve | Gpu

  function GroupOf(l: Limit): Group {
    match l
    case Total => Everyone
    case SlowCap => SlowOnes
    case SlowReserve => SlowOnes
    case Gpu => GpuOnes
  }

  /** What each limit allows: the configured number, at least one slot in all, and nothing negative. */
  function Cap(cfg: Config, l: Limit): int {
    match l
    case Total => AtLeast(cfg.maxRunning, 1)
    case SlowCap => AtLeast(cfg.maxSlow, 0)
    case SlowReserve => AtLeast(cfg.maxRunning, 1) - AtLeast(cfg.minFree, 0)
    case Gpu => GpuSlots.SlotLimit(cfg.gpuIDs)
  }

  /** The worker has passed the check for this limit and may still bring its row into a slot. */
  predicate Ticket(cfg: Config, l: Limit, pc: Pc) {
    || pc.Commit? || pc.Reload? || pc.Precheck? || pc.Launch? || pc.Record?
    || (pc.CheckGpu? && l != Gpu)
    || ((pc.CountFast? || pc.CountSlow?) && (l == Total || l == SlowReserve) && pc.total < Cap(cfg, l))
  }

  function TicketIds(cfg: Config, l: Limit, s: State): set<TaskId> {
    set w | w in s.workers && Ticket(cfg, l, s.workers[w]) :: s.workers[w].id
  }

  /** Rows of the limit's group that hold a slot or may still be brought into one. */
  function Charged(cfg: Config, l: Limit, s: State): set<TaskId> {
    set id | id in s.tasks && Belongs(GroupOf(l), s.tasks[id])
             && (Occupies(s.tasks[id]) || id in TicketIds(cfg, l, s))
  }

  /** The bound: nothing under an empty limit, otherwise one extra row per further worker. */
  function Bound(cfg: Config, l: Limit, workers: nat): int {
    if Cap(cfg, l) <= 0 then 0 else Cap(cfg, l) + workers - 1
  }

  ghost predicate WithinBound(cfg: Config, l: Limit, s: State) {
    |Charged(cfg, l, s)| <= Bound(cfg, l, |s.workers|)
  }

  lemma TicketIdsCard(cfg: Config, l: Limit, s: State)
    ensures |TicketIds(cfg, l, s)| <= |s.workers|
  {
    var ws := set w | w in s.workers && Ticket(cfg, l, s.workers[w]);
    SubsetCard(ws, s.workers.Keys);
    ImageCard(s.workers, ws, TicketIds(cfg, l, s));
  }

  lemma {:induction false} ImageCard(workers: map<WorkerId, Pc>, ws: set<WorkerId>, ids: set<TaskId>)
    requires ws <= workers.Keys && forall w :: w in ws ==> !workers[w].Idle?
    requires ids == set w | w in ws :: workers[w].id
    ensures |ids| <= |ws|
    decreases |ws|
  {
    if ws != {} {
      var w :| w in ws;
      var rest := ws - {w};
      var ids' := set v | v in rest :: workers[v].id;
      ImageCard(workers, rest, ids');
      assert ids == ids' + {workers[w].id};
    } else {
      assert ids == {};
    }
  }

  /** Acting worker `w` obtains a ticket in this step: its snapshot was below the limit. */
  ghost predicate Passes(cfg: Config, l: Limit, s: State, e: Event) {
    && e.Work? && e.w in s.workers && !s.workers[e.w].Idle?
    && !Ticket(cfg, l, s.workers[e.w]) && Ticket(cfg, l, WorkPc(cfg, s, s.workers[e.w], e.o))
    && s.workers[e.w].id in s.tasks && Belongs(GroupOf(l), s.tasks[s.workers[e.w].id])
  }

  lemma OccupiesStep(s: State, stmt: Statement, id: TaskId)
    requires Legal(s, stmt)
    requires id in Apply(s.tasks, stmt, s.now) && Occupies(Apply(s.tasks, stmt, s.now)[id])
    ensures id in s.tasks
    ensures Occupies(s.tasks[id]) || Commits(s, stmt, id) || (stmt.UpdateRuntime? && stmt.id == id)
  {
  }

  /** Rows enter slots only through a worker that holds a ticket. */
  lemma EntersWithTicket(cfg: Config, l: Limit, s: State, e: Event, id: TaskId)
    requires Commits(s, StatementOf(s, e), id) || (StatementOf(s, e).UpdateRuntime? && StatementOf(s, e).id == id)
    ensures id in TicketIds(cfg, l, s)
  {
    assert e.Work? && e.w in s.workers;
    assert Ticket(cfg, l, s.workers[e.w]);
  }

  lemma TicketsKept(cfg: Config, l: Limit, s: State, pc: Pc, o: Outcome)
    requires !pc.Idle? && HolderFits(s, pc)
    requires Ticket(cfg, l, WorkPc(cfg, s, pc, o))
    ensures WorkPc(cfg, s, pc, o).id == pc.id
    ensures Belongs(GroupOf(l), s.tasks[pc.id]) && !Ticket(cfg, l, pc) ==>
              Count(GroupOf(l), s.tasks) < Cap(cfg, l)
              && WorkStatement(s, pc, o) == Nothing
  {
    hide WorkPc;
    TicketKeepsRow(cfg, l, s, pc, o);
    if Belongs(GroupOf(l), s.tasks[pc.id]) && !Ticket(cfg, l, pc) {
      PassedBelow(cfg, l, s, pc, o);
    }
  }

  lemma TicketKeepsRow(cfg: Config, l: Limit, s: State, pc: Pc, o: Outcome)
    requires !pc.Idle? && Ticket(cfg, l, WorkPc(cfg, s, pc, o))
    ensures WorkPc(cfg, s, pc, o).id == pc.id && !IsStopPc(pc)
  {
  }

  /** A ticket is given out only below the limit. */
  lemma PassedBelow(cfg: Config, l: Limit, s: State, pc: Pc, o: Outcome)
    requires !pc.Idle? && !IsStopPc(pc) && HolderFits(s, pc) && Belongs(GroupOf(l), s.tasks[pc.id])
    requires !Ticket(cfg, l, pc) && Ticket(cfg, l, WorkPc(cfg, s, pc, o))
    ensures Count(GroupOf(l), s.tasks) < Cap(cfg, l) && WorkStatement(s, pc, o) == Nothing
  {
    hide StopPc, SnapshotFits;
    assert Occupying(SlowOnes, s.tasks) <= Occupying(Everyone, s.tasks);
    SubsetCard(Occupying(SlowOnes, s.tasks), Occupying(Everyone, s.tasks));
  }

  lemma ChargedBefore(cfg: Config, l: Limit, s: State, e: Event, s': State, id: TaskId)
    requires Holding(s) && Enabled(cfg, s, e) && !Passes(cfg, l, s, e) && Legal(s, StatementOf(s, e))
    requires s'.tasks == Apply(s.tasks, StatementOf(s, e), s.now) && s'.workers == NextWorkers(cfg, s, e)
    requires Flows(s, s') && id in Charged(cfg, l, s')
    ensures id in Charged(cfg, l, s)
  {
    hide Passes, Enabled, StatementOf, NextWorkers, HolderFits, Apply, Legal, InFlight, RowShape;
    if Occupies(s'.tasks[id]) {
      OccupiesStep(s, StatementOf(s, e), id);
      if !Occupies(s.tasks[id]) {
        EntersWithTicket(cfg, l, s, e, id);
      }
    } else {
      var w :| w in s'.workers && Ticket(cfg, l, s'.workers[w]) && s'.workers[w].id == id;
      TicketWasHeld(cfg, l, s, e, w);
    }
  }

  /** Any step but a passing check leaves the charged rows among those charged before. */
  lemma ChargedShrinks(cfg: Config, l: Limit, s: State, e: Event)
    requires Inv(s) && Enabled(cfg, s, e) && !Passes(cfg, l, s, e)
    ensures Charged(cfg, l, Next(cfg, s, e)) <= Charged(cfg, l, s)
  {
    var s' := Next(cfg, s, e);
    StatementIsLegal(cfg, s, e);
    StepFlows(cfg, s, e);
    forall id | id in Charged(cfg, l, s') ensures id in Charged(cfg, l, s) {
      ChargedBefore(cfg, l, s, e, s', id);
    }
  }

  lemma TicketWasHeld(cfg: Config, l: Limit, s: State, e: Event, w: WorkerId)
    requires Holding(s) && Enabled(cfg, s, e) && !Passes(cfg, l, s, e)
    requires w in NextWorkers(cfg, s, e) && Ticket(cfg, l, NextWorkers(cfg, s, e)[w])
    ensures var id := NextWorkers(cfg, s, e)[w].id;
            id in s.tasks && (Belongs(GroupOf(l), s.tasks[id]) ==> id in TicketIds(cfg, l, s))
  {
    hide WorkStatement, Apply, StatementOf, Legal;
    assert HolderFits(s, s.workers[w]);
    if e.Work? && e.w == w {
      TicketsKept(cfg, l, s, s.workers[w], e.o);
    }
  }

  /** A passing check happens only below the limit, and then every charged row either occupied
      before or is one of at most as many tickets as there are workers. */
  lemma ChargedWhenPassing(cfg: Config, l: Limit, s: State, e: Event)
    requires Inv(s) && Enabled(cfg, s, e) && Passes(cfg, l, s, e)
    ensures WithinBound(cfg, l, Next(cfg, s, e))
  {
    var s' := Next(cfg, s, e);
    assert HolderFits(s, s.workers[e.w]);
    TicketsKept(cfg, l, s, s.workers[e.w], e.o);
    TicketIdsCard(cfg, l, s');
    assert s'.tasks == s.tasks;
    var occ, tic := Occupying(GroupOf(l), s.tasks), TicketIds(cfg, l, s');
    assert Charged(cfg, l, s') <= occ + tic;
    SubsetCard(Charged(cfg, l, s'), occ + tic);
    assert |s'.workers.Keys| == |s'.workers|;
  }

  lemma WithinBoundStep(cfg: Config, l: Limit, s: State, e: Event)
    requires Inv(s) && Enabled(cfg, s, e) && WithinBound(cfg, l, s)
    ensures WithinBound(cfg, l, Next(cfg, s, e))
  {
    if Passes(cfg, l, s, e) {
      ChargedWhenPassing(cfg, l, s, e);
    } else {
      ChargedShrinks(cfg, l, s, e);
      SubsetCard(Charged(cfg, l, Next(cfg, s, e)), Charged(cfg, l, s));
      WorkersKept(cfg, s, e);
    }
  }

  lemma {:induction false} WithinBoundRun(cfg: Config, reg: Regime, l: Limit, s: State, es: seq<Event>)
    requires Inv(s) && WithinBound(cfg, l, s) && IsRun(cfg, reg, s, es)
    ensures WithinBound(cfg, l, Exec(cfg, reg, s, es)) && |Exec(cfg, reg, s, es).workers| == |s.workers|
  {
    if es == [] {
    } else {
      var init := es[..|es| - 1];
      WithinBoundRun(cfg, reg, l, s, init);
      InvRun(cfg, reg, s, init);
      WithinBoundStep(cfg, l, Exec(cfg, reg, s, init), es[|es| - 1]);
      WorkersKept(cfg, Exec(cfg, reg, s, init), es[|es| - 1]);
    }
  }

  /** Every reachable state, under crashes, lost database calls, unlocked counts and late
      writes: at most limit + workers - 1 rows of the group hold a slot, and none at all under
      an empty limit.  With one worker every limit is kept exactly. */
  lemma {:induction false} BoundedOvershoot(cfg: Config, reg: Regime, l: Limit, s0: State, es: seq<Event>)
    requires Initial(s0) && IsRun(cfg, reg, s0, es) && |s0.workers| >= 1
    ensures Count(GroupOf(l), Exec(cfg, reg, s0, es).tasks) <= Bound(cfg, l, |s0.workers|)
    ensures |s0.workers| == 1 ==>
              Count(GroupOf(l), Exec(cfg, reg, s0, es).tasks) <= if Cap(cfg, l) < 0 then 0 else Cap(cfg, l)
  {
    InitialInv(s0);
    assert Charged(cfg, l, s0) == {};
    WithinBoundRun(cfg, reg, l, s0, es);
    var s := Exec(cfg, reg, s0, es);
    SubsetCard(Occupying(GroupOf(l), s.tasks), Charged(cfg, l, s));
  }

  /** The documented promise of the fast reserve, for one worker: slow rows leave at least
      `min_free` of the slots to others, and together with the cap on slow rows. */
  lemma ReserveKept(cfg: Config, reg: Regime, s0: State, es: seq<Event>)
    requires Initial(s0) && IsRun(cfg, reg, s0, es) && |s0.workers| == 1
    requires AtLeast(cfg.minFree, 0) <= AtLeast(cfg.maxRunning, 1)
    ensures var t := Exec(cfg, reg, s0, es).tasks;
            && AtLeast(cfg.maxRunning, 1) - Count(SlowOnes, t) >= cfg.minFree
            && Count(SlowOnes, t) <= AtLeast(cfg.maxSlow, 0)
            && Count(Everyone, t) <= AtLeast(cfg.maxRunning, 1)
  {
    BoundedOvershoot(cfg, reg, SlowReserve, s0, es);
    BoundedOvershoot(cfg, reg, SlowCap, s0, es);
    BoundedOvershoot(cfg, reg, Total, s0, es);
  }

  /** GPU slots: the tasks charged to a device -- every GPU task in a slot is charged to every
      configured device -- exceed its multiplicity by at most one per further worker, and there
      are none without configured devices. */
  lemma {:induction false} GpuOvershoot(cfg: Config, reg: Regime, s0: State, es: seq<Event>)
    requires Initial(s0) && IsRun(cfg, reg, s0, es) && |s0.workers| >= 1
    ensures var l, n := GpuSlots.TrimList(cfg.gpuIDs), Count(GpuOnes, Exec(cfg, reg, s0, es).tasks);
            && (forall id :: id in l ==> n <= multiset(l)[id] + |s0.workers| - 1)
            && (l == [] ==> n == 0)
  {
    BoundedOvershoot(cfg, reg, Gpu, s0, es);
    GpuSlots.SlotLimitIsLeastMultiplicity(cfg.gpuIDs, GpuSlots.SlotLimit(cfg.gpuIDs));
  }

  /** With one worker, remaining slots plus used slots are the capacity of every device, so the
      clamp at zero never hides overuse, and the next GPU task is let in exactly when every
      device has a slot left. */
  lemma {:induction false} RemainingSlots(cfg: Config, reg: Regime, s0: State, es: seq<Event>)
    requires Initial(s0) && IsRun(cfg, reg, s0, es) && |s0.workers| == 1
    requires GpuSlots.TrimList(cfg.gpuIDs) != []
    ensures var n := Count(GpuOnes, Exec(cfg, reg, s0, es).tasks);
            var cap := Tally.Capacity(GpuSlots.TrimList(cfg.gpuIDs));
            var used := GpuSlots.SumNeeds(n, cap, cfg.gpuIDs);
            && used.Ok?
            && (forall id :: id in cap ==> GpuSlots.Remaining(cap, used.value)[id] + n == cap[id])
            && (n + 1 <= GpuSlots.SlotLimit(cfg.gpuIDs) <==>
                 forall id :: id in cap ==> GpuSlots.Remaining(cap, used.value)[id] >= 1)
  {
    BoundedOvershoot(cfg, reg, Gpu, s0, es);
    GpuSlots.RemainingIsExact(cfg.gpuIDs, Count(GpuOnes, Exec(cfg, reg, s0, es).tasks));
  }
}
