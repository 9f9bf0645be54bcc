/** The queue not only drains when rounds happen: rounds can happen.  A settled worker with rows in
    its queue can always take a turn, whatever the providers answer; a running row with a reason to
    end can always be ended by background processes; so a terminal table is reached. */
module Progress {
  import opened Model
  import opened Table
  import opened Machine
  import opened Invariant
  import opened Drain
  import opened Providers
  import Safety
  import RuntimeLimit
  import SlotLeak
  import Tightness

  // ---- Turns ----

  /** A row created no later than any other of the set. */
  lemma {:induction false} OldestOf(t: Tasks, ids: set<TaskId>) returns (id: TaskId)
    requires ids != {} && ids <= t.Keys
    ensures id in ids && forall k :: k in ids ==> t[id].createdAt <= t[k].createdAt
    decreases ids
  {
    id :| id in ids;
    if ids != {id} {
      assert ids - {id} != {} by {
        assert ids == {id} + (ids - {id});
      }
      var other := OldestOf(t, ids - {id});
      if t[other].createdAt < t[id].createdAt {
        id := other;
      }
    }
  }

  /** Some row can be claimed. */
  lemma ClaimAvailable(cfg: Config, s: State, w: WorkerId) returns (id: TaskId)
    requires Settled(cfg, s, w) && Pends(s.tasks) != {}
    ensures id in Pends(s.tasks) && CanStep(cfg, CALM, s, Claim(w, {}, id))
  {
    id := OldestOf(s.tasks, Pends(s.tasks));
    assert forall k :: k in s.tasks && Waiting(cfg, s.tasks, k) ==> k in Pends(s.tasks);
  }

  /** The worker can go on until it is idle again, with any outcome of its provider calls. */
  lemma {:induction false} FinishTurn(cfg: Config, s: State, w: WorkerId, o: Outcome) returns (es: seq<Event>)
    requires w in s.workers && o.db
    ensures IsRun(cfg, CALM, s, es) && forall i :: 0 <= i < |es| ==> es[i] == Work(w, o)
    ensures w in Exec(cfg, CALM, s, es).workers && Exec(cfg, CALM, s, es).workers[w].Idle?
    decreases CallsLeft(s.workers[w])
  {
    if s.workers[w].Idle? {
      es := [];
    } else {
      es := GoOn(cfg, s, w, o);
    }
  }

  lemma {:induction false} GoOn(cfg: Config, s: State, w: WorkerId, o: Outcome) returns (es: seq<Event>)
    requires w in s.workers && !s.workers[w].Idle? && o.db
    ensures IsRun(cfg, CALM, s, es) && forall i :: 0 <= i < |es| ==> es[i] == Work(w, o)
    ensures w in Exec(cfg, CALM, s, es).workers && Exec(cfg, CALM, s, es).workers[w].Idle?
    decreases CallsLeft(s.workers[w]), 0
  {
    hide IsRun, Exec, WorkPc, CallsLeft, Apply, StatementOf, CallsOf, NextHistory;
    var e := Work(w, o);
    CallsDrop(cfg, s, s.workers[w], o);
    var rest := FinishTurn(cfg, Next(cfg, s, e), w, o);
    RunCons(cfg, CALM, s, e, rest);
    es := [e] + rest;
  }

  /** A settled worker with a queue can take a turn. */
  lemma TurnAvailable(cfg: Config, s: State, w: WorkerId, o: Outcome)
    returns (id: TaskId, es: seq<Event>, s': State)
    requires Settled(cfg, s, w) && Pends(s.tasks) != {} && o.db
    ensures id in Pends(s.tasks) && CanStep(cfg, CALM, s, Claim(w, {}, id))
    ensures IsRun(cfg, CALM, Next(cfg, s, Claim(w, {}, id)), es) && forall i :: 0 <= i < |es| ==> es[i] == Work(w, o)
    ensures s' == Exec(cfg, CALM, Next(cfg, s, Claim(w, {}, id)), es) && Turn(cfg, s, w, s')
  {
    hide IsRun, Exec, Settled;
    id := ClaimAvailable(cfg, s, w);
    var s1 := Next(cfg, s, Claim(w, {}, id));
    es := FinishTurn(cfg, s1, w, o);
    s' := Exec(cfg, CALM, s1, es);
    assert OnlyWork(w, es);
  }

  // ---- Ends ----

  /** A running row that background processes can end: the reconciler is on and may see its end, or
      the runtime sweeper is on and the row will exceed its limit. */
  predicate CanBeEnded(cfg: Config, r: Row) {
    r.op.Start? && r.status == Running && (SlotLeak.WillBeSeen(cfg, r) || SlotLeak.WillExpire(cfg, r))
  }

  /** `Ends` with nothing in the table changed but the row. */
  ghost predicate OnlyRowEnds(s: State, s': State, id: TaskId) {
    && s'.tasks.Keys == s.tasks.Keys && Slots(s'.tasks) == Slots(s.tasks) - {id}
    && forall k :: k in s.tasks && k != id ==> s'.tasks[k] == s.tasks[k]
  }

  /** When a workload can end. */
  lemma EndAvailable(cfg: Config, s: State, id: TaskId) returns (s': State)
    requires Inv(s) && id in s.tasks && CanBeEnded(cfg, s.tasks[id])
    ensures Ends(cfg, s, s') && OnlyRowEnds(s, s', id)
  {
    hide IsRun, Exec;
    assert RowShape(s.tasks[id]);
    var es;
    if SlotLeak.WillBeSeen(cfg, s.tasks[id]) {
      es, s' := EndSeen(cfg, s, id);
    } else {
      es, s' := EndForced(cfg, s, id);
    }
    assert id in Slots(s.tasks) && id !in Slots(s'.tasks);
  }

  lemma EndSeen(cfg: Config, s: State, id: TaskId) returns (es: seq<Event>, s': State)
    requires id in s.tasks && s.tasks[id].op.Start? && s.tasks[id].status == Running
    requires SlotLeak.WillBeSeen(cfg, s.tasks[id])
    ensures (forall i :: 0 <= i < |es| ==> Background(es[i])) && IsRun(cfg, CALM, s, es)
    ensures s' == Exec(cfg, CALM, s, es) && OnlyRowEnds(s, s', id)
  {
    hide IsRun, Exec, OnlyRowEnds, Occupying;
    hide NextRecords, NextRequests, NextSweeps, NextListed, NextReapers, NextMarks, NextHistory, NextWorkers;
    var e1, e2 := ReconList(0, true), ReconItem(0, id, PhaseSucceeded, true);
    var s1 := Next(cfg, s, e1);
    s' := Next(cfg, s1, e2);
    es := TwoSteps(cfg, s, e1, e2);
    SlotEmptied(s, s', id);
  }

  lemma SlotEmptied(s: State, s': State, id: TaskId)
    requires id in s.tasks && s'.tasks.Keys == s.tasks.Keys && !Occupies(s'.tasks[id])
    requires forall k :: k in s.tasks && k != id ==> s'.tasks[k] == s.tasks[k]
    ensures OnlyRowEnds(s, s', id)
  {
    assert Slots(s'.tasks) == Slots(s.tasks) - {id};
  }

  lemma TwoSteps(cfg: Config, s: State, e1: Event, e2: Event) returns (es: seq<Event>)
    requires CanStep(cfg, CALM, s, e1) && CanStep(cfg, CALM, Next(cfg, s, e1), e2)
    ensures es == [e1, e2] && IsRun(cfg, CALM, s, es) && Exec(cfg, CALM, s, es) == Next(cfg, Next(cfg, s, e1), e2)
  {
    hide CanStep, Next;
    RunCons(cfg, CALM, Next(cfg, s, e1), e2, []);
    assert [e2] + [] == [e2] && [e1] + [e2] == [e1, e2];
    RunCons(cfg, CALM, s, e1, [e2]);
    es := [e1, e2];
  }

  lemma EndForced(cfg: Config, s: State, id: TaskId) returns (es: seq<Event>, s': State)
    requires id in s.tasks && s.tasks[id].op.Start? && s.tasks[id].status == Running
    requires SlotLeak.WillExpire(cfg, s.tasks[id]) && s.tasks[id].runningAt.Some?
    ensures (forall i :: 0 <= i < |es| ==> Background(es[i])) && IsRun(cfg, CALM, s, es)
    ensures s' == Exec(cfg, CALM, s, es) && OnlyRowEnds(s, s', id)
  {
    hide IsRun, Exec, SlotLeak.WillExpire, Next, CanStep, Overdue, OnlyRowEnds;
    var p, e1, e2 := SlotLeak.ExpiryListed(cfg, CALM, s, id);
    var s2 := Next(cfg, Next(cfg, s, e1), e2);
    var first := TwoSteps(cfg, s, e1, e2);
    var second;
    second, s' := ClearAndFail(cfg, s2, p, id);
    es := first + second;
    RunConcat(cfg, CALM, s, first, second);
    SameTable(s, s2, s', id);
  }

  lemma SameTable(s: State, s2: State, s': State, id: TaskId)
    requires s2.tasks == s.tasks && OnlyRowEnds(s2, s', id)
    ensures OnlyRowEnds(s, s', id)
  {
  }

  lemma ClearAndFail(cfg: Config, s: State, p: ProcId, id: TaskId) returns (es: seq<Event>, s': State)
    requires id in s.tasks && s.tasks[id].op.Start? && s.tasks[id].status == Running
    requires p in s.sweeps && s.sweeps[p].cur.None? && id in s.sweeps[p].snap
    requires Overdue(cfg, s.sweeps[p].snap[id], s.sweeps[p].at) && Registered(s.sweeps[p].snap[id].prov)
    ensures (forall i :: 0 <= i < |es| ==> Background(es[i])) && IsRun(cfg, CALM, s, es)
    ensures s' == Exec(cfg, CALM, s, es) && OnlyRowEnds(s, s', id)
  {
    hide IsRun, Exec, Overdue, OnlyRowEnds, Occupying;
    hide NextRecords, NextRequests, NextRecon, NextListed, NextReapers, NextMarks, NextHistory, NextWorkers;
    var e1, e2 := SweepClear(p, id, true, true), SweepFail(p, true);
    es := TwoSteps(cfg, s, e1, e2);
    s' := Next(cfg, Next(cfg, s, e1), e2);
    SlotEmptied(s, s', id);
  }

  // ---- Turns that launch leave rows that can be ended ----

  /** Once launched the row will have a reason to end. */
  predicate CanFinish(cfg: Config, r: Row) {
    r.op.Start? && Registered(r.prov) ==>
      (cfg.reconcile && r.prov.Docker?) || (cfg.runtimeSweep && RuntimeLimit.Limit(cfg, r) > 0)
  }

  /** Every queued row can finish, every row in a slot can be ended. */
  ghost predicate AllCanEnd(cfg: Config, t: Tasks) {
    && (forall id :: id in t && t[id].status == Pending ==> CanFinish(cfg, t[id]))
    && (forall id :: id in t && Occupies(t[id]) ==> CanBeEnded(cfg, t[id]))
  }

  /** In the middle of a turn on `id` all other rows are as before. */
  ghost predicate MidLaunch(cfg: Config, s: State, w: WorkerId, id: TaskId) {
    && w in s.workers && id in s.tasks && CanFinish(cfg, s.tasks[id])
    && (forall k :: k in s.tasks && k != id && Occupies(s.tasks[k]) ==> CanBeEnded(cfg, s.tasks[k]))
    && var pc := s.workers[w];
    && (!pc.Idle? ==> pc.id == id)
    && (pc.Idle? && Occupies(s.tasks[id]) ==> CanBeEnded(cfg, s.tasks[id]))
    && (pc.Precheck? || pc.Launch? || pc.Record? ==> Registered(s.tasks[id].prov))
    && (pc.Record? ==> pc.ref == Tightness.FINE.ref)
  }

  /** A worker's write touches its own row, or stops another. */
  lemma OtherRowsStep(s: State, pc: Pc, o: Outcome, k: TaskId)
    requires !pc.Idle? && pc.id != k && k in s.tasks
    ensures var t' := Apply(s.tasks, WorkStatement(s, pc, o), s.now);
            k in t' && (Occupies(t'[k]) ==> t'[k] == s.tasks[k])
  {
  }

  lemma OwnRowStep(cfg: Config, s: State, w: WorkerId, id: TaskId)
    requires Inv(s) && MidLaunch(cfg, s, w, id) && !s.workers[w].Idle?
    ensures var s' := Next(cfg, s, Work(w, Tightness.FINE));
            var pc' := s'.workers[w];
            && id in s'.tasks && (!pc'.Idle? ==> pc'.id == id)
            && (pc'.Idle? && Occupies(s'.tasks[id]) ==> s.workers[w].Record?)
            && (pc'.Precheck? || pc'.Launch? || pc'.Record? ==> Registered(s'.tasks[id].prov))
            && (pc'.Record? ==> pc'.ref == Tightness.FINE.ref)
  {
    hide CallsOf, NextHistory, Counters, Watchers, Reapers, Requests, CanBeEnded, CanFinish;
    assert HolderFits(s, s.workers[w]) && RowShape(s.tasks[id]);
    StartPcFlight(cfg, s, s.workers[w], Tightness.FINE);
  }

  lemma LaunchStep(cfg: Config, s: State, w: WorkerId, id: TaskId)
    requires Inv(s) && MidLaunch(cfg, s, w, id) && !s.workers[w].Idle?
    ensures MidLaunch(cfg, Next(cfg, s, Work(w, Tightness.FINE)), w, id)
  {
    hide CallsOf, NextHistory, Rows, Holding, Counters, Watchers, Reapers, Requests, SlotLeak.WillExpire, WorkPc;
    hide WorkStatement, Apply, CanBeEnded;
    var e, s' := Work(w, Tightness.FINE), Next(cfg, s, Work(w, Tightness.FINE));
    StepFlows(cfg, s, e);
    OwnRowStep(cfg, s, w, id);
    forall k | k in s'.tasks && k != id && Occupies(s'.tasks[k]) ensures CanBeEnded(cfg, s'.tasks[k]) {
      WorkKeepsKeys(s, s.workers[w], Tightness.FINE, k);
      OtherRowsStep(s, s.workers[w], Tightness.FINE, k);
    }
    if s.workers[w].Record? {
      RecordedCanEnd(cfg, s, w, id);
    }
  }

  lemma WorkKeepsKeys(s: State, pc: Pc, o: Outcome, k: TaskId)
    requires !pc.Idle? && k in Apply(s.tasks, WorkStatement(s, pc, o), s.now)
    ensures k in s.tasks
  {
  }

  lemma RecordedCanEnd(cfg: Config, s: State, w: WorkerId, id: TaskId)
    requires Inv(s) && MidLaunch(cfg, s, w, id) && s.workers[w].Record?
    ensures id in Next(cfg, s, Work(w, Tightness.FINE)).tasks
    ensures CanBeEnded(cfg, Next(cfg, s, Work(w, Tightness.FINE)).tasks[id])
  {
    assert HolderFits(s, s.workers[w]);
    assert Tightness.FINE.ref[0] != ' ';
  }

  lemma {:induction false} LaunchRun(cfg: Config, s: State, w: WorkerId, id: TaskId, es: seq<Event>)
    requires Inv(s) && MidLaunch(cfg, s, w, id) && IsRun(cfg, CALM, s, es)
    requires forall i :: 0 <= i < |es| ==> es[i] == Work(w, Tightness.FINE)
    ensures MidLaunch(cfg, Exec(cfg, CALM, s, es), w, id)
  {
    hide MidLaunch;
    if es == [] {
    } else {
      var init := es[..|es| - 1];
      LaunchRun(cfg, s, w, id, init);
      InvRun(cfg, CALM, s, init);
      LaunchStep(cfg, Exec(cfg, CALM, s, init), w, id);
    }
  }

  /** The worker takes a turn in which every provider call succeeds. */
  lemma LaunchTurn(cfg: Config, s: State, w: WorkerId) returns (s': State)
    requires Settled(cfg, s, w) && AllCanEnd(cfg, s.tasks) && Pends(s.tasks) != {}
    ensures Turn(cfg, s, w, s') && AllCanEnd(cfg, s'.tasks) && Settled(cfg, s', w)
  {
    hide IsRun, Exec, Turn, CanFinish, CanBeEnded;
    var id, es;
    id, es, s' := TurnAvailable(cfg, s, w, Tightness.FINE);
    var s1 := Next(cfg, s, Claim(w, {}, id));
    InvStep(cfg, s, Claim(w, {}, id));
    ClaimedMidLaunch(cfg, s, w, id);
    LaunchRun(cfg, s1, w, id, es);
    TurnProgress(cfg, s, w, s');
    TurnIsRun(cfg, s, w, s');
    StaysSettled(cfg, s, w, s');
    QueueKeepsPromise(cfg, s, s');
  }

  lemma ClaimedMidLaunch(cfg: Config, s: State, w: WorkerId, id: TaskId)
    requires AllCanEnd(cfg, s.tasks) && Enabled(cfg, s, Claim(w, {}, id))
    ensures MidLaunch(cfg, Next(cfg, s, Claim(w, {}, id)), w, id)
  {
    hide SlotLeak.WillExpire, SlotLeak.WillBeSeen, CallsOf;
  }

  lemma QueueKeepsPromise(cfg: Config, s: State, s': State)
    requires AllCanEnd(cfg, s.tasks) && Inv(s) && Reaches(cfg, CALM, s, s') && Pends(s'.tasks) <= Pends(s.tasks)
    ensures forall id :: id in s'.tasks && s'.tasks[id].status == Pending ==> CanFinish(cfg, s'.tasks[id])
  {
    hide IsRun, Exec;
    Safety.ReachesLater(cfg, CALM, s, s');
    forall id | id in s'.tasks && s'.tasks[id].status == Pending ensures CanFinish(cfg, s'.tasks[id]) {
      assert id in Pends(s'.tasks) && id in Pends(s.tasks);
    }
  }

  // ---- Rounds until the end ----

  /** From a settled state with rows that can all end, a round is possible, and leads to such a
      state again. */
  lemma RoundAvailable(cfg: Config, s: State, w: WorkerId) returns (s': State)
    requires Settled(cfg, s, w) && AllCanEnd(cfg, s.tasks)
    ensures Round(cfg, s, w, s') && Settled(cfg, s', w) && AllCanEnd(cfg, s'.tasks)
  {
    hide Turn, Ends, Settled, Pends, CanBeEnded, CanFinish;
    var mid := s;
    if Pends(s.tasks) != {} {
      mid := LaunchTurn(cfg, s, w);
    }
    s' := mid;
    if Slots(mid.tasks) != {} {
      s' := EndSomebody(cfg, mid, w);
    }
    RoundProgress(cfg, s, w, s');
  }

  lemma EndSomebody(cfg: Config, s: State, w: WorkerId) returns (s': State)
    requires Settled(cfg, s, w) && AllCanEnd(cfg, s.tasks) && Slots(s.tasks) != {}
    ensures Ends(cfg, s, s') && AllCanEnd(cfg, s'.tasks)
  {
    hide CanFinish, CanBeEnded, Ends;
    var id :| id in Slots(s.tasks);
    s' := EndAvailable(cfg, s, id);
    EndsDrops(cfg, s, s');
    forall k | k in s'.tasks && s'.tasks[k].status == Pending ensures CanFinish(cfg, s'.tasks[k]) {
      assert k in Pends(s'.tasks) && k in Pends(s.tasks) && k != id;
    }
    forall k | k in s'.tasks && Occupies(s'.tasks[k]) ensures CanBeEnded(cfg, s'.tasks[k]) {
      assert k in Slots(s'.tasks) && k != id;
    }
  }

  lemma {:induction false} RoundsAvailable(cfg: Config, s: State, w: WorkerId, n: nat) returns (ss: seq<State>)
    requires Settled(cfg, s, w) && AllCanEnd(cfg, s.tasks)
    ensures |ss| == n + 1 && ss[0] == s && forall i :: 0 <= i < n ==> Round(cfg, ss[i], w, ss[i + 1])
    decreases n
  {
    hide Round, Settled, AllCanEnd;
    if n == 0 {
      ss := [s];
    } else {
      var s' := RoundAvailable(cfg, s, w);
      var rest := RoundsAvailable(cfg, s', w, n - 1);
      ss := [s] + rest;
    }
  }

  /** A closed queue can be worked off.  One worker, no faults, nothing new: if every queued row
      fits an empty table, every row in a slot has a reason to end, and every queued one will have
      one once it is launched -- it runs under docker and the reconciler is on, or it has a runtime
      limit and the sweeper is on -- then rounds in which every launch succeeds lead to a table in
      which every row is terminal. */
  lemma {:induction false} QueueIsWorkedOff(cfg: Config, s: State, w: WorkerId) returns (ss: seq<State>)
    requires Settled(cfg, s, w) && AllCanEnd(cfg, s.tasks)
    ensures ss != [] && ss[0] == s && forall i :: 0 <= i < |ss| - 1 ==> Round(cfg, ss[i], w, ss[i + 1])
    ensures AllTerminal(ss[|ss| - 1].tasks)
  {
    hide Round, Settled, AllCanEnd, AllTerminal;
    ss := RoundsAvailable(cfg, s, w, Measure(s.tasks));
    QueueDrains(cfg, w, ss);
  }
}
