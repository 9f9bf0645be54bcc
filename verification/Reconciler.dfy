/** `internal/reconciler/reconciler.go`: the tick that writes what the providers report. */
module Reconciler {
  import opened Model
  import opened Table
  import opened Machine
  import opened Providers
  import opened Invariant
  import opened Safety
  import opened TaskRepo

  /** A phase that ends a workload is only ever seen on a row listed with a reference, and the
      status written for it is final. */
  lemma ReconcilingIsFinal(cfg: Config, s: State, p: ProcId, id: TaskId, phase: Phase)
    requires Inv(s) && Enabled(cfg, s, ReconItem(p, id, phase, true))
    requires Registered(s.recon[p][id].prov) && Gone(phase)
    ensures s.recon[p][id].ref != "" && s.recon[p][id].prov.Docker? && (phase.PhaseSucceeded? || phase.PhaseFailed?)
    ensures Finished(Next(cfg, s, ReconItem(p, id, phase, true)), id)
    ensures Next(cfg, s, ReconItem(p, id, phase, true)).tasks[id].status
         == if phase.PhaseSucceeded? then Succeeded else Failed
  {
    hide CallsOf, NextHistory, NextWorkers, Counters, Reapers, Requests;
    var e := ReconItem(p, id, phase, true);
    assert SnapshotFits(s, id, s.recon[p][id]);
    StepFlows(cfg, s, e);
    DetachedFlows(s, Next(cfg, s, e), id);
    assert StatementOf(s, e) == UpdateStatus(id, PhaseStatus(phase));
  }

  /** The listed rows, as the tick remembers them. */
  ghost function Snapshot(t: Tasks): Tasks {
    map id | id in t && Occupies(t[id]) :: t[id]
  }

  /** One row of a tick, as found from the state `before` on: the provider is asked if there is
      one, and its answer is written if it ends the workload and in no other case. */
  method Reconcile(repo: Repo, ghost p: ProcId, ghost left: Tasks, task: Task)
    returns (phase: Phase, settled: bool, ghost before: State, ghost ins: Inspect)
    requires repo.Valid() && p in repo.sys.recon && repo.sys.recon[p] == left
    requires task.id in left && left[task.id] == task.row
    modifies repo
    ensures repo.Carries(Ticker(p), old(repo.sys), old(repo.trace))
    ensures p in repo.sys.recon && repo.sys.recon[p] == left - {task.id}
    ensures repo.Passed(before, |old(repo.trace)|)
    ensures settled ==> EndedWell(task.row, ins) || EndedBadly(task.row, ins)
    ensures repo.tasks ==
      if settled
      then SetStatus(before.tasks, task.id, if EndedWell(task.row, ins) then Succeeded else Failed, before.now)
      else before.tasks
    ensures Registered(task.row.prov) ==> Answered(repo.sys, |old(repo.sys).calls|, task, phase, settled, ins)
  {
    hide Inv, IsRun, Exec, Initial, Reaches, Finished, Reaped, SameColumns, Answered;
    repo.Others(Ticker(p));
    before := repo.sys;
    ghost var steps := repo.trace;
    if Registered(task.row.prov) {
      phase, settled, ins := Ask(repo, p, left, task);
      AnsweredLater(repo.sys, repo.sys, |before.calls|, |old(repo.sys).calls|, task, phase, settled, ins);
    } else {
      settled, phase, ins := false, PhaseUnknown, NoState;
      repo.Step(ReconItem(p, task.id, phase, settled));
    }
    repo.HasPassed(before, steps, |old(repo.trace)|);
  }

  method Ask(repo: Repo, ghost p: ProcId, ghost left: Tasks, task: Task)
    returns (phase: Phase, settled: bool, ghost ins: Inspect)
    requires repo.Valid() && p in repo.sys.recon && repo.sys.recon[p] == left && Inv(repo.sys)
    requires task.id in left && left[task.id] == task.row && Registered(task.row.prov)
    modifies repo
    ensures repo.Carries(Ticker(p), old(repo.sys), old(repo.trace))
    ensures p in repo.sys.recon && repo.sys.recon[p] == left - {task.id}
    ensures settled ==> EndedWell(task.row, ins) || EndedBadly(task.row, ins)
    ensures repo.tasks ==
      if settled
      then SetStatus(old(repo.tasks), task.id, if EndedWell(task.row, ins) then Succeeded else Failed, old(repo.now))
      else old(repo.tasks)
    ensures Answered(repo.sys, |old(repo.sys).calls|, task, phase, settled, ins)
  {
    hide Inv, IsRun, Exec, Initial, Reaches, Finished, NextRequests, NextSweeps, NextListed, NextReapers, NextMarks;
    hide NextWorkers, WorkStatement, WorkPc, StartPc, StopPc, WorkCalls, WorkHistory, Legal, HolderFits, Rows, Holding;
    hide Watchers, Reapers, Requests, Counters, EndedWell, EndedBadly, Shows;
    settled := false;
    phase, ins := repo.Status(task.id, task.row);
    ShowsByState(task.row, ins);
    assert repo.calls[|repo.calls| - 1] == Looked(task.id, phase);
    if Gone(phase) {
      settled := repo.UpdateStatus(task.id, PhaseStatus(phase));
      assert repo.calls[|repo.calls| - 2] == Looked(task.id, phase);
      assert repo.calls[|repo.calls| - 1] == Wrote(UpdateStatus(task.id, PhaseStatus(phase)), settled);
      if settled {
        ReconcilingIsFinal(repo.cfg, repo.sys, p, task.id, phase);
      }
    }
    repo.Step(ReconItem(p, task.id, phase, settled));
  }

  /** The row's provider was asked and saw the container as `ins` says; success is written for a
      container that exited with 0, failure for one that ended otherwise or is gone -- for good,
      unless the write failed -- and nothing in any other case. */
  ghost predicate Answered(s: State, since: nat, task: Task, phase: Phase, settled: bool, ins: Inspect) {
    && phase == Shows(task.row, ins) && Made(s.calls, since, Looked(task.id, phase))
    && (EndedWell(task.row, ins) ==> EndWritten(s, since, task.id, Succeeded, settled))
    && (EndedBadly(task.row, ins) ==> EndWritten(s, since, task.id, Failed, settled))
    && (settled ==> EndedWell(task.row, ins) || EndedBadly(task.row, ins))
  }

  ghost predicate EndWritten(s: State, since: nat, id: TaskId, st: Status, settled: bool) {
    Made(s.calls, since, Wrote(UpdateStatus(id, st), settled)) && (settled ==> Finished(s, id))
  }

  lemma AnsweredLater(
    s: State, s': State, since: nat, since': nat, task: Task, phase: Phase, settled: bool, ins: Inspect)
    requires Answered(s, since, task, phase, settled, ins) && s.calls <= s'.calls && since' <= since
    requires Finished(s, task.id) ==> Finished(s', task.id)
    ensures Answered(s', since', task, phase, settled, ins)
  {
    hide Finished, Shows, EndedWell, EndedBadly;
    MadeBefore(s.calls, s'.calls, since, since', Looked(task.id, phase));
  }

  ghost predicate AllAnswered(s: State, since: nat, listing: seq<Task>, answers: seq<Phase>, settled: set<TaskId>,
                              sights: seq<Inspect>) {
    && |sights| == |answers| <= |listing|
    && forall i :: 0 <= i < |answers| && Registered(listing[i].row.prov) ==>
         Answered(s, since, listing[i], answers[i], listing[i].id in settled, sights[i])
  }

  /** `Tick`, which the loop calls only if the reconciler is switched on.  It lists the table as it
      stands in a state `seen` on the way, and looks at every listed row with a known provider
      once; an ending it sees is written, for good, unless the write fails.  It comes back with
      nothing only if the listing failed. */
  method Tick(repo: Repo, ghost p: ProcId)
    returns (ghost seen: State, ok: bool, listing: seq<Task>, answers: seq<Phase>, settled: set<TaskId>,
             ghost sights: seq<Inspect>)
    requires repo.Valid() && repo.cfg.reconcile
    modifies repo
    ensures repo.Carries(Ticker(p), old(repo.sys), old(repo.trace)) && repo.Passed(seen, |old(repo.trace)|)
    ensures ok ==> IsListing(listing, Occupying(Everyone, seen.tasks), seen.tasks)
    ensures ok ==> forall id :: Lists(listing, id) <==> id in seen.tasks && InSlotColumns(seen.tasks[id])
    ensures !ok ==> listing == [] && Made(repo.sys.calls, |old(repo.sys).calls|, Queried(SlotRows, false))
    ensures |answers| == |listing| && AllAnswered(repo.sys, |old(repo.sys).calls|, listing, answers, settled, sights)
  {
    hide Inv, IsRun, Exec, Initial, Reaches, Finished, Reaped, SameColumns, IsListing, Occupies, Answered, Repo.Passed;
    ok, listing := Scan(repo, p);
    seen, answers, settled, sights := repo.sys, [], {}, [];
    ghost var steps := repo.trace;
    if ok {
      ghost var left := Snapshot(repo.tasks);
      ListingOfSnapshot(listing, Occupying(Everyone, repo.tasks), repo.tasks, left);
      answers, settled, sights := Walk(repo, p, listing, left, |old(repo.sys).calls|);
    }
    repo.HasPassed(seen, steps, |old(repo.trace)|);
  }

  method Scan(repo: Repo, ghost p: ProcId) returns (ok: bool, listing: seq<Task>)
    requires repo.Valid() && repo.cfg.reconcile
    modifies repo
    ensures repo.Carries(Ticker(p), old(repo.sys), old(repo.trace))
    ensures ok ==> IsListing(listing, Occupying(Everyone, repo.sys.tasks), repo.sys.tasks)
    ensures ok ==> forall id :: Lists(listing, id) <==> id in repo.sys.tasks && InSlotColumns(repo.sys.tasks[id])
    ensures ok ==> p in repo.sys.recon && repo.sys.recon[p] == Snapshot(repo.sys.tasks)
    ensures !ok ==> listing == [] && Made(repo.sys.calls, |old(repo.sys).calls|, Queried(SlotRows, false))
  {
    hide Inv, IsRun, Exec, Initial, Reaches, Finished, Reaped, SameColumns, IsListing, Occupies;
    repo.Others(Ticker(p));
    ok, listing := repo.ListStartByStatuses();
    assert repo.calls[|repo.calls| - 1] == Queried(SlotRows, ok);
    repo.Step(ReconList(p, ok));
    listing := if ok then listing else [];
  }

  /** The loop over the listing. */
  method Walk(repo: Repo, ghost p: ProcId, listing: seq<Task>, ghost snap: Tasks, ghost since: nat)
    returns (answers: seq<Phase>, settled: set<TaskId>, ghost sights: seq<Inspect>)
    requires repo.Valid() && p in repo.sys.recon && repo.sys.recon[p] == snap
    requires IsListing(listing, snap.Keys, snap) && since <= |repo.sys.calls|
    modifies repo
    ensures repo.Carries(Ticker(p), old(repo.sys), old(repo.trace))
    ensures |answers| == |listing| && AllAnswered(repo.sys, since, listing, answers, settled, sights)
  {
    hide Inv, IsRun, Exec, Initial, Reaches, Finished, SameColumns, IsListing, Answered, Repo.Passed;
    answers, settled, sights := [], {}, [];
    ghost var left := snap;
    while |answers| < |listing|
      invariant |answers| <= |listing| && repo.Carries(Ticker(p), old(repo.sys), old(repo.trace))
      invariant p in repo.sys.recon && repo.sys.recon[p] == left
      invariant IsListing(listing[|answers|..], left.Keys, left)
      invariant forall id :: id in settled ==> id !in left
      invariant forall i :: 0 <= i < |answers| ==> listing[i].id !in left
      invariant AllAnswered(repo.sys, since, listing, answers, settled, sights)
    {
      var i := |answers|;
      ListingRest(listing[i..], left);
      assert listing[i..][1..] == listing[i + 1..];
      var phase, done;
      ghost var ins;
      phase, done, ins := Round(repo, p, left, listing, answers, settled, since, sights);
      left := left - {listing[i].id};
      answers, sights := answers + [phase], sights + [ins];
      settled := if done then settled + {listing[i].id} else settled;
    }
  }

  /** One row, seen from the loop: the answers so far stay as they are. */
  method Round(repo: Repo, ghost p: ProcId, ghost left: Tasks, listing: seq<Task>, answers: seq<Phase>,
               settled: set<TaskId>, ghost since: nat, ghost sights: seq<Inspect>)
    returns (phase: Phase, done: bool, ghost ins: Inspect)
    requires repo.Valid() && p in repo.sys.recon && repo.sys.recon[p] == left
    requires |answers| < |listing| && listing[|answers|].id in left
    requires left[listing[|answers|].id] == listing[|answers|].row
    requires listing[|answers|].id !in settled && forall i :: 0 <= i < |answers| ==> listing[i].id !in left
    requires AllAnswered(repo.sys, since, listing, answers, settled, sights) && since <= |repo.sys.calls|
    modifies repo
    ensures repo.Carries(Ticker(p), old(repo.sys), old(repo.trace))
    ensures p in repo.sys.recon && repo.sys.recon[p] == left - {listing[|answers|].id}
    ensures AllAnswered(repo.sys, since, listing, answers + [phase],
                        if done then settled + {listing[|answers|].id} else settled, sights + [ins])
  {
    hide Inv, IsRun, Exec, Initial, Reaches, Finished, SameColumns, Answered, Repo.Passed;
    ghost var was, steps, before := repo.sys, repo.trace, repo.sys;
    var task := listing[|answers|];
    phase, done, before, ins := Reconcile(repo, p, left, task);
    repo.Since(was, steps);
    forall i | 0 <= i < |answers| && Registered(listing[i].row.prov)
      ensures Answered(repo.sys, since, listing[i], answers[i], listing[i].id in settled, sights[i])
    {
      AnsweredLater(was, repo.sys, since, since, listing[i], answers[i], listing[i].id in settled, sights[i]);
    }
    if Registered(task.row.prov) {
      AnsweredLater(repo.sys, repo.sys, |was.calls|, since, task, phase, done, ins);
    }
  }
}
