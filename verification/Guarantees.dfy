/** The two halves put together: whatever sequence of the methods of `Pipeline`, `Worker`,
    `RuntimeSweep`, `Reconciler`, `OrphanReap` and `Controller` has run, interleaved with any
    other processes, the table obeys what is proved of the machine. */
module Guarantees {
  import opened Model
  import opened Table
  import opened Machine
  import opened Invariant
  import opened TaskRepo
  import Overshoot
  import Provenance
  import Safety

  /** The limits, as the table stands between any two calls. */
  lemma SlotsBounded(repo: Repo, l: Overshoot.Limit)
    requires repo.Valid() && |repo.sys.workers| >= 1
    ensures Count(Overshoot.GroupOf(l), repo.tasks) <= Overshoot.Bound(repo.cfg, l, |repo.sys.workers|)
  {
    WorkersCount(repo.cfg, ANYTHING, repo.start, repo.trace);
    Overshoot.BoundedOvershoot(repo.cfg, ANYTHING, l, repo.start, repo.trace);
  }

  /** `Run` has been called at most once for a task, and only for a start row that has left the
      queue. */
  lemma RunOnce(repo: Repo, id: TaskId)
    requires repo.Valid()
    ensures Provenance.RunsOf(repo.calls, id) <= 1
    ensures Provenance.RunsOf(repo.calls, id) == 1 ==>
      id in repo.tasks && repo.tasks[id].op.Start? && Launched(repo.tasks[id].status)
  {
    Provenance.RunsAreLaunches(repo.cfg, ANYTHING, repo.start, repo.trace, id);
    Safety.AtMostOnce(repo.cfg, ANYTHING, repo.start, repo.trace, id);
  }

  /** Every reference in the table was returned by `Run` for its row, and every success or stop
      it reports is backed by what a provider answered. */
  lemma TableIsBacked(repo: Repo, id: TaskId)
    requires repo.Valid() && id in repo.tasks
    ensures Provenance.RowBacked(repo.tasks[id], id, repo.calls)
  {
    Provenance.RowsAreBacked(repo.cfg, ANYTHING, repo.start, repo.trace);
  }

  /** What the listing of terminal rows that still carry a reference promises its reapers. */
  lemma ListedOrphansAreFinal(repo: Repo, listing: seq<Task>, i: nat)
    requires repo.Valid() && IsListing(listing, OrphanRows(repo.tasks), repo.tasks) && i < |listing|
    ensures Finished(repo.sys, listing[i].id) && listing[i].row.prov.Docker?
  {
    var id := listing[i].id;
    repo.Sound();
    assert RowShape(repo.sys.tasks[id]);
  }
}
