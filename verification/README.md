# Verification of mp_sched's task scheduling

mp_sched is a task scheduler built on one PostgreSQL table.  A controller inserts rows; any number
of workers claim pending rows, admit them under concurrency and GPU limits, hand them to a
provider and record what it started; a reconciler, two sweepers and orphan reapers write to the
same rows in the background.  There is no lock and no message queue: everything is coordinated
through the `status` and `runtime_ref` columns.  Some writes are compare-and-set, others are
unconditional and act on rows read earlier, and the limits are checked against counts that lock
nothing.  This project models that code in Dafny and proves what it keeps, and exactly when it
keeps it.

`dafny verify dfyconfig.toml` checks everything.

## How the model is built

There are two layers, tied together by proof.

**The state machine** (`Machine.dfy`).  A state holds the table, the stop records, the clock, one
program counter with locals per worker, and the locals of every background process: what the
reconciler and the sweepers have listed and not yet visited, the orphan reapers and the map of
those in flight, the half-finished restart requests.  A step is one database call or one provider
call of one process; only a reconciler's look at a row, a sweep's `Stop` and a reaper's look are
taken together with the database call beside them, which is no loss, because these provider calls
neither read nor write the table.  Steps interleave freely; any process may die between two steps
and any database call may fail, unless a theorem says otherwise (`Regime`).  The statements of the
admission transaction are separate steps, each count its own snapshot, and its conditional update
takes effect at commit.  A claim takes the oldest waiting row that is not locked, and at most one
row is locked for each other worker that may be claiming.  Rows are inserted for registered
providers only, as every caller of `Submit` sees to.  The reconciler, the orphan reaper and the two
sweepers run if the configuration switches them on.  What providers answer is arbitrary,
except for the rules of `Status` and `Stop` for an empty reference and the k8s stub
(`Providers.dfy`).  `Table.dfy` gives the effect of every SQL statement as a function of the table.

**The programs** (`TaskRepo.dfy`, `Pipeline.dfy`, `Worker.dfy`, `RuntimeSweep.dfy`,
`Reconciler.dfy`, `OrphanReap.dfy`, `Controller.dfy`).  The Go functions as methods over a mutable
table object, call by call and branch by branch.  Between any two calls `Repo.Others` lets all
other processes do anything the machine allows.  Each method logs the machine steps its calls
amount to, and `Repo.Valid` says that the log is a run of the machine which leads to the present
table and to the present list of calls.  Every call is on that list with its outcome, failed ones
included: reads, counts, listings, polls, writes and provider calls.  The contracts also say that
the actor has not died on the way (`Alive`).  The list is appended to by the methods of `Repo` alone;
given that, the only way to log a step is to make its calls: a method that skipped a call, made it
twice, took a wrong branch or wrote a wrong status would have no step to log.  What a method may not have achieved it must account for by a failed call on the
list.  So every theorem about the machine holds of the table and the calls these methods leave
behind (`Guarantees.dfy`).

The GPU accounting (`GpuSlots.dfy`) is modelled as the loops over maps that it is and proved
against pure specifications, which the machine uses.

Main results, each for all runs of all lengths:

- **Overshoot.**  With W workers a limit on a group of rows can be exceeded, by at most W - 1, under
  crashes, failing calls, unlocked counts and late writes (`Overshoot`).  The peak of each group is
  known exactly and reached by some fault-free run: the total limit + W - 1; for slow rows
  min(max_slow, max - min_free) + W - 1, or 0 if that minimum is not positive; for GPU rows
  min(least device multiplicity, max) + W - 1, or 0 without devices or if the workers claim no
  docker rows; and 0 for every group if the provider filter names no registered provider.  So with
  any other filter the total limit is an invariant exactly with one worker, and the slow limit, the
  reserve and the GPU slots exactly if the peak of their group is within them (`Tightness`).
- **At most once.**  A task is admitted at most once and handed to its provider at most once.
- **Provenance.**  Every reference in the table is one that `Run` returned for its row; a start row
  is succeeded only if a `Status` said so; a start row is stopped, and a stop succeeded, only after
  a `Stop` that reported success; no provider is asked about a row still in the queue
  (`Provenance`).
- **Permanence.**  A terminal start row comes back into a slot exactly if a worker is still in
  flight on it and can reach `UpdateRuntime`; a terminal row with a reference never does
  (`Safety`).  A successful stop is final if it saw its target running, or with one worker; with
  more it can be undone, unless no stop can succeed at all because the workers claim no rows of a
  registered provider (`Races`).
- **Restart.**  With one worker and no faults the clone enters a slot only after the stop is done;
  with two, one can be busy with the stop while the other lets the clone in, and original and clone
  can hold slots together (`Restarts`, `RestartRace`).
- **Order and progress.**  With one worker rows are served in creation order (`Fifo`).  A closed
  queue drains within a number of rounds fixed in advance (`Drain`), and the rounds can happen: a
  worker with a queue can always take a turn, and a running row can be ended by background
  processes if the reconciler is on and it runs under docker with a reference, or the runtime
  sweeper is on and it has a reference and a runtime limit (`Progress`).
- **Audit.**  Without faults every finished stop request has exactly one matching record (`Audit`).
- **Runtime limits.**  With timely sweeps no row that carries a reference, has a registered provider
  and a positive limit runs for its limit plus one sweep interval -- if the limit is at most
  9223372036 seconds.  Beyond that the product of limit and nanoseconds wraps around in 64 bits.
  Within a horizon the sweeper's test is right exactly if the limit fits or its wrapped product
  lies beyond the horizon; 9223372037 seconds wraps below zero, and such a task is failed the
  moment it runs (`RuntimeLimit`).
- **Slot leak.**  A running row keeps its slot in every run in which no stop request marks it stopped
  exactly if no tick or sweep under way has it in hand and its own columns give no process that is
  switched on a reason to look at it: with the reconciler off, which is the default, any row without
  a limit; otherwise, for example, a row whose reference a sweep cleared before it died.  An admitted
  row that no worker is in flight on keeps its slot in every such run exactly if there is no admitted
  sweeper, which is the default too (`SlotLeak`).
- **Stranded rows.**  A row stays `processing` in every run exactly if no worker is still to decide on
  it, and one failing database call of its worker between claim and commit brings that about
  (`Stranded`).
- **GPU slots.**  The map pipeline accepts n GPU tasks exactly if n is at most the least
  multiplicity of a configured id (`GpuSlots`).

Where code and documentation differ the model follows the code: `docs/CONFIG.md:47-49` gives the
concurrency limits as upper bounds without mentioning the number of workers,
`docs/CONFIG.md:85` and `docs/API.md:47` put no upper limit on `max_runtime_seconds`, and
`docs/API.md:47` has every task stopped that runs longer than its limit.

## Model

| member | source | states |
|---|---|---|
| Text.TrimSpaceIdempotent | internal/provider/docker/gpuslots.go:12-24 | a trimmed device id has no white space at either end, so trimming it again, as the accounting does, changes nothing |
| Text.SpaceIsWhite | internal/provider/docker/gpuslots.go:18 | the white space trimmed away is exactly the 25 characters listed one by one |
| Text.TrimSpaceFindsCore | internal/provider/docker/gpuslots.go:12-24 | what trimming leaves has no white space at its ends, and the string is white space, this, and white space |
| Text.TrimSpaceOf | internal/provider/docker/gpuslots.go:12-24 | white space around a string that has none at its ends is all that trimming takes away |
| Model.WantsGPUExactly | internal/provider/docker/gpuslots.go:41-49 | a field switches the GPU on exactly if it is "1", "true", "yes" or "on" in any capitals and small letters, with any white space around it |
| Model.WantsGPUOf | internal/provider/docker/gpuslots.go:41-49 | white space, one of the words in any casing, and white space switch it on |
| Model.WantsNoGPU | internal/provider/docker/gpuslots.go:40 | the empty string, "0", "all", "GPU-0" and "false" do not |
| Scheduler.AdmitExactly | internal/scheduler/admit.go:24-64 | a start task is admitted exactly if fewer than max_concurrent_running tasks hold slots and, if slow, fewer than max_concurrent_slow are slow and min_free slots remain after it; each refusal gives the first reason that applies; a stop always passes |
| Scheduler.LimitsClamped | internal/scheduler/admit.go:36-60 | a total limit below 1 acts as 1, a negative slow limit or reserve as 0 |
| Scheduler.AdmitKeepsPolicy | internal/scheduler/admit.go:24-64 | on exact counts that meet the policy an admission keeps it, and a refusal means the task would break it or eat into the reserved slots |
| GpuSlots.TrimGPUIDList | internal/provider/docker/gpuslots.go:12-24 | the loop computes the trimmed non-blank ids, repetitions kept |
| GpuSlots.HostGPUSlotCapacity | internal/provider/docker/gpuslots.go:27-37 | the loop computes the multiplicity counter of the trimmed list |
| Tally.CapacityIsMultiplicity | internal/provider/docker/gpuslots.go:27-37 | the counter holds exactly the listed ids, each with its multiplicity |
| Tally.CapacitiesAddUp | internal/provider/docker/gpuslots.go:27-37 | the capacities of the distinct ids add up to the length of the trimmed list |
| GpuSlots.ResolveDeviceIDsForAttach | internal/provider/docker/gpuslots.go:52-66 | the loop computes the deduplication of the trimmed list |
| Tally.DedupFirstOccurrences | internal/provider/docker/gpuslots.go:51-66 | the ids to attach are duplicate-free, are all the configured ids, and stand in first-occurrence order |
| GpuSlots.GpuSlotNeedFromAttach | internal/provider/docker/gpuslots.go:68-84 | the loop charges one slot per attached occurrence, and fails exactly if an id is unknown or none is left |
| GpuSlots.TaskGPUSlotNeed | internal/provider/docker/gpuslots.go:87-99 | no charge without GPU, an error without ids, otherwise the charge of the deduplicated list |
| GpuSlots.SumTaskGPUNeeds | internal/provider/docker/gpuslots.go:102-114 | the nested loops compute the sum of as many equal charges as there are GPU tasks |
| GpuSlots.ValidateGPUUsedWithinHostCapacity | internal/provider/docker/gpuslots.go:117-128 | the loop accepts exactly if every used id is known and within its capacity, in whatever order the map is visited |
| GpuSlots.RemainingGPUSlots | internal/provider/docker/gpuslots.go:131-142 | the loop computes capacity minus use for every host id, clamped at zero |
| GpuSlots.CheckDockerGPUOccupancy | internal/provider/docker/gpuslots.go:145-160 | the check succeeds exactly if the number of GPU-wanting tasks is at most the slot limit |
| GpuSlots.CheckDockerGPUOccupancyWithCandidate | internal/provider/docker/gpuslots.go:163-171 | the same with the candidate counted in |
| GpuSlots.MapPipelineIsCounter | internal/provider/docker/gpuslots.go:86-128 | summing the needs and validating them against the capacities accepts n GPU tasks exactly if n is at most the slot limit |
| GpuSlots.SlotLimitIsLeastMultiplicity | internal/provider/docker/gpuslots.go:26-37 | n is within the slot limit exactly if n is 0, or ids are configured and every id occurs at least n times |
| GpuSlots.NeedIsOneEach | internal/provider/docker/gpuslots.go:86-99 | with ids configured a GPU task is charged exactly one slot of every distinct id |
| GpuSlots.AttachmentMatchesCharge | internal/provider/docker/resources.go:60-74 | without a GPU no device is requested; with one the ids put into the device request are distinct, in first-occurrence order, and exactly the ids charged, one slot each |
| GpuSlots.HostCheckNeverContradictsAdmission | internal/provider/docker/hostresource.go:53-65 | a task that passed the admission check beside any number of others passes the GPU part of the host check |
| GpuSlots.RemainingIsExact | internal/provider/docker/gpuslots.go:130-142 | within the slot limit remaining + used = capacity for every id, and one more task fits exactly if every id has a slot left |
| GpuSlots.RemainingClamps | internal/provider/docker/gpuslots.go:131-142 | for every host id the rest is capacity minus use, or nothing if use has reached or exceeded the capacity |
| Providers.QueryStatus | internal/provider/docker/client.go:208-242 | docker answers by the state of the container as `DockerStatus` maps it, the k8s stub always unknown |
| Providers.StatusByState | internal/provider/docker/client.go:212-241 | for a row with a reference: running exactly if the container runs, is created or restarting; succeeded exactly if it exited with 0; failed exactly if it exited otherwise, is dead, being removed or not found; an error exactly if inspecting fails; never stopped |
| Providers.CanReportIff | internal/provider/docker/client.go:208-242 | docker can report a phase about a row exactly if the state machine lets it: without a reference only unknown, with one anything but stopped |
| Providers.ShowsByState | internal/reconciler/reconciler.go:48-70 | callers see a row's container as running, ended with 0, or ended otherwise or gone exactly if it is so, an error never as an end; the status written is succeeded for the second and failed for the third |
| Providers.Stop | internal/provider/docker/client.go:245-265 | fails exactly if a docker row has a reference and the removal fails on an existing container; a container already gone counts as stopped |
| TaskRepo.Repo.Get | internal/taskrepo/repo.go:276-282 | the current row, or nothing |
| TaskRepo.Repo.CountOccupying | internal/taskrepo/repo.go:38-61 | one count of one snapshot: the start rows that are admitted or running, all of them or those whose class is slow or fast |
| TaskRepo.Repo.ListDockerOccupyingGPUTasks | internal/taskrepo/repo.go:72-86 | a row is listed, once, exactly if it is a docker start row that is admitted or running |
| TaskRepo.Repo.ListStartByStatuses | internal/taskrepo/repo.go:105-114 | a row is listed, once, exactly if it is a start row that is admitted or running |
| TaskRepo.Repo.ListRunningStartWorkloadsWithRef | internal/taskrepo/repo.go:317-331 | a row is listed, once, exactly if it is a running start row whose reference has a character other than a space |
| TaskRepo.Repo.ListTerminalDockerWithRuntimeRef | internal/taskrepo/repo.go:120-135 | a row is listed, once, exactly if it is a docker start row that is succeeded, failed or stopped and whose reference has a character other than a space |
| TaskRepo.GpuListingCounts | internal/taskrepo/repo.go:72-86 | the GPU tasks in that listing are as many as the rows charged to the host's devices |
| TaskRepo.Repo.Create | internal/taskrepo/repo.go:259-273 | one new row under an unused id, or no change |
| TaskRepo.Repo.ClaimNext | internal/taskrepo/repo.go:192-228 | the claimed row is the oldest unlocked pending row of an allowed provider, and only it changes, to processing; nothing is claimed exactly if every waiting row is locked or the database fails |
| TaskRepo.Repo.TrySetStatus | internal/taskrepo/repo.go:247-256 | compare-and-set: the row changes and true is returned exactly if its status was the expected one |
| TaskRepo.Repo.ResetToPending | internal/taskrepo/repo.go:231-236 | compare-and-set from processing to pending |
| TaskRepo.Repo.UpdateStatus | internal/taskrepo/repo.go:293-298 | unconditional status write, nothing else changes but the time of the update |
| TaskRepo.Repo.UpdateRuntime | internal/taskrepo/repo.go:301-314 | unconditional write of running, reference and running stamp |
| TaskRepo.Repo.ClearRuntimeRef | internal/taskrepo/repo.go:138-146 | the reference becomes empty, the status stays |
| TaskRepo.Repo.RevertAdmittedStuck | internal/taskrepo/repo.go:340-349 | every row admitted and last updated before the cut fails, all others stay; the count is theirs |
| TaskRepo.Repo.CreateStop | internal/pipeline/pipeline.go:123-141 | one record appended, or no change |
| Invariant.InvStep | internal/pipeline/pipeline.go:143-282 | the invariant (row shapes, distinct holders, snapshots still fit, reaped rows finished, counters) is kept by every step of every process |
| Invariant.FinishedStep | internal/taskrepo/repo.go:301-314 | a terminal start row that no worker is in flight on stays so under every step |
| Invariant.RowStep | internal/taskrepo/repo.go:231-349 | whatever statement is issued keeps the row's columns and shape; only UpdateRuntime can undo a terminal status |
| Invariant.OutsiderStatement | internal/reconciler/reconciler.go:32-191 | processes other than workers only insert fresh pending rows, and finish or clear rows that have left the queue |
| Safety.AtMostOnce | internal/pipeline/pipeline.go:172-211 | in every reachable state each task has been admitted at most once and launched at most once, and admitted exactly if it is a start row that has left the queue |
| Safety.Shapes | internal/taskrepo/repo.go:301-349 | pending, processing and admitted rows have neither reference nor running stamp; running rows have a stamp, so the sweeper's fallback is dead; stop rows are never admitted, running, stopped, nor stuck |
| Safety.ReconcilerWrites | internal/reconciler/reconciler.go:41-71 | however stale its listing, the reconciler writes only rows it listed with a reference, that nobody is in flight on, and that are not admitted |
| Safety.TerminalWithRefIsFinal | internal/taskrepo/repo.go:120-135 | a terminal start row with a reference is terminal in every later state |
| Safety.ReaperIsSafe | internal/reconciler/reconciler.go:90-171 | whatever a reaper is about to do, its row is a docker start row out of its slot for good |
| Safety.FinishedForever | internal/reconciler/reconciler.go:81-97 | a finished row is finished after every run |
| Safety.StopIsFinal | internal/pipeline/pipeline.go:244-281 | a succeeded stop that saw its target running, or admitted with one worker, leaves the target out of its slot after every further run |
| Safety.RevivedExactlyByLateWriters | internal/pipeline/pipeline.go:186-219 | a terminal start row can occupy a slot again exactly if some worker is in flight on it and can still reach UpdateRuntime |
| Safety.SucceededStopStays | internal/pipeline/pipeline.go:275-278 | the outcome of a stop row is never overwritten |
| Safety.ColumnsKept | internal/taskrepo/repo.go:231-349 | rows are never removed and the columns set at insertion never change |
| Safety.ReachesLater | internal/taskrepo/repo.go:192-349 | what a process may rely on after all others have run: columns, finished rows, ended stops and cleared references stay |
| Provenance.RunAtMostOnce | internal/pipeline/pipeline.go:211 | the list of calls holds at most one Run per task in every reachable state |
| Provenance.RowsAreBacked | internal/pipeline/pipeline.go:211-278 | every reference was returned by Run for its row, every succeeded start row was seen succeeded, every stopped start row and every target of a succeeded stop has a Stop that reported success |
| Provenance.StoppedBy | internal/provider/docker/client.go:224-241 | only a stop request writes stopped: docker's Status never reports that phase, so the reconciler's branch for it is dead |
| Provenance.CallsAreAimed | internal/reconciler/reconciler.go:41-171 | every provider call ever made is about a start row that has been admitted |
| Overshoot.BoundedOvershoot | internal/pipeline/pipeline.go:147-217 | for each of the limits -- max_concurrent_running but at least 1, max_concurrent_slow, the former minus min_free, the least device multiplicity -- at most limit + workers - 1 rows of its group hold a slot in every reachable state; with one worker at most the limit |
| Overshoot.ReserveKept | internal/scheduler/admit.go:46-62 | with one worker slow tasks leave min_free slots, and the configured slow and total limits hold |
| Overshoot.GpuOvershoot | internal/pipeline/pipeline.go:163-171 | the tasks charged to a device exceed its multiplicity by at most workers - 1, and there are none without configured devices |
| Overshoot.RemainingSlots | internal/provider/docker/gpuslots.go:130-142 | in one-worker reachable states remaining + used = capacity for every id, and a GPU candidate passes exactly if every id has a slot left |
| Tightness.PeakIsReached | internal/pipeline/pipeline.go:147-180 | for each group some fault-free run reaches the peak |
| Tightness.NeverAbovePeak | internal/pipeline/pipeline.go:147-217 | no run goes above the peak of any group |
| Tightness.InvariantIffPeakWithin | internal/scheduler/admit.go:36-63 | a bound on a group is an invariant exactly if the peak is within it, in every deployment |
| Tightness.TotalLimitHoldsIff | internal/scheduler/admit.go:36-44 | the configured max_concurrent_running is an invariant exactly with one worker and a limit of at least 1, or, if it is not negative, if no rows of a registered provider are claimed |
| Tightness.SlowLimitHoldsIff | internal/scheduler/admit.go:46-53 | the configured max_concurrent_slow is an invariant exactly if it is not negative and no rows of a registered provider are claimed, min(max_slow, max - min_free) is not positive, or plus W - 1 is within max_slow |
| Tightness.ReserveHoldsIff | internal/scheduler/admit.go:54-62 | slow rows always leave min_free slots exactly if there are that many, and no rows of a registered provider are claimed, min(max_slow, max - min_free) is not positive, or plus W - 1 is within max - min_free |
| Tightness.GpuLimitHoldsIff | internal/provider/docker/gpuslots.go:116-171 | no device is ever charged beyond its multiplicity exactly if no GPU row gets in, or min(least multiplicity, max) + W - 1 is within the least multiplicity |
| Races.StopUndone | internal/pipeline/pipeline.go:217 | with two workers that claim rows of a registered provider a run exists in which a succeeded stop's target is running afterwards |
| Races.StopsLastIff | internal/pipeline/pipeline.go:244-281 | every succeeded stop lasts, whatever it read, exactly with one worker or if no rows of a registered provider are claimed, where none succeeds |
| Races.LastingStop | internal/pipeline/pipeline.go:244-281 | with one worker the target of every succeeded stop is out of its slot for good |
| Restarts.RestartExclusion | internal/controller/restart.go:36-48 | one worker, no faults, growing stamps: once the clone has left the queue the stop row is terminal, and unless the provider's Stop failed the original is out of its slot for good |
| RestartRace.CloneRuns | internal/controller/restart.go:18-48 | with two workers a fault-free run exists in which the clone is let in while the stop is still processing; with room for two the original holds its slot too |
| RestartRace.ExclusionIff | internal/controller/restart.go:18-48 | restart exclusion holds exactly with one worker or if no rows of a registered provider are claimed, where no clone is let in |
| Fifo.ServedInOrder | internal/taskrepo/repo.go:199-220 | one worker, growing stamps, faults allowed: the rows that have left pending are a prefix of creation order among those the worker may claim |
| Fifo.ServedAreClaimableRun | internal/taskrepo/repo.go:199-205 | no row leaves the queue past the provider filter |
| Audit.StopAudit | internal/pipeline/pipeline.go:231-281 | without faults, for any number of workers, a stop row nobody holds is pending without a record, or succeeded or failed with exactly one record that names its target and whose OK flag says which |
| Drain.CallsDrop | internal/pipeline/pipeline.go:143-282 | every call a worker makes brings its turn closer to its end |
| Drain.TurnProgress | internal/worker/runner.go:30-63 | a turn of the worker makes the measure smaller, or the row was refused and then somebody holds a slot |
| Drain.QueueDrains | internal/worker/runner.go:30-63 | one worker, no faults, no inserts, every queued row admissible alone: after at least Measure rounds of "a turn, then a workload ends" every row is terminal |
| Progress.TurnAvailable | internal/worker/runner.go:30-63 | a settled worker with rows in its queue can take a turn, whatever its provider calls return |
| Progress.EndAvailable | internal/reconciler/reconciler.go:36-71 | background processes can end a running row, and leave all others alone, if the reconciler is on and it is a docker row with a reference, or the runtime sweeper is on and will find it over its limit |
| Progress.QueueIsWorkedOff | internal/worker/runner.go:30-63 | from a settled state whose rows can all end -- under docker with the reconciler on, or by a limit with the runtime sweeper on -- rounds in which every launch succeeds lead to a table in which every row is terminal |
| RuntimeLimit.TestIsExactIffLimitFits | internal/worker/runtime_sweep.go:63-74 | the sweeper's 64-bit test agrees with the intended one within every horizon exactly if the limit is at most 9223372036 seconds |
| RuntimeLimit.LimitByColumn | internal/worker/runtime_sweep.go:41-52 | a row's own positive limit applies, the default at 0, and none if it is negative |
| RuntimeLimit.WrapInRange | internal/worker/runtime_sweep.go:72 | the 64-bit product is the one number in range that differs from the true one by a multiple of 2^64 |
| RuntimeLimit.JudgesRightIff | internal/worker/runtime_sweep.go:63-74 | the test is right for all elapsed times up to a horizon exactly if the limit fits or its wrapped product lies beyond the horizon |
| RuntimeLimit.FirstWrongLimit | internal/worker/runtime_sweep.go:72 | 9223372037 is the first limit that does not fit, and is found exceeded after no time at all |
| RuntimeLimit.HarmlessWrap | internal/worker/runtime_sweep.go:72 | not every limit that does not fit does harm: 27670116109 seconds is judged right for 285 years |
| RuntimeLimit.FreshRowFails | internal/worker/runtime_sweep.go:17-91 | with the runtime sweeper on a run exists in which a task with that limit is marked failed at the moment it started |
| RuntimeLimit.RuntimeBound | internal/worker/runtime_sweep.go:54-96 | with timely instantaneous sweeps no start row with a reference, a registered provider and a positive fitting limit runs for limit + interval or longer |
| SlotLeak.LeaksIffForgotten | internal/worker/runtime_sweep.go:81-91 | a running row keeps running in every run in which no stop marks it stopped, exactly if no tick or sweep has it in hand and its columns give no process that is switched on a reason to look |
| SlotLeak.LeakArises | internal/worker/runtime_sweep.go:17-88 | with the runtime sweeper on a run exists in which a task over its limit has its reference cleared and then stays running, because the sweep dies or its second write fails |
| SlotLeak.AdmittedLeaksIff | internal/worker/runner.go:26-29 | an admitted row no worker is in flight on stays admitted in every run in which no stop marks it stopped, exactly if the admitted sweeper is off |
| SlotLeak.AbandonmentArises | internal/pipeline/pipeline.go:172-191 | a run exists that leaves such a row: its worker dies after the commit |
| Stranded.StrandedIff | internal/worker/runner.go:49-60 | a processing row stays processing in every run exactly if no worker that holds it is still to decide on it |
| Stranded.FailureStrands | internal/pipeline/pipeline.go:95-277 | whichever database call of the worker fails from the claim to the commit or the reset, or at a stop's write of its own outcome, or if the worker dies, the row is stranded |
| Stranded.StrandingArises | internal/pipeline/pipeline.go:99-102 | a run exists in which a claimed task is stranded |
| Pipeline.Pipeline.Admission | internal/pipeline/pipeline.go:147-183 | done: the row is admitted; not admitted: the row is still held, processing, for the reset; any error ends the dispatch |
| Pipeline.Pipeline.Policy | internal/pipeline/pipeline.go:156-162 | three counts of three snapshots and Admit decide as the machine does |
| Pipeline.Pipeline.GpuCheck | internal/pipeline/pipeline.go:163-171 | the map loops over the listed tasks decide as the machine's counter does |
| Pipeline.Pipeline.CommitAdmitted | internal/pipeline/pipeline.go:172-180 | the conditional update decides whether the row is admitted |
| Pipeline.Pipeline.LoadAdmitted | internal/pipeline/pipeline.go:186-195 | the row is read under a known provider; otherwise marking it failed was tried, or the read failed |
| Pipeline.Pipeline.CheckResources | internal/pipeline/pipeline.go:196-210 | unless the answer is positive, marking the row failed was tried |
| Pipeline.Pipeline.LaunchAndRecord | internal/pipeline/pipeline.go:211-221 | done: the row is running with the reference Run returned, stamped now, whatever others had made of it; otherwise marking it failed was tried, or the write of that reference failed |
| Pipeline.Pipeline.Tail | internal/pipeline/pipeline.go:186-221 | an admitted row is running at the end, or it could not be read, marking it failed was tried, or the launch could not be recorded |
| Pipeline.Pipeline.ExecuteStart | internal/pipeline/pipeline.go:143-222 | every call is a step of the machine; a refused row is still this worker's, a started one is running |
| Pipeline.Pipeline.ReadTarget | internal/pipeline/pipeline.go:231-262 | the stop goes on exactly if the target is a start row, admitted or running, under the same provider, docker or k8s; otherwise it fails with what was read |
| Pipeline.Pipeline.FailStop | internal/pipeline/pipeline.go:232-236 | marking the own row failed was tried and a record of the failure filed or tried, and the worker is free |
| Pipeline.Pipeline.WriteStopRec | internal/pipeline/pipeline.go:123-141 | the record is in the list of records or its insert failed; the own row keeps its outcome |
| Pipeline.Pipeline.StopTargetRow | internal/pipeline/pipeline.go:263-274 | a failing Stop or a failing write of the target makes the stop fail |
| Pipeline.Pipeline.SucceedOwnRow | internal/pipeline/pipeline.go:275-277 | the stop's own row succeeds, or the worker gives up without a record |
| Pipeline.Pipeline.StopHolds | internal/pipeline/pipeline.go:244-281 | between any two calls: what a succeeded stop read is on record, and its target is out for good unless it was read admitted beside other workers |
| Pipeline.Pipeline.ExecuteStop | internal/pipeline/pipeline.go:224-282 | success: own row succeeded, recorded as such, and the target is out of its slot for good if it was read running or there is one worker; otherwise the own row was marked failed and the failure recorded, as far as the database allowed, or the write of succeeded failed |
| Pipeline.Pipeline.Dispatch | internal/pipeline/pipeline.go:95-110 | only a refusal by policy leaves the row with the worker |
| Worker.Worker.Claim | internal/worker/runner.go:35-46 | one poll: the claimed row is processing and this worker's; nothing only if every waiting row was locked, and an error only if the poll failed |
| Worker.Worker.Reset | internal/worker/runner.go:51-57 | the refused row is pending again and the worker free, or the write failed |
| Worker.Worker.Run | internal/worker/runner.go:18-64 | every round polls the queue once and is a run of the machine after which the worker, still alive, holds nothing |
| Worker.SweepAdmitted | internal/worker/runner.go:74-86 | the cut lies admitted_timeout_seconds before now, in 64 bits; exactly the rows admitted and last updated before it fail, all of them start rows; every other row is unchanged |
| RuntimeSweep.DueExactly | internal/worker/runtime_sweep.go:61-79 | a listed row is due exactly if its provider is known and its own positive limit has passed or, at 0, the positive default one; never if it is negative |
| RuntimeSweep.HitByColumn | internal/worker/runtime_sweep.go:61-79 | the same of a single row: the limit has passed since the running stamp or, without one, since the last update |
| RuntimeSweep.FailingIsFinal | internal/worker/runtime_sweep.go:84-88 | a row the sweeper fails is out of its slot for good |
| RuntimeSweep.Visit | internal/worker/runtime_sweep.go:61-95 | one round: the row is gone after (Stop, clear, fail, in this order) exactly if its provider is known and it is over its limit, and ends up out of its slot for good unless the write of failed failed |
| RuntimeSweep.SweepRuntimeTimeouts | internal/worker/runtime_sweep.go:54-96 | the listing is that of a state on the way; the rows gone after are exactly the running start rows with a reference, a known provider and a limit they have reached; each was stopped and cleared and is out of its slot for good unless the write of failed failed; nothing is listed only if the query failed |
| Reconciler.ReconcilingIsFinal | internal/reconciler/reconciler.go:57-69 | an end is seen only on docker rows listed with a reference; succeeded is written for success and failed for failure, for good |
| Reconciler.Reconcile | internal/reconciler/reconciler.go:41-71 | the provider is asked exactly if there is one; succeeded is written if its container has exited with 0, failed if it ended otherwise or is gone, and nothing in any other case |
| Reconciler.Tick | internal/reconciler/reconciler.go:32-78 | the listing is that of a state on the way, exactly the start rows in slots; every listed row with a known provider was asked about; succeeded is written for a container that exited with 0 and failed for one that ended otherwise or is gone, for good, unless the write failed; nothing is listed only if the query failed |
| OrphanReap.Runner.Spawn | internal/reconciler/reconciler.go:90-97 | a goroutine starts exactly if the row has no mark, and then the process has no reaper for it |
| OrphanReap.Runner.TickOrphanReap | internal/reconciler/reconciler.go:81-97 | the listing is that of a state on the way; visited are exactly the docker start rows that are succeeded, failed or stopped and carry a reference; those that get a reaper are exactly the unmarked ones, and each of them is out of its slot for good; switched off, it makes no call |
| OrphanReap.Runner.Observe | internal/reconciler/reconciler.go:108-127 | one look moves the reaper on as the machine says by what the container of the row as read shows; a row with a cleared reference shows no phase to act on |
| OrphanReap.Runner.ReapOrphan | internal/reconciler/reconciler.go:106-171 | Stop only after 1 + len(waits) consecutive looks at a container that is up; clearing only after that or after it has ended or is gone; nothing at all if the reference was cleared before it began; a completed clear leaves nothing to reap; it gives up only on a container that is neither or on a failing read |
| Controller.Handlers.Submit | internal/pipeline/pipeline.go:52-92 | one pending row with the given columns; no change only if a stop names no target or the insert failed |
| Controller.Handlers.Enqueue | internal/controller/http.go:39-93 | a request is inserted as one waiting row with all its columns, image trimmed and empty business replaced, exactly if its operation is empty, start or stop, its provider docker or k8s, a stop names a target, and the insert succeeds; nothing else changes |
| Controller.Handlers.EnqueueStopForTarget | internal/controller/http.go:96-125 | a pending stop row with an empty workload, aimed at an existing start row under its registered provider and class; nothing only if there is no such row or a call failed |
| Controller.Handlers.RestartStartWorkload | internal/controller/restart.go:19-59 | queued and stop rows are rejected, a finished row is cloned, a row in its slot gets a stop and then a clone stamped no earlier; the clone carries the original's workload; anything less takes a failing call or an unknown provider |
| Guarantees.SlotsBounded | internal/pipeline/pipeline.go:147-217 | the table the methods leave behind obeys all four overshoot bounds between any two calls |
| Guarantees.RunOnce | internal/pipeline/pipeline.go:211 | the calls these methods have made include at most one Run per task, and only for start rows that have left the queue |
| Guarantees.TableIsBacked | internal/pipeline/pipeline.go:211-278 | every row of that table is backed by those calls |
| Guarantees.ListedOrphansAreFinal | internal/taskrepo/repo.go:120-135 | every row in the orphan listing is a docker row out of its slot for good |

The definitions these rows speak about, and the code they stand for: `Table.Apply` (the SQL of
`internal/taskrepo/repo.go`), `Machine.StartPc` and `Machine.StopPc` (`executeStart`,
`executeStop`), `Machine.Overdue` (`internal/worker/runtime_sweep.go:41-74`), `Machine.ReapNext`
(`reapOrphanGoroutine`), `Scheduler.Admit`, `Providers.DockerStatus`, `Providers.DockerStop`,
`Controller.Validate`, `Model.WantsGPU`.

## Left out

- HTTP routing, JSON views, pagination and the listing API: plumbing without shared state.
- Telemetry, log shipping, callbacks and `FinalFlushDockerLogs`: they write no row; they are no-ops here.
- Docker Engine calls, image pulls, OSS downloads and staging directories: what `ResourceCheck`, `Run`, `Status` and `Stop` answer is arbitrary within the rules of `Providers.dfy`.
- `parseNanoCPUs` and `parseMemoryBytes`: floating point and an external units library; of `validateTaskHostResources` only the GPU part is modelled.
- GORM and PostgreSQL: each call is atomic, each count is one statement's snapshot, a conditional update is atomic, and a claim takes the oldest pending row no concurrent claim has locked; lock conflicts, deadlocks and serialization failures count as failing calls.
- Soft deletion of rows: no modelled code deletes a row.
- Configuration loading, and workers with different configurations: one scheduler configuration, `gpu_ids` list and provider filter is shared by all workers, and a background process counts as switched on if any worker runs it.
- Task ids are natural numbers and operations a datatype; the SQL's tolerance for blank operations is not modelled, because `Submit` and `Create` never store one.
- Provider names other than docker and k8s stand for unregistered providers.
- Contexts and cancellation: a cancelled process is one that dies between two calls; loops run for a given number of rounds.
- A failing `Status` counts as one that reports nothing known (`Providers.Shows`); every caller treats the two alike.
- `Machine.Sweep` takes the sweep's time at the listing, where the code reads the clock right after it.
- Controller.Handlers.Submit: asks for a registered provider; the code checks that in its callers (`internal/controller/http.go:53-55` and `:107-109`) or copies it from an existing row.
- Reconciler.Tick: asks for the switch its loop checks before the call (`internal/reconciler/reconciler.go:211-213`).
- RuntimeSweep.SweepRuntimeTimeouts: asks for the switch checked before its loop is started (`internal/worker/runtime_sweep.go:18-20`).
- Drain.QueueDrains: assumes that a workload ends in every round; that a provider ever reports an end is not provable from this code. `Progress.EndAvailable` says when it can.
- Restarts.RestartExclusion: for one worker and no faults only, as the source's comment warns; `RestartRace.ExclusionIff` shows why.
- RuntimeLimit.RuntimeBound: sweeps are instantaneous and their status writes succeed; a sweep of the real duration d adds d to the bound.
- TaskRepo.Repo.ClaimNext: which rows other claims have locked is arbitrary, up to one for each other idle worker.
