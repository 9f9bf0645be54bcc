/** The task row and the configuration, as every other module sees them. */
module Model {
  import Text

  datatype Option<+T> = None | Some(value: T)

  datatype Result<+T> = Ok(value: T) | Err

  /** Task ids are UUIDs in the database; only their equality matters. */
  type TaskId = nat

  datatype Op = Start | Stop

  datatype Class = Fast | Slow | OtherClass(name: string)

  datatype Provider = Docker | K8s | Unregistered(name: string)

  datatype Status = Pending | Processing | Admitted | Running | Succeeded | Failed | Stopped

  /** What a start row asks for; the scheduler itself reads only `gpu` and `maxRuntime`. */
  datatype Workload = Workload(
    business: string, image: string, cpu: string, memory: string, gpu: string, maxRuntime: int)

  /** A row of the `tasks` table.  Times are nanoseconds. */
  datatype Row = Row(
    op: Op, target: Option<TaskId>, cls: Class, prov: Provider, work: Workload,
    status: Status, ref: string, runningAt: Option<int>, createdAt: int, updatedAt: int)

  /** A row together with its key, as the listing queries return it. */
  datatype Task = Task(id: TaskId, row: Row)

  datatype StopRecord = StopRecord(request: TaskId, target: TaskId, before: Option<Status>, ok: bool)

  /** Scheduler limits, GPU slot list, provider filter and background settings of one deployment;
      all workers share it.  The reconciler, the orphan reaper and the runtime sweeper run only if
      switched on, the admitted sweeper only if `admittedTimeout`, in seconds, is positive; `waits`
      are the orphan watch intervals. */
  datatype Config = Config(
    maxRunning: int, maxSlow: int, minFree: int, gpuIDs: seq<string>,
    allowed: set<Provider>, defaultMaxRuntime: int, admittedTimeout: int, waits: seq<int>,
    reconcile: bool, reapOrphans: bool, runtimeSweep: bool)

  predicate Registered(p: Provider) {
    !p.Unregistered?
  }

  predicate Claimable(cfg: Config, r: Row) {
    cfg.allowed == {} || r.prov in cfg.allowed
  }

  predicate InSlot(st: Status) {
    st == Admitted || st == Running
  }

  predicate Terminal(st: Status) {
    st == Succeeded || st == Failed || st == Stopped
  }

  /** The SQL test `COALESCE(NULLIF(TRIM(runtime_ref), ''), '') != ''`. */
  predicate HasRef(r: Row) {
    exists i :: 0 <= i < |r.ref| && r.ref[i] != ' '
  }

  /** A start row counted against the concurrency limits. */
  predicate Occupies(r: Row) {
    r.op.Start? && InSlot(r.status)
  }

  /** `TaskWantsGPU`: only "1", "true", "yes" and "on" switch the GPU on. */
  predicate WantsGPU(resGPU: string) {
    var s := Text.ToLower(Text.TrimSpace(resGPU));
    s == "1" || s == "true" || s == "yes" || s == "on"
  }

  /** A row charged one slot of every configured GPU id while it occupies a slot. */
  predicate UsesGPU(r: Row) {
    r.op.Start? && r.prov.Docker? && WantsGPU(r.work.gpu)
  }

  /** The values that switch the GPU on: one of four words in any mixture of capital and small
      letters, with any white space around it. */
  lemma {:induction false} WantsGPUExactly(resGPU: string)
    ensures WantsGPU(resGPU) <==>
      exists core, word :: word in {"1", "true", "yes", "on"} && Text.Spells(core, word) && Text.IsCore(resGPU, core)
  {
    hide Text.ToLower, Text.TrimSpace, Text.Spells, Text.IsCore;
    var core := Text.TrimSpace(resGPU);
    Text.TrimSpaceFindsCore(resGPU);
    forall word | word in Text.WORDS ensures Text.ToLower(core) == word <==> Text.Spells(core, word) {
      Text.LowerSpells(core, word);
    }
    forall c, word | word in Text.WORDS && Text.Spells(c, word) && Text.IsCore(resGPU, c) ensures WantsGPU(resGPU) {
      Text.TrimSpaceOf(resGPU, c);
    }
    if WantsGPU(resGPU) {
      var word := Text.ToLower(core);
      assert word in {"1", "true", "yes", "on"} && Text.Spells(core, word) && Text.IsCore(resGPU, core);
    }
  }

  /** Put together from its parts: white space, the word, white space. */
  lemma WantsGPUOf(a: string, core: string, b: string, word: string)
    requires Text.AllWhite(a) && Text.AllWhite(b)
    requires word in {"1", "true", "yes", "on"} && Text.Spells(core, word)
    ensures WantsGPU(a + core + b)
  {
    hide Text.ToLower, Text.TrimSpace, WantsGPU;
    assert Text.IsCore(a + core + b, core) by {
      Text.SpelledIsTight(core, word);
    }
    WantsGPUExactly(a + core + b);
  }

  lemma OtherWordIsOff(s: string)
    requires s != "" ==> !Text.IsSpace(s[0]) && !Text.IsSpace(s[|s| - 1])
    requires forall word :: word in {"1", "true", "yes", "on"} ==> !Text.Spells(s, word)
    ensures !WantsGPU(s)
  {
    hide Text.TrimSpace, WantsGPU, Text.Spells;
    Text.TightIsCore(s);
    WantsGPUExactly(s);
    if core, word :| word in {"1", "true", "yes", "on"} && Text.Spells(core, word) && Text.IsCore(s, core) {
      Text.TrimSpaceOf(s, core);
      Text.TrimSpaceOf(s, s);
      assert false;
    }
  }

  /** No GPU without a word for it: nothing, zero, and the values of an older form of the field. */
  lemma WantsNoGPU()
    ensures !WantsGPU("") && !WantsGPU("0") && !WantsGPU("all") && !WantsGPU("GPU-0") && !WantsGPU("false")
  {
    hide WantsGPU;
    assert "all"[0] == 'a' && "0"[0] == '0';
    OtherWordIsOff("");
    OtherWordIsOff("0");
    OtherWordIsOff("all");
    OtherWordIsOff("GPU-0");
    OtherWordIsOff("false");
  }
}
