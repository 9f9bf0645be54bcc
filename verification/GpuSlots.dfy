/** `internal/provider/docker/gpuslots.go` and the GPU parts of `hostresource.go` and
    `resources.go`: the loops over slices and maps, each proved against a specification, and
    the counter they amount to. */
module GpuSlots {
  import opened Model
  import opened Tally
  import opened Text

  // ---- Specifications ----

  /** The configured ids, trimmed, blanks dropped, duplicates kept. */
  function TrimList(ids: seq<string>): seq<string> {
    if ids == [] then []
    else
      var t := TrimSpace(ids[|ids| - 1]);
      TrimList(ids[..|ids| - 1]) + if t == "" then [] else [t]
  }

  /** How many GPU tasks the host can run side by side: the least multiplicity of any
      configured id, and none at all without ids. */
  function SlotLimit(ids: seq<string>): nat {
    var l := TrimList(ids);
    if l == [] then 0 else LeastBelow(l, |l|)
  }

  function CountWants(tasks: seq<Task>): nat {
    if tasks == [] then 0
    else CountWants(tasks[..|tasks| - 1]) + if WantsGPU(tasks[|tasks| - 1].row.work.gpu) then 1 else 0
  }

  /** One GPU task's charge: one per occurrence in `attach`, provided every id is a host id. */
  function NeedFromAttach(hostCap: map<string, int>, attach: seq<string>): Result<map<string, int>> {
    var l := TrimList(attach);
    if l == [] || exists id :: id in l && id !in hostCap then Err else Ok(Capacity(l))
  }

  /** The charge of a GPU task; `hostCap` and `ids` are passed separately, as in the source. */
  function NeedWhenWanted(hostCap: map<string, int>, ids: seq<string>): Result<map<string, int>> {
    if hostCap == map[] then Err else NeedFromAttach(hostCap, Dedup(TrimList(ids)))
  }

  /** The charges of `n` GPU tasks, added up one task at a time. */
  function SumNeeds(n: nat, hostCap: map<string, int>, ids: seq<string>): Result<map<string, int>> {
    if n == 0 then Ok(map[])
    else
      var total, need := SumNeeds(n - 1, hostCap, ids), NeedWhenWanted(hostCap, ids);
      if total.Err? || need.Err? then Err else Ok(Plus(total.value, need.value))
  }

  predicate WithinCapacity(hostCap: map<string, int>, used: map<string, int>) {
    forall id :: id in used ==> id in hostCap && used[id] <= hostCap[id]
  }

  function Remaining(hostCap: map<string, int>, used: map<string, int>): map<string, int> {
    map id | id in hostCap ::
      if hostCap[id] > At(used, id) then hostCap[id] - At(used, id) else 0
  }

  // ---- The loops ----

  method TrimGPUIDList(ids: seq<string>) returns (out: seq<string>)
    ensures out == TrimList(ids)
  {
    out := [];
    for i := 0 to |ids|
      invariant out == TrimList(ids[..i])
    {
      var id := TrimSpace(ids[i]);
      assert ids[..i + 1][..i] == ids[..i];
      if id != "" {
        out := out + [id];
      }
    }
    assert ids[..|ids|] == ids;
  }

  method HostGPUSlotCapacity(hostIDs: seq<string>) returns (m: map<string, int>)
    ensures m == Capacity(TrimList(hostIDs))
  {
    var list := TrimGPUIDList(hostIDs);
    CapacityEmpty(list);
    if |list| == 0 {
      return map[];
    }
    m := map[];
    for i := 0 to |list|
      invariant m == Capacity(list[..i])
    {
      var id := list[i];
      assert list[..i + 1] == list[..i] + [id];
      CapacitySnoc(list[..i], id);
      m := m[id := At(m, id) + 1];
    }
    assert list[..|list|] == list;
  }

  method ResolveDeviceIDsForAttach(ids: seq<string>) returns (out: seq<string>)
    ensures out == Dedup(TrimList(ids))
  {
    var list := TrimGPUIDList(ids);
    var seen: set<string> := {};
    out := [];
    for i := 0 to |list|
      invariant forall id :: id in seen <==> id in list[..i]
      invariant out == Dedup(list[..i])
    {
      var id := list[i];
      assert list[..i + 1] == list[..i] + [id];
      DedupSnoc(list[..i], id);
      if id in seen {
        continue;
      }
      seen := seen + {id};
      out := out + [id];
    }
    assert list[..|list|] == list;
  }

  method GpuSlotNeedFromAttach(hostCap: map<string, int>, attach: seq<string>)
    returns (r: Result<map<string, int>>)
    ensures r == NeedFromAttach(hostCap, attach)
  {
    hide TrimSpace;
    var out: map<string, int> := map[];
    for i := 0 to |attach|
      invariant out == Capacity(TrimList(attach[..i]))
      invariant forall id :: id in TrimList(attach[..i]) ==> id in hostCap
    {
      var id := TrimSpace(attach[i]);
      ghost var before := TrimList(attach[..i]);
      TrimListSnoc(attach, i);
      if id == "" {
        continue;
      }
      if id !in hostCap {
        TrimListHas(attach, i);
        return Err;
      }
      CapacitySnoc(before, id);
      out := out[id := At(out, id) + 1];
    }
    assert attach[..|attach|] == attach;
    CapacityEmpty(TrimList(attach));
    if |out| == 0 {
      return Err;
    }
    r := Ok(out);
  }

  method TaskGPUSlotNeed(resGPU: string, hostCap: map<string, int>, ids: seq<string>)
    returns (r: Result<map<string, int>>)
    ensures r == if WantsGPU(resGPU) then NeedWhenWanted(hostCap, ids) else Ok(map[])
  {
    if !WantsGPU(resGPU) {
      return Ok(map[]);
    }
    if |hostCap| == 0 {
      return Err;
    }
    var attach := ResolveDeviceIDsForAttach(ids);
    r := GpuSlotNeedFromAttach(hostCap, attach);
  }

  method SumTaskGPUNeeds(tasks: seq<Task>, hostCap: map<string, int>, ids: seq<string>)
    returns (r: Result<map<string, int>>)
    ensures r == SumNeeds(CountWants(tasks), hostCap, ids)
  {
    var total: map<string, int> := map[];
    for i := 0 to |tasks|
      invariant SumNeeds(CountWants(tasks[..i]), hostCap, ids) == Ok(total)
    {
      var m := TaskGPUSlotNeed(tasks[i].row.work.gpu, hostCap, ids);
      CountWantsSnoc(tasks, i);
      if m.Err? {
        CountWantsPrefix(tasks, i + 1);
        SumNeedsErr(CountWants(tasks), hostCap, ids);
        return Err;
      }
      PlusNothing(total);
      total := AddInto(total, m.value);
    }
    assert tasks[..|tasks|] == tasks;
    r := Ok(total);
  }

  /** The inner loop `for k, v := range m { total[k] += v }`, in any iteration order. */
  method AddInto(total: map<string, int>, m: map<string, int>) returns (out: map<string, int>)
    ensures out == Plus(total, m)
  {
    out := total;
    var todo := m.Keys;
    while todo != {}
      invariant todo <= m.Keys
      invariant out.Keys == total.Keys + (m.Keys - todo)
      invariant forall k :: k in out ==> out[k] == At(total, k) + if k in todo then 0 else At(m, k)
      decreases todo
    {
      var k :| k in todo;
      out := out[k := At(out, k) + m[k]];
      todo := todo - {k};
    }
  }

  method ValidateGPUUsedWithinHostCapacity(hostCap: map<string, int>, used: map<string, int>)
    returns (ok: bool)
    ensures ok == WithinCapacity(hostCap, used)
  {
    var todo := used.Keys;
    while todo != {}
      invariant todo <= used.Keys
      invariant forall id :: id in used && id !in todo ==> id in hostCap && used[id] <= hostCap[id]
      decreases todo
    {
      var id :| id in todo;
      if id !in hostCap || used[id] > hostCap[id] {
        return false;
      }
      todo := todo - {id};
    }
    ok := true;
  }

  method RemainingGPUSlots(hostCap: map<string, int>, used: map<string, int>) returns (rem: map<string, int>)
    ensures rem == Remaining(hostCap, used)
  {
    rem := map[];
    var todo := hostCap.Keys;
    while todo != {}
      invariant todo <= hostCap.Keys
      invariant rem.Keys == hostCap.Keys - todo
      invariant forall id :: id in rem ==> rem[id] == Remaining(hostCap, used)[id]
      decreases todo
    {
      var id :| id in todo;
      var u := At(used, id);
      rem := rem[id := if hostCap[id] > u then hostCap[id] - u else 0];
      todo := todo - {id};
    }
  }

  /** Every route through the maps comes down to one comparison: the number of listed tasks
      that want a GPU against the slot limit. */
  method CheckDockerGPUOccupancy(ids: seq<string>, tasks: seq<Task>) returns (ok: bool)
    ensures ok <==> CountWants(tasks) <= SlotLimit(ids)
  {
    var hostCap := HostGPUSlotCapacity(ids);
    CapacityEmpty(TrimList(ids));
    if |hostCap| == 0 {
      for i := 0 to |tasks|
        invariant CountWants(tasks[..i]) == 0
      {
        assert tasks[..i + 1][..i] == tasks[..i];
        if WantsGPU(tasks[i].row.work.gpu) {
          CountWantsPrefix(tasks, i + 1);
          return false;
        }
      }
      assert tasks[..|tasks|] == tasks;
      return true;
    }
    var used := SumTaskGPUNeeds(tasks, hostCap, ids);
    MapPipelineIsCounter(ids, CountWants(tasks));
    if used.Err? {
      return false;
    }
    ok := ValidateGPUUsedWithinHostCapacity(hostCap, used.value);
  }

  method CheckDockerGPUOccupancyWithCandidate(ids: seq<string>, occupying: seq<Task>, candidate: Task)
    returns (ok: bool)
    ensures ok <==>
      CountWants(occupying) + (if WantsGPU(candidate.row.work.gpu) then 1 else 0) <= SlotLimit(ids)
  {
    var combined := occupying + [candidate];
    assert combined[..|occupying|] == occupying;
    ok := CheckDockerGPUOccupancy(ids, combined);
  }

  // ---- Lemmas the loops use ----

  lemma TrimListSnoc(ids: seq<string>, i: nat)
    requires i < |ids|
    ensures var t, before := TrimSpace(ids[i]), TrimList(ids[..i]);
            TrimList(ids[..i + 1]) == if t == "" then before else before + [t]
  {
    assert ids[..i + 1][..i] == ids[..i];
  }

  lemma {:induction false} TrimListHas(ids: seq<string>, i: nat)
    requires i < |ids| && TrimSpace(ids[i]) != ""
    ensures TrimSpace(ids[i]) in TrimList(ids)
    decreases |ids|
  {
    if i == |ids| - 1 {
    } else {
      TrimListHas(ids[..|ids| - 1], i);
    }
  }

  lemma CountWantsSnoc(tasks: seq<Task>, i: nat)
    requires i < |tasks|
    ensures CountWants(tasks[..i + 1]) == CountWants(tasks[..i]) + if WantsGPU(tasks[i].row.work.gpu) then 1 else 0
  {
    assert tasks[..i + 1][..i] == tasks[..i];
  }

  lemma {:induction false} CountWantsPrefix(tasks: seq<Task>, k: nat)
    requires k <= |tasks|
    ensures CountWants(tasks[..k]) <= CountWants(tasks)
    decreases |tasks|
  {
    if k < |tasks| {
      var init := tasks[..|tasks| - 1];
      assert init[..k] == tasks[..k];
      CountWantsPrefix(init, k);
    } else {
      assert tasks[..k] == tasks;
    }
  }

  lemma PlusNothing(m: map<string, int>)
    ensures Plus(m, map[]) == m
  {
  }

  lemma SumNeedsErr(n: nat, hostCap: map<string, int>, ids: seq<string>)
    requires NeedWhenWanted(hostCap, ids).Err?
    ensures n > 0 ==> SumNeeds(n, hostCap, ids).Err?
  {
  }

  // ---- What the accounting means ----

  /** Every listed id is a trimmed, non-blank string. */
  lemma {:induction false} TrimListTight(ids: seq<string>)
    ensures forall i :: 0 <= i < |TrimList(ids)| ==>
              TrimList(ids)[i] != "" && TrimSpace(TrimList(ids)[i]) == TrimList(ids)[i]
  {
    if ids == [] {
    } else {
      TrimListTight(ids[..|ids| - 1]);
      TrimSpaceIdempotent(ids[|ids| - 1]);
    }
  }

  lemma {:induction false} TrimListFixed(l: seq<string>)
    requires forall i :: 0 <= i < |l| ==> l[i] != "" && TrimSpace(l[i]) == l[i]
    ensures TrimList(l) == l
  {
    hide TrimSpace;
    if l == [] {
    } else {
      TrimListFixed(l[..|l| - 1]);
      assert l == l[..|l| - 1] + [l[|l| - 1]];
    }
  }

  lemma DedupTight(ids: seq<string>)
    ensures TrimList(Dedup(TrimList(ids))) == Dedup(TrimList(ids))
  {
    var l := TrimList(ids);
    var d := Dedup(l);
    TrimListTight(ids);
    DedupFirstOccurrences(l);
    forall i | 0 <= i < |d| ensures d[i] != "" && TrimSpace(d[i]) == d[i] {
      assert d[i] in d;
    }
    TrimListFixed(d);
  }

  /** `m` holds exactly the listed ids, each with count `n`. */
  ghost predicate Flat(m: map<string, int>, l: seq<string>, n: int) {
    && (forall id :: id in m <==> id in l)
    && (forall id :: id in m ==> m[id] == n)
  }

  lemma FlatOfDistinct(l: seq<string>, d: seq<string>)
    requires Distinct(d)
    requires forall id :: id in d <==> id in l
    ensures Flat(Capacity(d), l, 1)
  {
    DistinctCapacity(d);
    CapacityIsMultiplicity(d);
  }

  lemma NeedOfTightList(hostCap: map<string, int>, d: seq<string>)
    requires TrimList(d) == d && d != []
    requires forall i :: 0 <= i < |d| ==> d[i] in hostCap
    ensures NeedFromAttach(hostCap, d) == Ok(Capacity(d))
  {
  }

  /** With ids configured, a GPU task is charged exactly one slot of every distinct id. */
  lemma {:induction false} NeedIsOneEach(ids: seq<string>)
    requires TrimList(ids) != []
    ensures var need := NeedWhenWanted(Capacity(TrimList(ids)), ids);
            need.Ok? && Flat(need.value, TrimList(ids), 1)
  {
    var l := TrimList(ids);
    var d := Dedup(l);
    DedupFirstOccurrences(l);
    FlatOfDistinct(l, d);
    assert l[0] in l && l[0] in d;
    DedupTight(ids);
    CapacityEmpty(l);
    CapacityIsMultiplicity(l);
    assert forall i :: 0 <= i < |d| ==> d[i] in l;
    NeedOfTightList(Capacity(l), d);
  }

  /** What `n` GPU tasks use: nothing, or `n` slots of every listed id. */
  ghost predicate FlatUse(m: map<string, int>, l: seq<string>, n: int) {
    if n == 0 then m == map[] else Flat(m, l, n)
  }

  lemma FlatPlus(total: map<string, int>, need: map<string, int>, l: seq<string>, n: int)
    requires FlatUse(total, l, n) && Flat(need, l, 1) && n >= 0
    ensures FlatUse(Plus(total, need), l, n + 1)
  {
  }

  lemma {:induction false} SumIsFlat(n: nat, hostCap: map<string, int>, ids: seq<string>, l: seq<string>)
    requires NeedWhenWanted(hostCap, ids).Ok? && Flat(NeedWhenWanted(hostCap, ids).value, l, 1)
    ensures SumNeeds(n, hostCap, ids).Ok? && FlatUse(SumNeeds(n, hostCap, ids).value, l, n)
  {
    if n == 0 {
    } else {
      SumIsFlat(n - 1, hostCap, ids, l);
      FlatPlus(SumNeeds(n - 1, hostCap, ids).value, NeedWhenWanted(hostCap, ids).value, l, n - 1);
    }
  }

  lemma UsedIsFlat(ids: seq<string>, n: nat)
    requires TrimList(ids) != []
    ensures var used := SumNeeds(n, Capacity(TrimList(ids)), ids);
            used.Ok? && FlatUse(used.value, TrimList(ids), n)
  {
    NeedIsOneEach(ids);
    SumIsFlat(n, Capacity(TrimList(ids)), ids, TrimList(ids));
  }

  lemma FlatUseFits(l: seq<string>, used: map<string, int>, n: nat)
    requires l != [] && FlatUse(used, l, n)
    ensures WithinCapacity(Capacity(l), used) <==> n == 0 || forall id :: id in l ==> n <= multiset(l)[id]
  {
    CapacityIsMultiplicity(l);
    if n > 0 {
      assert forall id :: id in l ==> id in used;
    }
  }

  /** The map pipeline -- sum the needs, look every id up, compare -- accepts `n` GPU tasks
      exactly when `n` is within the slot limit. */
  lemma MapPipelineIsCounter(ids: seq<string>, n: nat)
    ensures var hostCap := Capacity(TrimList(ids));
            var used := SumNeeds(n, hostCap, ids);
            (used.Ok? && WithinCapacity(hostCap, used.value)) <==> n <= SlotLimit(ids)
  {
    var l := TrimList(ids);
    SlotLimitIsLeastMultiplicity(ids, n);
    if l != [] {
      UsedIsFlat(ids, n);
      FlatUseFits(l, SumNeeds(n, Capacity(l), ids).value, n);
    } else if n > 0 {
      SumNeedsErr(n, Capacity(l), ids);
    }
  }

  /** The slot limit, said without naming a position. */
  lemma SlotLimitIsLeastMultiplicity(ids: seq<string>, n: nat)
    ensures n <= SlotLimit(ids) <==>
      n == 0 || (TrimList(ids) != [] && forall id :: id in TrimList(ids) ==> n <= multiset(TrimList(ids))[id])
  {
    var l := TrimList(ids);
    if l != [] {
      var i :| 0 <= i < |l| && SlotLimit(ids) == multiset(l)[l[i]];
      assert l[i] in l;
      forall id | id in l ensures SlotLimit(ids) <= multiset(l)[id] {
        var j :| 0 <= j < |l| && l[j] == id;
      }
    }
  }

  /** `gpuDeviceRequestsForTask`: the ids put into the container's device request. */
  function DeviceRequestIDs(resGPU: string, ids: seq<string>): seq<string> {
    if WantsGPU(resGPU) then Dedup(TrimList(ids)) else []
  }

  /** The GPU part of `validateTaskHostResources`. */
  predicate HostGPUCheck(resGPU: string, ids: seq<string>) {
    WantsGPU(resGPU) ==>
      var hostCap := Capacity(TrimList(ids));
      hostCap != map[] && NeedFromAttach(hostCap, Dedup(TrimList(ids))).Ok?
  }

  /** What is attached is what is charged: the device ids of a GPU task are distinct, stand in
      first-occurrence order, and are exactly the keys of its charge, one slot each. */
  lemma {:induction false} AttachmentMatchesCharge(resGPU: string, ids: seq<string>)
    ensures !WantsGPU(resGPU) ==> DeviceRequestIDs(resGPU, ids) == []
    ensures WantsGPU(resGPU) ==>
      var l, dev := TrimList(ids), DeviceRequestIDs(resGPU, ids);
      && Distinct(dev)
      && (forall id :: id in dev <==> id in l)
      && (forall i, j :: 0 <= i < j < |dev| ==> FirstIndex(l, dev[i]) < FirstIndex(l, dev[j]))
    ensures WantsGPU(resGPU) && TrimList(ids) != [] ==>
      var need := NeedWhenWanted(Capacity(TrimList(ids)), ids);
      need.Ok? && Flat(need.value, DeviceRequestIDs(resGPU, ids), 1)
  {
    hide WantsGPU;
    DedupFirstOccurrences(TrimList(ids));
    if TrimList(ids) != [] {
      NeedIsOneEach(ids);
    }
  }

  /** Use beyond the capacity, which several workers can bring about, shows as nothing left. */
  lemma RemainingClamps(hostCap: map<string, int>, used: map<string, int>, id: string)
    requires id in hostCap
    ensures Remaining(hostCap, used).Keys == hostCap.Keys
    ensures At(used, id) <= hostCap[id] ==> Remaining(hostCap, used)[id] + At(used, id) == hostCap[id]
    ensures At(used, id) >= hostCap[id] ==> Remaining(hostCap, used)[id] == 0
  {
  }

  /** A task let through by the admission check, whatever else is running, is never turned away
      on GPU grounds by the later host check. */
  lemma HostCheckNeverContradictsAdmission(ids: seq<string>, occupying: nat, resGPU: string)
    requires occupying + (if WantsGPU(resGPU) then 1 else 0) <= SlotLimit(ids)
    ensures HostGPUCheck(resGPU, ids)
  {
    if WantsGPU(resGPU) {
      CapacityEmpty(TrimList(ids));
      NeedIsOneEach(ids);
    }
  }

  /** While use is within the slot limit, what remains plus what is used is the capacity of
      every id, and a further GPU task fits exactly when every id has a slot left. */
  lemma RemainingIsExact(ids: seq<string>, n: nat)
    requires n <= SlotLimit(ids) && TrimList(ids) != []
    ensures var cap := Capacity(TrimList(ids));
            var used := SumNeeds(n, cap, ids);
            && used.Ok?
            && (forall id :: id in cap ==> Remaining(cap, used.value)[id] + n == cap[id])
            && (n + 1 <= SlotLimit(ids) <==> forall id :: id in cap ==> Remaining(cap, used.value)[id] >= 1)
  {
    hide TrimList, TrimSpace, SumNeeds, NeedWhenWanted, Capacity, SlotLimit;
    var l := TrimList(ids);
    CapacityIsMultiplicity(l);
    UsedIsFlat(ids, n);
    SlotLimitIsLeastMultiplicity(ids, n);
    SlotLimitIsLeastMultiplicity(ids, n + 1);
    var used := SumNeeds(n, Capacity(l), ids).value;
    forall id | id in Capacity(l) ensures At(used, id) == n {
      assert id in l;
    }
  }
}
