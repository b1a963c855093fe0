/** The generation engine of app/hooks/useImageGeneration.ts: task expansion in
    `generate`, the retry loop of `executeWithRetry`, the per-task save-and-mark
    sequence, and `retryItem`. Each task is run to its end before the next one
    starts. */
module Engine {
  import opened Types
  import opened Seqs
  import opened Selections
  import opened Settings
  import opened ImageDb
  import opened Gallery
  import opened Providers
  import opened Retry

  /** `getModel(models, id)` as the hook calls it: the first stored model with the id. */
  function GetModel(models: seq<StoredModel>, id: string): (r: Option<StoredModel>)
    ensures r.None? <==> forall i :: 0 <= i < |models| ==> models[i].id != id
    ensures r.Some? ==> r.value.id == id && r.value in models
  {
    var k := FindModel(models, id);
    if k.Some? then Some(models[k.value]) else None
  }

  /** The sidebar inputs `generate` reads from the gallery store. */
  datatype Inputs = Inputs(
    prompt: string,
    selections: ModelSelections,
    aspectRatio: AspectRatio,
    resolution: Resolution,
    referenceImages: seq<ReferenceImage>)

  /** A task and the pending gallery item registered for it. */
  datatype Planned = Planned(task: GenerationTask, item: GalleryItem)

  function Blobs(refs: seq<ReferenceImage>): (r: seq<Blob>)
    ensures |r| == |refs| && forall i :: 0 <= i < |refs| ==> r[i] == refs[i].blob
  {
    seq(|refs|, i requires 0 <= i < |refs| => refs[i].blob)
  }

  function RefIds(refs: seq<ReferenceImage>): (r: seq<string>)
    ensures |r| == |refs| && forall i :: 0 <= i < |refs| ==> r[i] == refs[i].id
  {
    seq(|refs|, i requires 0 <= i < |refs| => refs[i].id)
  }

  /** The resolution gate: the selected resolution for a model that supports one, null otherwise. */
  function TaskResolution(model: StoredModel, resolution: Resolution): (r: Option<Resolution>)
    ensures r.Some? <==> model.capabilities.supportsResolution
    ensures r.Some? ==> r.value == resolution
  {
    if model.capabilities.supportsResolution then Some(resolution) else None
  }

  /** The task and pending item the inner loop pushes for one id. */
  function PlanOne(id: string, modelId: string, model: StoredModel, inp: Inputs): Planned
  {
    var res := TaskResolution(model, inp.resolution);
    Planned(GenerationTask(id, modelId, model.name, model.provider, inp.prompt, inp.aspectRatio, res,
                           Blobs(inp.referenceImages)),
            GalleryItem(id, ItemInfo(modelId, model.name, inp.prompt, inp.aspectRatio, res, RefIds(inp.referenceImages)),
                        Pending, Some(0)))
  }

  /** What a task and its pending item promise: the same id and model, the model
      found under that id, the gated resolution, status pending with retry count 0. */
  predicate WellPlanned(p: Planned, id: string, models: seq<StoredModel>, inp: Inputs)
  {
    p.task.id == id && p.item.id == id &&
    p.item.status == Pending && p.item.retryCount == Some(0) &&
    GetModel(models, p.task.modelId).Some? &&
    p.task.provider == GetModel(models, p.task.modelId).value.provider &&
    p.task.resolution == TaskResolution(GetModel(models, p.task.modelId).value, inp.resolution) &&
    p.item.info == ItemInfo(p.task.modelId, p.task.modelName, inp.prompt, inp.aspectRatio, p.task.resolution,
                            RefIds(inp.referenceImages)) &&
    p.task.prompt == inp.prompt && p.task.aspectRatio == inp.aspectRatio &&
    p.task.referenceImages == Blobs(inp.referenceImages)
  }

  /** How many tasks one selections entry yields: none for a zero count or an
      unknown model, otherwise as many as the loop `i < count` runs. */
  function EntryCount(e: Entry, models: seq<StoredModel>): nat
  {
    if e.count == 0 || GetModel(models, e.modelId).None? then 0 else Max0(e.count)
  }

  /** The tasks of one entry, the ids drawn from `uuid` from call `start` on. */
  function EntryPlan(e: Entry, models: seq<StoredModel>, inp: Inputs, uuid: nat -> string, start: nat): (r: seq<Planned>)
    ensures |r| == EntryCount(e, models)
    ensures forall i :: 0 <= i < |r| ==> r[i].task.modelId == e.modelId && WellPlanned(r[i], uuid(start + i), models, inp)
  {
    if EntryCount(e, models) == 0 then []
    else
      var m := GetModel(models, e.modelId).value;
      assert forall id :: WellPlanned(PlanOne(id, e.modelId, m, inp), id, models, inp);
      seq(Max0(e.count), i requires 0 <= i < Max0(e.count) => PlanOne(uuid(start + i), e.modelId, m, inp))
  }

  lemma EntryPlanAt(e: Entry, models: seq<StoredModel>, inp: Inputs, uuid: nat -> string, start: nat, i: nat)
    requires i < EntryCount(e, models)
    ensures EntryPlan(e, models, inp, uuid, start)[i] ==
      PlanOne(uuid(start + i), e.modelId, GetModel(models, e.modelId).value, inp)
  {
  }

  /** What the nested loops of `generate` build, entry by entry in record order. */
  function Plan(sel: ModelSelections, models: seq<StoredModel>, inp: Inputs, uuid: nat -> string): (r: seq<Planned>)
    ensures forall k :: 0 <= k < |r| ==> WellPlanned(r[k], uuid(k), models, inp)
    decreases |sel|
  {
    if sel == [] then []
    else
      var prev := Plan(sel[..|sel| - 1], models, inp, uuid);
      var block := EntryPlan(sel[|sel| - 1], models, inp, uuid, |prev|);
      PlannedAppend(prev, block, models, inp, uuid);
      prev + block
  }

  /** Appending the tasks of one more entry, numbered on from the earlier ones,
      keeps every task well planned under its own id. */
  lemma PlannedAppend(prev: seq<Planned>, block: seq<Planned>, models: seq<StoredModel>, inp: Inputs,
                      uuid: nat -> string)
    requires forall k :: 0 <= k < |prev| ==> WellPlanned(prev[k], uuid(k), models, inp)
    requires forall i :: 0 <= i < |block| ==> WellPlanned(block[i], uuid(|prev| + i), models, inp)
    ensures forall k :: 0 <= k < |prev + block| ==> WellPlanned((prev + block)[k], uuid(k), models, inp)
  {
    forall k | 0 <= k < |prev + block|
      ensures WellPlanned((prev + block)[k], uuid(k), models, inp)
    {
      if k >= |prev| {
        var i := k - |prev|;
        assert (prev + block)[k] == block[i];
        assert |prev| + i == k;
      }
    }
  }

  function TasksOf(p: seq<Planned>): (r: seq<GenerationTask>)
    ensures |r| == |p| && forall k :: 0 <= k < |p| ==> r[k] == p[k].task
  {
    seq(|p|, k requires 0 <= k < |p| => p[k].task)
  }

  function ItemsOf(p: seq<Planned>): (r: seq<GalleryItem>)
    ensures |r| == |p| && forall k :: 0 <= k < |p| ==> r[k] == p[k].item
  {
    seq(|p|, k requires 0 <= k < |p| => p[k].item)
  }

  function ForModel(modelId: string): Planned -> bool
  {
    (p: Planned) => p.task.modelId == modelId
  }

  /** The count of a model in a record with one more entry at the end. */
  lemma CountOfSnoc(init: ModelSelections, last: Entry, m: string)
    requires UniqueIds(init + [last])
    ensures CountOf(init + [last], m) == if last.modelId == m then Some(last.count) else CountOf(init, m)
    ensures last.modelId == m ==> CountOf(init, m).None?
  {
    var sel := init + [last];
    assert forall i :: 0 <= i < |init| ==> sel[i] == init[i];
    if last.modelId == m {
      assert forall i :: 0 <= i < |init| ==> init[i].modelId != m by {
        forall i | 0 <= i < |init| ensures init[i].modelId != m { assert sel[i] == init[i] && sel[|init|] == last; }
      }
      var v := CountOf(sel, m);
      assert sel[|init|] == last;
      var i :| 0 <= i < |sel| && sel[i] == Entry(m, v.value);
      assert i == |init|;
    } else if CountOf(init, m).Some? {
      var v := CountOf(init, m).value;
      var i :| 0 <= i < |init| && init[i] == Entry(m, v);
      var w := CountOf(sel, m).value;
      var j :| 0 <= j < |sel| && sel[j] == Entry(m, w);
      assert j == i;
    }
  }

  /** Each model in the selections yields exactly as many tasks as its count says;
      a count of zero, a negative count, an unknown model or a model not in the
      selections yields none. */
  lemma {:induction false} TasksPerModel(sel: ModelSelections, models: seq<StoredModel>, inp: Inputs,
                                         uuid: nat -> string, m: string)
    requires UniqueIds(sel)
    ensures |Filter(Plan(sel, models, inp, uuid), ForModel(m))| ==
            if CountOf(sel, m).None? then 0 else EntryCount(Entry(m, CountOf(sel, m).value), models)
    decreases |sel|
  {
    if sel != [] {
      var init, last := sel[..|sel| - 1], sel[|sel| - 1];
      assert sel == init + [last];
      assert UniqueIds(init) by {
        forall i, j | 0 <= i < j < |init| ensures init[i].modelId != init[j].modelId {
          assert init[i] == sel[i] && init[j] == sel[j];
        }
      }
      CountOfSnoc(init, last, m);
      TasksPerModel(init, models, inp, uuid, m);
      var prev := Plan(init, models, inp, uuid);
      var block := EntryPlan(last, models, inp, uuid, |prev|);
      assert Plan(sel, models, inp, uuid) == prev + block;
      FilterAppend(prev, block, ForModel(m));
      if last.modelId == m {
        FilterAll(block, ForModel(m));
        assert |Filter(prev, ForModel(m))| == 0;
        assert CountOf(sel, m) == Some(last.count);
        assert Entry(m, last.count) == last;
      } else {
        FilterNone(block, ForModel(m));
        assert CountOf(sel, m) == CountOf(init, m);
      }
    }
  }

  /** When no selected model is found, the nested loops push nothing, so
      `generate` returns at its no-task check. */
  lemma {:induction false} PlanUnknownModels(sel: ModelSelections, models: seq<StoredModel>, inp: Inputs,
                                             uuid: nat -> string)
    requires forall i :: 0 <= i < |sel| ==> GetModel(models, sel[i].modelId).None?
    ensures Plan(sel, models, inp, uuid) == []
    decreases |sel|
  {
    if sel != [] {
      var init := sel[..|sel| - 1];
      assert forall i :: 0 <= i < |init| ==> init[i] == sel[i];
      PlanUnknownModels(init, models, inp, uuid);
      assert EntryCount(sel[|sel| - 1], models) == 0;
    }
  }

  /** The hook as written passes the store's list to the one-argument registry
      `getModel`, whose lookup then finds nothing for any id: it behaves like a
      lookup over no models. Then `generate` plans no task for any selection, and
      `retryItem` finds no task for any item. */
  lemma LookupAsCalled(sel: ModelSelections, inp: Inputs, uuid: nat -> string, items: seq<GalleryItem>, id: string)
    ensures forall m :: GetModel([], m).None?
    ensures Plan(sel, [], inp, uuid) == []
    ensures RetryTask(items, [], id).None?
  {
    PlanUnknownModels(sel, [], inp, uuid);
  }

  lemma TasksOfAppend(a: seq<Planned>, b: seq<Planned>)
    ensures TasksOf(a + b) == TasksOf(a) + TasksOf(b)
    ensures ItemsOf(a + b) == ItemsOf(a) + ItemsOf(b)
  {
  }

  lemma PlanSnoc(sel: ModelSelections, e: nat, models: seq<StoredModel>, inp: Inputs, uuid: nat -> string)
    requires e < |sel|
    ensures Plan(sel[..e + 1], models, inp, uuid) ==
            Plan(sel[..e], models, inp, uuid) + EntryPlan(sel[e], models, inp, uuid, |Plan(sel[..e], models, inp, uuid)|)
  {
    assert sel[..e + 1][..e] == sel[..e];
  }

  /** The inner loop of `generate` for one entry: `count` ids drawn from `uuid`
      from call `start` on, for a known model and a non-zero count. */
  method PlanEntry(entry: Entry, models: seq<StoredModel>, inp: Inputs, uuid: nat -> string, start: nat)
    returns (tasks: seq<GenerationTask>, pendingItems: seq<GalleryItem>)
    ensures tasks == TasksOf(EntryPlan(entry, models, inp, uuid, start))
    ensures pendingItems == ItemsOf(EntryPlan(entry, models, inp, uuid, start))
  {
    tasks := [];
    pendingItems := [];
    ghost var block := EntryPlan(entry, models, inp, uuid, start);
    if entry.count == 0 {
      return;
    }
    var model := GetModel(models, entry.modelId);
    if model.None? {
      return;
    }
    var i := 0;
    while i < entry.count
      invariant |block| == Max0(entry.count) && 0 <= i <= |block|
      invariant tasks == TasksOf(block[..i]) && pendingItems == ItemsOf(block[..i])
    {
      var p := PlanOne(uuid(start + i), entry.modelId, model.value, inp);
      EntryPlanAt(entry, models, inp, uuid, start, i);
      TakeSnoc(block, i);
      TasksOfAppend(block[..i], [p]);
      tasks := tasks + [p.task];
      pendingItems := pendingItems + [p.item];
      i := i + 1;
    }
    assert block[..i] == block;
  }

  /** The model-by-model nested loops of `generate`, pushing onto `tasks` and
      `pendingItems`, with `uuid(n)` the id the n-th `crypto.randomUUID()` call returns. */
  method BuildTasks(inp: Inputs, models: seq<StoredModel>, uuid: nat -> string)
    returns (tasks: seq<GenerationTask>, pendingItems: seq<GalleryItem>)
    ensures tasks == TasksOf(Plan(inp.selections, models, inp, uuid))
    ensures pendingItems == ItemsOf(Plan(inp.selections, models, inp, uuid))
  {
    var sel := inp.selections;
    tasks := [];
    pendingItems := [];
    var e := 0;
    while e < |sel|
      invariant 0 <= e <= |sel|
      invariant tasks == TasksOf(Plan(sel[..e], models, inp, uuid))
      invariant pendingItems == ItemsOf(Plan(sel[..e], models, inp, uuid))
    {
      ghost var base := Plan(sel[..e], models, inp, uuid);
      PlanSnoc(sel, e, models, inp, uuid);
      var ts, items := PlanEntry(sel[e], models, inp, uuid, |tasks|);
      TasksOfAppend(base, EntryPlan(sel[e], models, inp, uuid, |tasks|));
      tasks := tasks + ts;
      pendingItems := pendingItems + items;
      e := e + 1;
    }
    assert sel[..e] == sel;
  }

  /** What a task's run is given from outside: how its successive provider
      calls are answered, and how its `saveImage` call goes (the id the
      store assigns, or the error it rejects with). */
  datatype TaskEnv = TaskEnv(replies: seq<AttemptReply>, saveId: string, saveFault: Option<Thrown>)

  /** How a task's promise settles in `Promise.allSettled`, if it does. */
  datatype TaskOutcome = Fulfilled(result: ImageResult) | Rejected(error: Thrown) | NeverSettles

  /** A task's run: its outcome, the `updateItem` calls on its item, the
      durations slept, and the clock and the stored records at the end. */
  datatype TaskTrace = TaskTrace(
    outcome: TaskOutcome,
    updates: seq<ItemUpdate>,
    sleeps: seq<int>,
    clock: int,
    records: seq<StoredImageRecord>)

  const GenerationFailed := "Generation failed"

  /** The item update of the `catch` block: the error's message, retryable. */
  function Failing(e: Thrown): ItemUpdate
  {
    ToFailed(MessageOr(e, GenerationFailed), true)
  }

  /** The record passed to `saveImage` after a success: the task's fields, the
      result's image and size, no reference image ids. */
  function SavedFields(task: GenerationTask, res: ImageResult, createdAt: int): ImageFields
  {
    ImageFields(res.blob, task.prompt, task.modelId, task.modelName, task.aspectRatio, task.resolution,
                res.width, res.height, createdAt, [], res.metadata)
  }

  /** One task of `generate` (or of `retryItem`) from `updateItem(task.id,
      { status: "generating" })` to the completed or failed update, with
      `Date.now()` reading `clock` once the retries are over. */
  function TaskRun(task: GenerationTask, exec: Exec, env: TaskEnv,
                   blobUrl: Blob -> string, clock: int, records: seq<StoredImageRecord>): TaskTrace
  {
    var t := RetryRun(Outcomes(exec, task, env.replies), 0, clock);
    var started := [ToGenerating(None)] + t.updates;
    match t.result
    case Unsettled => TaskTrace(NeverSettles, started, t.sleeps, t.clock, records)
    case Threw(e) => TaskTrace(Rejected(e), started + [Failing(e)], t.sleeps, t.clock, records)
    case Done(res) =>
      var saved := SaveReply(records, SavedFields(task, res, t.clock), env.saveId, env.saveFault);
      if saved.Err? then TaskTrace(Rejected(saved.error), started + [Failing(saved.error)], t.sleeps, t.clock, records)
      else
        TaskTrace(Fulfilled(res),
                  started + [ToCompleted(Completed(res.blob, blobUrl(res.blob), res.width, res.height, t.clock, res.metadata))],
                  t.sleeps, t.clock, Insert(records, saved.value))
  }

  /** The status an item is left in by a run that ended as `tr` says: completed
      with the image after a fulfilment, failed and retryable with the error's
      message after a rejection, still generating while the run never settles. */
  predicate FinalStatusOk(tr: TaskTrace, s: Status, blobUrl: Blob -> string)
  {
    match tr.outcome
    case Fulfilled(res) => s == Completed(res.blob, blobUrl(res.blob), res.width, res.height, tr.clock, res.metadata)
    case Rejected(e) => s == Failed(MessageOr(e, GenerationFailed), true)
    case NeverSettles => s == Generating
  }

  /** A task's run leaves its item in the status its outcome says. */
  lemma TaskRunSettles(task: GenerationTask, exec: Exec, env: TaskEnv,
                       blobUrl: Blob -> string, clock: int, records: seq<StoredImageRecord>, item: GalleryItem)
    ensures var tr := TaskRun(task, exec, env, blobUrl, clock, records);
      FinalStatusOk(tr, MergeAll(item, tr.updates).status, blobUrl)
  {
    var tr := TaskRun(task, exec, env, blobUrl, clock, records);
    var t := RetryRun(Outcomes(exec, task, env.replies), 0, clock);
    var started := [ToGenerating(None)] + t.updates;
    MergeAllLast(item, tr.updates);
    if t.result.Unsettled? {
      assert tr.updates[|tr.updates| - 1].ToGenerating? by {
        if t.updates != [] {
          assert started[|started| - 1] == t.updates[|t.updates| - 1];
        }
      }
    } else {
      assert tr.updates[..|tr.updates| - 1] == started;
    }
  }

  /** A run is fulfilled exactly when the retries end with a result and the save
      succeeds; then the store holds one more record, under the assigned id,
      with the task's fields. Otherwise the records are as they were. */
  lemma TaskRunSaves(task: GenerationTask, exec: Exec, env: TaskEnv,
                     blobUrl: Blob -> string, clock: int, records: seq<StoredImageRecord>)
    ensures var tr := TaskRun(task, exec, env, blobUrl, clock, records);
      var t := RetryRun(Outcomes(exec, task, env.replies), 0, clock);
      (tr.outcome.Fulfilled? <==> t.result.Done? && env.saveFault.None? && !Stored(records, env.saveId)) &&
      (tr.outcome.Fulfilled? ==>
         tr.outcome.result == t.result.result &&
         tr.records == Insert(records, StoredImageRecord(env.saveId, SavedFields(task, t.result.result, tr.clock)))) &&
      (!tr.outcome.Fulfilled? ==> tr.records == records)
  {
  }

  /** A rejection carries the error the retries gave up on, or the save's error. */
  lemma TaskRunRejects(task: GenerationTask, exec: Exec, env: TaskEnv,
                       blobUrl: Blob -> string, clock: int, records: seq<StoredImageRecord>)
    ensures var tr := TaskRun(task, exec, env, blobUrl, clock, records);
      var t := RetryRun(Outcomes(exec, task, env.replies), 0, clock);
      (tr.outcome.Rejected? && t.result.Threw? ==> tr.outcome.error == t.result.error) &&
      (tr.outcome.Rejected? && t.result.Done? ==>
         (env.saveFault.Some? && tr.outcome.error == env.saveFault.value) ||
         (env.saveFault.None? && tr.outcome.error == ConstraintError)) &&
      (tr.outcome.NeverSettles? <==> t.result.Unsettled?)
  {
  }

  /** The runs of the tasks of `generate`, one after another, the clock and the
      stored records carried from each run to the next; task k uses `envs(k)`. */
  function Runs(tasks: seq<GenerationTask>, exec: Exec, envs: nat -> TaskEnv,
                blobUrl: Blob -> string, clock: int, records: seq<StoredImageRecord>): (rs: seq<TaskTrace>)
    ensures |rs| == |tasks|
    decreases |tasks|
  {
    if tasks == [] then []
    else
      var prev := Runs(tasks[..|tasks| - 1], exec, envs, blobUrl, clock, records);
      prev + [TaskRun(tasks[|tasks| - 1], exec, envs(|tasks| - 1), blobUrl,
                      EndClock(prev, clock), EndRecords(prev, records))]
  }

  function EndClock(rs: seq<TaskTrace>, clock: int): int
  {
    if rs == [] then clock else rs[|rs| - 1].clock
  }

  function EndRecords(rs: seq<TaskTrace>, records: seq<StoredImageRecord>): seq<StoredImageRecord>
  {
    if rs == [] then records else rs[|rs| - 1].records
  }

  function OutcomesOf(rs: seq<TaskTrace>): (r: seq<TaskOutcome>)
    ensures |r| == |rs|
    decreases |rs|
  {
    if rs == [] then [] else OutcomesOf(rs[..|rs| - 1]) + [rs[|rs| - 1].outcome]
  }

  function AllSleeps(rs: seq<TaskTrace>): seq<int>
    decreases |rs|
  {
    if rs == [] then [] else AllSleeps(rs[..|rs| - 1]) + rs[|rs| - 1].sleeps
  }

  predicate AllSettled(rs: seq<TaskTrace>)
    decreases |rs|
  {
    rs == [] || (AllSettled(rs[..|rs| - 1]) && !rs[|rs| - 1].outcome.NeverSettles?)
  }

  /** `Promise.allSettled` lists the outcomes in task order. */
  lemma {:induction false} OutcomesOfAt(rs: seq<TaskTrace>, k: nat)
    requires k < |rs|
    ensures OutcomesOf(rs)[k] == rs[k].outcome
    decreases |rs|
  {
    if k < |rs| - 1 {
      OutcomesOfAt(rs[..|rs| - 1], k);
    }
  }

  /** Every task has settled exactly when no run is left unsettled. */
  lemma {:induction false} AllSettledIff(rs: seq<TaskTrace>)
    ensures AllSettled(rs) <==> forall k :: 0 <= k < |rs| ==> !rs[k].outcome.NeverSettles?
    decreases |rs|
  {
    if rs != [] {
      var n := |rs| - 1;
      AllSettledIff(rs[..n]);
      assert forall k :: 0 <= k < n ==> rs[..n][k] == rs[k];
    }
  }

  /** The gallery after the tasks' item updates, task by task. */
  function Applied(items: seq<GalleryItem>, tasks: seq<GenerationTask>, rs: seq<TaskTrace>): (r: seq<GalleryItem>)
    requires |rs| == |tasks|
    ensures ItemIds(r) == ItemIds(items)
    decreases |tasks|
  {
    if tasks == [] then items
    else
      var n := |tasks| - 1;
      ApplyUpdates(Applied(items, tasks[..n], rs[..n]), tasks[n].id, rs[n].updates)
  }

  /** An item no task names keeps its value. */
  lemma {:induction false} AppliedUntouched(items: seq<GalleryItem>, tasks: seq<GenerationTask>, rs: seq<TaskTrace>, i: nat)
    requires |rs| == |tasks| && i < |items|
    requires forall j :: 0 <= j < |tasks| ==> tasks[j].id != items[i].id
    ensures Applied(items, tasks, rs)[i] == items[i]
    decreases |tasks|
  {
    if tasks != [] {
      var n := |tasks| - 1;
      AppliedUntouched(items, tasks[..n], rs[..n], i);
      assert ItemIds(Applied(items, tasks[..n], rs[..n]))[i] == items[i].id;
    }
  }

  /** An item named by exactly one task goes through that task's updates alone. */
  lemma {:induction false} AppliedOwn(items: seq<GalleryItem>, tasks: seq<GenerationTask>, rs: seq<TaskTrace>, i: nat, k: nat)
    requires |rs| == |tasks| && i < |items| && k < |tasks| && tasks[k].id == items[i].id
    requires forall j :: 0 <= j < |tasks| && j != k ==> tasks[j].id != tasks[k].id
    ensures Applied(items, tasks, rs)[i] == MergeAll(items[i], rs[k].updates)
    decreases |tasks|
  {
    var n := |tasks| - 1;
    var before := Applied(items, tasks[..n], rs[..n]);
    assert ItemIds(before)[i] == items[i].id;
    if k == n {
      AppliedUntouched(items, tasks[..n], rs[..n], i);
      ApplyUpdatesAt(before, tasks[n].id, rs[n].updates, i);
    } else {
      AppliedOwn(items, tasks[..n], rs[..n], i, k);
    }
  }

  /** The ids `uuid` hands out for the first n calls are all different. */
  predicate FreshIds(uuid: nat -> string, n: nat)
  {
    forall a, b :: 0 <= a < b < n ==> uuid(a) != uuid(b)
  }

  /** After `generate`, the pending item of every task is left in the status its
      task's outcome says, as long as the task ids are all different. */
  lemma EachItemSettles(plan: seq<Planned>, uuid: nat -> string, models: seq<StoredModel>, inp: Inputs,
                        old_items: seq<GalleryItem>, rs: seq<TaskTrace>, blobUrl: Blob -> string, k: nat)
    requires forall j :: 0 <= j < |plan| ==> WellPlanned(plan[j], uuid(j), models, inp)
    requires FreshIds(uuid, |plan|) && |rs| == |plan| && k < |plan|
    requires forall j :: 0 <= j < |plan| ==> rs[j].updates != [] && rs[j].updates[0] == ToGenerating(None)
    requires forall j :: 0 <= j < |plan| ==> FinalStatusOk(rs[j], MergeAll(plan[j].item, rs[j].updates).status, blobUrl)
    ensures var items := Applied(ItemsOf(plan) + old_items, TasksOf(plan), rs);
      items[k].id == plan[k].task.id && FinalStatusOk(rs[k], items[k].status, blobUrl)
  {
    var start := ItemsOf(plan) + old_items;
    var tasks := TasksOf(plan);
    assert start[k] == plan[k].item;
    forall j | 0 <= j < |tasks| && j != k ensures tasks[j].id != tasks[k].id {
      if j < k { assert uuid(j) != uuid(k); } else { assert uuid(k) != uuid(j); }
    }
    AppliedOwn(start, tasks, rs, k, k);
    assert ItemIds(Applied(start, tasks, rs))[k] == start[k].id;
  }

  /** An item already in the gallery whose id no task has is left as it was. */
  lemma OldItemsKept(plan: seq<Planned>, old_items: seq<GalleryItem>, rs: seq<TaskTrace>, i: nat)
    requires |rs| == |plan| && i < |old_items|
    requires forall j :: 0 <= j < |plan| ==> plan[j].task.id != old_items[i].id
    ensures Applied(ItemsOf(plan) + old_items, TasksOf(plan), rs)[|plan| + i] == old_items[i]
  {
    var start := ItemsOf(plan) + old_items;
    assert start[|plan| + i] == old_items[i];
    AppliedUntouched(start, TasksOf(plan), rs, |plan| + i);
  }

  /** The task `retryItem` rebuilds for a failed item: same id and fields, the
      provider of its model, no reference images; none when the item is absent
      or not failed or its model is unknown. */
  function RetryTask(items: seq<GalleryItem>, models: seq<StoredModel>, itemId: string): (r: Option<GenerationTask>)
    ensures r.Some? <==> FindItem(items, itemId).Some? && FindItem(items, itemId).value.status.Failed? &&
                         GetModel(models, FindItem(items, itemId).value.info.modelId).Some?
    ensures r.Some? ==> var info := FindItem(items, itemId).value.info;
      r.value == GenerationTask(itemId, info.modelId, info.modelName, GetModel(models, info.modelId).value.provider,
                                info.prompt, info.aspectRatio, info.resolution, [])
  {
    var item := FindItem(items, itemId);
    if item.None? || !item.value.status.Failed? then None
    else
      var model := GetModel(models, item.value.info.modelId);
      if model.None? then None
      else
        var info := item.value.info;
        Some(GenerationTask(itemId, info.modelId, info.modelName, model.value.provider,
                            info.prompt, info.aspectRatio, info.resolution, []))
  }

  /** The two updates of a wait, then the updates of the attempts after it. */
  lemma ApplyWaitThen(items: seq<GalleryItem>, id: string, a: ItemUpdate, b: ItemUpdate, rest: seq<ItemUpdate>)
    ensures ApplyUpdates(items, id, [a, b] + rest) == ApplyUpdates(UpdateAll(UpdateAll(items, id, a), id, b), id, rest)
  {
    assert ([a, b] + rest)[1..] == [b] + rest;
    assert ([b] + rest)[1..] == rest;
  }

  lemma AppendAssoc<T>(a: seq<T>, b: seq<T>, c: seq<T>)
    ensures a + b + c == a + (b + c)
  {
  }

  /** One more task run extends the runs by that task's trace. */
  lemma TakeSnoc<T>(s: seq<T>, k: nat)
    requires k < |s|
    ensures s[..k + 1] == s[..k] + [s[k]]
  {
  }

  lemma RunsSnoc(tasks: seq<GenerationTask>, k: nat, exec: Exec, envs: nat -> TaskEnv,
                 blobUrl: Blob -> string, clock: int, records: seq<StoredImageRecord>)
    requires k < |tasks|
    ensures var prev := Runs(tasks[..k], exec, envs, blobUrl, clock, records);
      Runs(tasks[..k + 1], exec, envs, blobUrl, clock, records) ==
        prev + [TaskRun(tasks[k], exec, envs(k), blobUrl, EndClock(prev, clock), EndRecords(prev, records))]
  {
    assert tasks[..k + 1][..k] == tasks[..k] && tasks[..k + 1][k] == tasks[k];
  }

  /** One more trace, in the terms the loop of `generate` keeps. */
  lemma TracesSnoc(items: seq<GalleryItem>, done: seq<GenerationTask>, task: GenerationTask,
                   prev: seq<TaskTrace>, tr: TaskTrace, clock: int, records: seq<StoredImageRecord>)
    requires |prev| == |done|
    ensures Applied(items, done + [task], prev + [tr]) == ApplyUpdates(Applied(items, done, prev), task.id, tr.updates)
    ensures AllSleeps(prev + [tr]) == AllSleeps(prev) + tr.sleeps
    ensures OutcomesOf(prev + [tr]) == OutcomesOf(prev) + [tr.outcome]
    ensures EndClock(prev + [tr], clock) == tr.clock && EndRecords(prev + [tr], records) == tr.records
    ensures AllSettled(prev + [tr]) <==> AllSettled(prev) && !tr.outcome.NeverSettles?
  {
    assert (done + [task])[..|done|] == done && (prev + [tr])[..|prev|] == prev;
  }

  /** The hook's state and effects: the gallery and image stores it writes, the
      clock `Date.now()` reads, and a log of the delays passed to `sleep`. */
  class Generator {
    const gallery: GalleryStore
    const db: Database
    var now: int
    ghost var slept: seq<int>

    constructor(gallery: GalleryStore, db: Database, now: int)
      ensures this.gallery == gallery && this.db == db && this.now == now && slept == []
    {
      this.gallery := gallery;
      this.db := db;
      this.now := now;
      slept := [];
    }

    /** `await sleep(ms)` */
    method Sleep(ms: int)
      modifies this`now, this`slept
      ensures now == AfterSleep(old(now), ms) && slept == old(slept) + [ms]
    {
      if ms >= 0 {
        now := now + ms;
      }
      slept := slept + [ms];
    }

    /** `executeWithRetry(task, apiKeys, retryCount)`, its provider calls answered
        by `replies` in order. */
    method ExecuteWithRetry(task: GenerationTask, exec: Exec, replies: seq<AttemptReply>, retryCount: nat) returns (result: RunResult)
      modifies this`now, this`slept, gallery`items
      ensures var t := RetryRun(Outcomes(exec, task, replies), retryCount, old(now));
        result == t.result && now == t.clock && slept == old(slept) + t.sleeps &&
        gallery.items == ApplyUpdates(old(gallery.items), task.id, t.updates)
      decreases |replies|, 1
    {
      if replies == [] {
        return Unsettled;
      }
      var o := exec(task, replies[0]);
      RetryRunReplies(exec, task, replies, retryCount, now);
      result := Settle(task, exec, o, replies[1..], retryCount);
    }

    /** The `catch` of `executeWithRetry`: what happens once an attempt has
        settled as `o`, the later attempts answered by `rest`. */
    method Settle(task: GenerationTask, exec: Exec, o: Outcome, rest: seq<AttemptReply>, retryCount: nat) returns (result: RunResult)
      modifies this`now, this`slept, gallery`items
      ensures var t := RetryFrom(o, Outcomes(exec, task, rest), retryCount, old(now));
        result == t.result && now == t.clock && slept == old(slept) + t.sleeps &&
        gallery.items == ApplyUpdates(old(gallery.items), task.id, t.updates)
      decreases |rest| + 1, 0
    {
      ghost var now0, items0, slept0 := now, gallery.items, slept;
      var wait := NextWait(o, retryCount);
      if wait.None? {
        result := if o.Success? then Done(o.result) else Threw(o.error);
        assert ApplyUpdates(items0, task.id, []) == items0 && slept0 + [] == slept0;
      } else {
        var w := wait.value;
        ghost var t := RetryRun(Outcomes(exec, task, rest), w.retryCount, AfterSleep(now0, w.ms));
        Pause(task, w);
        result := ExecuteWithRetry(task, exec, rest, w.retryCount);
        ApplyUpdatesAppend(items0, task.id, WaitUpdates(w, now0), t.updates);
        AppendAssoc(slept0, [w.ms], t.sleeps);
      }
    }

    /** The wait before the next attempt: the item marked waiting until the
        wait ends, the sleep, then the item marked generating again. */
    method Pause(task: GenerationTask, w: Wait)
      modifies this`now, this`slept, gallery`items
      ensures gallery.items == ApplyUpdates(old(gallery.items), task.id, WaitUpdates(w, old(now)))
      ensures now == AfterSleep(old(now), w.ms) && slept == old(slept) + [w.ms]
    {
      ghost var items0 := gallery.items;
      var waitUntil := now + w.ms;
      var waiting, going := ToWaiting(w.retryCount, waitUntil, w.retryAfter), ToGenerating(Some(w.retryCount));
      gallery.UpdateItem(task.id, waiting);
      Sleep(w.ms);
      gallery.UpdateItem(task.id, going);
      ApplyWaitThen(items0, task.id, waiting, going, []);
      assert [waiting, going] + [] == [waiting, going];
    }

    /** The body `generate` maps each task through, and that `retryItem` runs:
        mark generating, retry, then save and mark completed, or mark failed. */
    method RunTask(task: GenerationTask, exec: Exec, env: TaskEnv,
                   blobUrl: Blob -> string) returns (outcome: TaskOutcome)
      requires db.Valid()
      modifies this`now, this`slept, gallery`items, db`records
      ensures db.Valid()
      ensures var tr := TaskRun(task, exec, env, blobUrl, old(now), old(db.records));
        outcome == tr.outcome && now == tr.clock && slept == old(slept) + tr.sleeps &&
        gallery.items == ApplyUpdates(old(gallery.items), task.id, tr.updates) && db.records == tr.records
    {
      ghost var items0 := gallery.items;
      gallery.UpdateItem(task.id, ToGenerating(None));
      var result := ExecuteWithRetry(task, exec, env.replies, 0);
      ghost var t := RetryRun(Outcomes(exec, task, env.replies), 0, old(now));
      ghost var started := [ToGenerating(None)] + t.updates;
      assert gallery.items == ApplyUpdates(items0, task.id, started);
      match result
      case Unsettled =>
        outcome := NeverSettles;
      case Threw(e) =>
        gallery.UpdateItem(task.id, Failing(e));
        ApplyUpdatesSnoc(items0, task.id, started, Failing(e));
        outcome := Rejected(e);
      case Done(res) =>
        var saved := db.SaveImage(SavedFields(task, res, now), env.saveId, env.saveFault);
        if saved.Err? {
          gallery.UpdateItem(task.id, Failing(saved.error));
          ApplyUpdatesSnoc(items0, task.id, started, Failing(saved.error));
          outcome := Rejected(saved.error);
        } else {
          var done := ToCompleted(Completed(res.blob, blobUrl(res.blob), res.width, res.height, now, res.metadata));
          gallery.UpdateItem(task.id, done);
          ApplyUpdatesSnoc(items0, task.id, started, done);
          outcome := Fulfilled(res);
        }
    }

    /** `generate()`: build the tasks from the gallery store's inputs, add their
        pending items in front, run every task, and clear the generating flag once
        every task has settled. */
    method Generate(exec: Exec, models: seq<StoredModel>, uuid: nat -> string, envs: nat -> TaskEnv, blobUrl: Blob -> string) returns (outcomes: seq<TaskOutcome>)
      requires db.Valid()
      modifies gallery`items, gallery`isGenerating, this`now, this`slept, db`records
      ensures db.Valid()
      ensures var inp := Inputs(gallery.currentPrompt, gallery.currentModelSelections, gallery.currentAspectRatio,
                                gallery.currentResolution, gallery.currentReferenceImages);
        var plan := Plan(inp.selections, models, inp, uuid);
        plan == [] ==>
          outcomes == [] && gallery.items == old(gallery.items) && gallery.isGenerating == old(gallery.isGenerating) &&
          now == old(now) && slept == old(slept) && db.records == old(db.records)
      ensures var inp := Inputs(gallery.currentPrompt, gallery.currentModelSelections, gallery.currentAspectRatio,
                                gallery.currentResolution, gallery.currentReferenceImages);
        var plan := Plan(inp.selections, models, inp, uuid);
        var rs := Runs(TasksOf(plan), exec, envs, blobUrl, old(now), old(db.records));
        plan != [] ==>
          outcomes == OutcomesOf(rs) &&
          gallery.items == Applied(ItemsOf(plan) + old(gallery.items), TasksOf(plan), rs) &&
          gallery.isGenerating == !AllSettled(rs) &&
          now == EndClock(rs, old(now)) && slept == old(slept) + AllSleeps(rs) &&
          db.records == EndRecords(rs, old(db.records))
    {
      ghost var items0, now0, slept0, records0 := gallery.items, now, slept, db.records;
      var inp := Inputs(gallery.currentPrompt, gallery.currentModelSelections, gallery.currentAspectRatio,
                        gallery.currentResolution, gallery.currentReferenceImages);
      var tasks, pendingItems := BuildTasks(inp, models, uuid);
      ghost var plan := Plan(inp.selections, models, inp, uuid);
      if |tasks| == 0 {
        assert plan == [];
        outcomes := [];
        assert inp == Inputs(gallery.currentPrompt, gallery.currentModelSelections, gallery.currentAspectRatio,
                             gallery.currentResolution, gallery.currentReferenceImages);
        return;
      }
      gallery.AddItems(pendingItems);
      gallery.SetGenerating(true);
      ghost var start := gallery.items;
      assert start == ItemsOf(plan) + items0;
      var settled;
      // The inputs are read from fields that nothing below writes.
      assert inp == Inputs(gallery.currentPrompt, gallery.currentModelSelections, gallery.currentAspectRatio,
                           gallery.currentResolution, gallery.currentReferenceImages);
      outcomes, settled := RunAll(tasks, exec, envs, blobUrl);
      ghost var rs := Runs(tasks, exec, envs, blobUrl, now0, records0);
      assert gallery.items == Applied(start, tasks, rs);
      if settled {
        gallery.SetGenerating(false);
      }
      assert gallery.isGenerating == !AllSettled(rs);
      assert inp == Inputs(gallery.currentPrompt, gallery.currentModelSelections, gallery.currentAspectRatio,
                           gallery.currentResolution, gallery.currentReferenceImages);
      assert plan != [] && tasks == TasksOf(plan);
    }

    /** The tasks of `generate`, each run in turn through the same body. */
    method RunAll(tasks: seq<GenerationTask>, exec: Exec, envs: nat -> TaskEnv,
                  blobUrl: Blob -> string) returns (outcomes: seq<TaskOutcome>, settled: bool)
      requires db.Valid()
      modifies gallery`items, this`now, this`slept, db`records
      ensures db.Valid()
      ensures var rs := Runs(tasks, exec, envs, blobUrl, old(now), old(db.records));
        outcomes == OutcomesOf(rs) && settled == AllSettled(rs) &&
        gallery.items == Applied(old(gallery.items), tasks, rs) &&
        now == EndClock(rs, old(now)) && slept == old(slept) + AllSleeps(rs) &&
        db.records == EndRecords(rs, old(db.records))
    {
      ghost var start, now0, slept0, records0 := gallery.items, now, slept, db.records;
      outcomes := [];
      settled := true;
      var k := 0;
      while k < |tasks|
        invariant 0 <= k <= |tasks| && db.Valid()
        invariant var rs := Runs(tasks[..k], exec, envs, blobUrl, now0, records0);
          outcomes == OutcomesOf(rs) && settled == AllSettled(rs) &&
          gallery.items == Applied(start, tasks[..k], rs) &&
          now == EndClock(rs, now0) && slept == slept0 + AllSleeps(rs) &&
          db.records == EndRecords(rs, records0)
      {
        outcomes, settled := RunNext(tasks, k, exec, envs, blobUrl, outcomes, settled, start, now0, slept0, records0);
        k := k + 1;
      }
      assert tasks[..k] == tasks;
    }

    /** The task at `k` run after those before it, with what its run adds to
        the traces of the earlier ones. */
    method RunNext(tasks: seq<GenerationTask>, k: nat, exec: Exec, envs: nat -> TaskEnv, blobUrl: Blob -> string,
                   outcomes: seq<TaskOutcome>, settled: bool,
                   ghost start: seq<GalleryItem>, ghost now0: int, ghost slept0: seq<int>,
                   ghost records0: seq<StoredImageRecord>) returns (outcomes': seq<TaskOutcome>, settled': bool)
      requires k < |tasks| && db.Valid()
      requires var rs := Runs(tasks[..k], exec, envs, blobUrl, now0, records0);
        outcomes == OutcomesOf(rs) && settled == AllSettled(rs) &&
        gallery.items == Applied(start, tasks[..k], rs) &&
        now == EndClock(rs, now0) && slept == slept0 + AllSleeps(rs) &&
        db.records == EndRecords(rs, records0)
      modifies gallery`items, this`now, this`slept, db`records
      ensures db.Valid()
      ensures var rs := Runs(tasks[..k + 1], exec, envs, blobUrl, now0, records0);
        outcomes' == OutcomesOf(rs) && settled' == AllSettled(rs) &&
        gallery.items == Applied(start, tasks[..k + 1], rs) &&
        now == EndClock(rs, now0) && slept == slept0 + AllSleeps(rs) &&
        db.records == EndRecords(rs, records0)
    {
      ghost var prev := Runs(tasks[..k], exec, envs, blobUrl, now0, records0);
      ghost var tr := TaskRun(tasks[k], exec, envs(k), blobUrl, now, db.records);
      RunsSnoc(tasks, k, exec, envs, blobUrl, now0, records0);
      TracesSnoc(start, tasks[..k], tasks[k], prev, tr, now0, records0);
      TakeSnoc(tasks, k);
      var o := RunTask(tasks[k], exec, envs(k), blobUrl);
      AppendAssoc(slept0, AllSleeps(prev), tr.sleeps);
      outcomes' := outcomes + [o];
      settled' := settled && !o.NeverSettles?;
    }

    /** `retryItem(itemId)`: nothing for an item that is absent, not failed, or
        whose model is unknown; otherwise the item's task is run again under the
        same id. */
    method RetryItem(itemId: string, exec: Exec, models: seq<StoredModel>, env: TaskEnv, blobUrl: Blob -> string) returns (outcome: Option<TaskOutcome>)
      requires db.Valid()
      modifies gallery`items, this`now, this`slept, db`records
      ensures db.Valid()
      ensures var task := RetryTask(old(gallery.items), models, itemId);
        task.None? ==>
          outcome == None && gallery.items == old(gallery.items) && now == old(now) &&
          slept == old(slept) && db.records == old(db.records)
      ensures var task := RetryTask(old(gallery.items), models, itemId);
        task.Some? ==>
          var tr := TaskRun(task.value, exec, env, blobUrl, old(now), old(db.records));
          outcome == Some(tr.outcome) && now == tr.clock && slept == old(slept) + tr.sleeps &&
          gallery.items == ApplyUpdates(old(gallery.items), itemId, tr.updates) && db.records == tr.records
    {
      var item := gallery.GetItem(itemId);
      if item.None? || !item.value.status.Failed? {
        return None;
      }
      var model := GetModel(models, item.value.info.modelId);
      if model.None? {
        return None;
      }
      var info := item.value.info;
      var task := GenerationTask(itemId, info.modelId, info.modelName, model.value.provider,
                                 info.prompt, info.aspectRatio, info.resolution, []);
      var o := RunTask(task, exec, env, blobUrl);
      outcome := Some(o);
    }
  }
}
