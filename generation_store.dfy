/** The generation store (app/stores/generationStore.ts): the sidebar inputs and a
    list of pending generations with start, update, complete and dismiss. */
module GenerationStore {
  import opened Types
  import opened Seqs
  import opened Selections

  datatype GenStatus = GenPending | GenGenerating | GenCompleted | GenFailed

  /** A `PendingGeneration`. */
  datatype PendingGeneration = PendingGeneration(
    id: string, modelId: string, modelName: string, status: GenStatus, error: Option<string>)

  /** A `Partial<PendingGeneration>`: each field present or absent. */
  datatype PendingUpdate = PendingUpdate(
    newId: Option<string>, newModelId: Option<string>, newModelName: Option<string>,
    newStatus: Option<GenStatus>, newError: Option<string>)

  function Pick<T>(given: Option<T>, current: T): (r: T)
    ensures given.Some? ==> r == given.value
    ensures given.None? ==> r == current
  {
    if given.Some? then given.value else current
  }

  /** `{ ...p, ...updates }`: each field the update gives wins, the others stay. */
  function MergePending(p: PendingGeneration, u: PendingUpdate): (r: PendingGeneration)
    ensures r.id == Pick(u.newId, p.id) && r.modelId == Pick(u.newModelId, p.modelId)
    ensures r.modelName == Pick(u.newModelName, p.modelName) && r.status == Pick(u.newStatus, p.status)
    ensures r.error == (if u.newError.Some? then u.newError else p.error)
  {
    PendingGeneration(Pick(u.newId, p.id), Pick(u.newModelId, p.modelId), Pick(u.newModelName, p.modelName),
                      Pick(u.newStatus, p.status), if u.newError.Some? then u.newError else p.error)
  }

  /** The empty update changes nothing, and merging is idempotent. */
  lemma MergePendingLaws(p: PendingGeneration, u: PendingUpdate)
    ensures MergePending(p, PendingUpdate(None, None, None, None, None)) == p
    ensures MergePending(MergePending(p, u), u) == MergePending(p, u)
  {
  }

  /** `pendingGenerations.map(p => p.id === id ? { ...p, ...updates } : p)` */
  function UpdatePending(list: seq<PendingGeneration>, id: string, u: PendingUpdate): (r: seq<PendingGeneration>)
    ensures |r| == |list|
    ensures forall i :: 0 <= i < |list| && list[i].id != id ==> r[i] == list[i]
    ensures forall i :: 0 <= i < |list| && list[i].id == id ==> r[i] == MergePending(list[i], u)
  {
    seq(|list|, i requires 0 <= i < |list| => if list[i].id == id then MergePending(list[i], u) else list[i])
  }

  /** An id no entry has leaves the list as it is. */
  lemma UpdatePendingAbsent(list: seq<PendingGeneration>, id: string, u: PendingUpdate)
    requires forall i :: 0 <= i < |list| ==> list[i].id != id
    ensures UpdatePending(list, id, u) == list
  {
  }

  function IsFailed(): PendingGeneration -> bool
  {
    (p: PendingGeneration) => p.status == GenFailed
  }

  function OtherGeneration(id: string): PendingGeneration -> bool
  {
    (p: PendingGeneration) => p.id != id
  }

  /** What `completeGeneration` keeps: the failed entries, in order. */
  function KeepFailed(list: seq<PendingGeneration>): (r: seq<PendingGeneration>)
    ensures forall i :: 0 <= i < |r| ==> r[i] in list && r[i].status == GenFailed
    ensures forall i :: 0 <= i < |list| && list[i].status == GenFailed ==> list[i] in r
  {
    Filter(list, IsFailed())
  }

  /** What `dismissFailedGeneration` keeps: every entry with another id. */
  function Dismiss(list: seq<PendingGeneration>, id: string): (r: seq<PendingGeneration>)
    ensures forall i :: 0 <= i < |r| ==> r[i] in list && r[i].id != id
    ensures forall i :: 0 <= i < |list| && list[i].id != id ==> list[i] in r
  {
    Filter(list, OtherGeneration(id))
  }

  /** Completing twice is completing once; a list of failed entries is kept whole;
      a list with none failed is emptied. */
  lemma KeepFailedLaws(list: seq<PendingGeneration>)
    ensures KeepFailed(KeepFailed(list)) == KeepFailed(list)
    ensures (forall i :: 0 <= i < |list| ==> list[i].status == GenFailed) ==> KeepFailed(list) == list
    ensures (forall i :: 0 <= i < |list| ==> list[i].status != GenFailed) ==> KeepFailed(list) == []
  {
    FilterIdempotent(list, IsFailed());
    if forall i :: 0 <= i < |list| ==> list[i].status == GenFailed {
      FilterAll(list, IsFailed());
    }
    if forall i :: 0 <= i < |list| ==> list[i].status != GenFailed {
      FilterNone(list, IsFailed());
    }
  }

  /** Dismissing is idempotent and commutes with completing. */
  lemma DismissLaws(list: seq<PendingGeneration>, id: string)
    ensures Dismiss(Dismiss(list, id), id) == Dismiss(list, id)
    ensures Dismiss(KeepFailed(list), id) == KeepFailed(Dismiss(list, id))
  {
    FilterIdempotent(list, OtherGeneration(id));
    FilterCommutes(list, IsFailed(), OtherGeneration(id));
  }

  /** The generation store's state. */
  class GenerationStore {
    var prompt: string
    var modelSelections: ModelSelections
    var aspectRatio: AspectRatio
    var resolution: Resolution
    var referenceImages: seq<ReferenceImage>
    var isGenerating: bool
    var pendingGenerations: seq<PendingGeneration>
    /** The object URLs handed to `URL.revokeObjectURL`, in call order. */
    var revokedUrls: seq<string>

    constructor ()
      ensures prompt == "" && modelSelections == [] && aspectRatio == Square && resolution == Res1K
      ensures referenceImages == [] && !isGenerating && pendingGenerations == [] && revokedUrls == []
    {
      prompt := "";
      modelSelections := [];
      aspectRatio := Square;
      resolution := Res1K;
      referenceImages := [];
      isGenerating := false;
      pendingGenerations := [];
      revokedUrls := [];
    }

    /** `setModelCount(modelId, count)` */
    method SetModelCount(modelId: string, count: int)
      modifies this`modelSelections
      ensures modelSelections == SetCount(old(modelSelections), modelId, count)
      ensures CountOf(modelSelections, modelId) == Some(Max0(count))
      ensures forall other :: other != modelId ==> CountOf(modelSelections, other) == CountOf(old(modelSelections), other)
    {
      forall other | other != modelId
        ensures CountOf(SetCount(modelSelections, modelId, count), other) == CountOf(modelSelections, other)
      {
        SetCountKeepsOthers(modelSelections, modelId, count, other);
      }
      modelSelections := SetCount(modelSelections, modelId, count);
    }

    /** `addReferenceImage(image)` */
    method AddReferenceImage(image: ReferenceImage)
      modifies this`referenceImages
      ensures referenceImages == old(referenceImages) + [image]
    {
      referenceImages := referenceImages + [image];
    }

    /** `removeReferenceImage(id)` */
    method RemoveReferenceImage(id: string)
      modifies this`referenceImages, this`revokedUrls
      ensures revokedUrls == old(revokedUrls) + RevokedOnRemove(old(referenceImages), id)
      ensures referenceImages == WithoutImage(old(referenceImages), id)
    {
      revokedUrls := revokedUrls + RevokedOnRemove(referenceImages, id);
      referenceImages := WithoutImage(referenceImages, id);
    }

    /** `clearReferenceImages()` */
    method ClearReferenceImages()
      modifies this`referenceImages, this`revokedUrls
      ensures revokedUrls == old(revokedUrls) + Urls(old(referenceImages))
      ensures referenceImages == []
    {
      revokedUrls := revokedUrls + Urls(referenceImages);
      referenceImages := [];
    }

    /** `startGeneration(pending)`: the list is replaced wholesale. */
    method StartGeneration(pending: seq<PendingGeneration>)
      modifies this`isGenerating, this`pendingGenerations
      ensures isGenerating && pendingGenerations == pending
    {
      isGenerating := true;
      pendingGenerations := pending;
    }

    /** `updatePendingGeneration(id, updates)` */
    method UpdatePendingGeneration(id: string, u: PendingUpdate)
      modifies this`pendingGenerations
      ensures pendingGenerations == UpdatePending(old(pendingGenerations), id, u)
    {
      pendingGenerations := UpdatePending(pendingGenerations, id, u);
    }

    /** `completeGeneration()`: only the failed entries remain. */
    method CompleteGeneration()
      modifies this`isGenerating, this`pendingGenerations
      ensures !isGenerating && pendingGenerations == KeepFailed(old(pendingGenerations))
    {
      isGenerating := false;
      pendingGenerations := KeepFailed(pendingGenerations);
    }

    /** `dismissFailedGeneration(id)`: removes the entries with the id, whatever their status. */
    method DismissFailedGeneration(id: string)
      modifies this`pendingGenerations
      ensures pendingGenerations == Dismiss(old(pendingGenerations), id)
    {
      pendingGenerations := Dismiss(pendingGenerations, id);
    }

    /** `getSelectedModelIds()` */
    function GetSelectedModelIds(): (r: seq<string>)
      reads this
      ensures r == SelectedIds(modelSelections)
    {
      SelectedIds(modelSelections)
    }

    /** `getTotalImageCount()` */
    function GetTotalImageCount(): (r: int)
      reads this
      ensures r == TotalCount(modelSelections)
    {
      TotalCount(modelSelections)
    }
  }
}
