/** The sidebar inputs both stores keep (app/stores/galleryStore.ts and
    app/stores/generationStore.ts): the `modelId -> count` record and the list of
    reference images. */
module Selections {
  import opened Types
  import opened Seqs

  /** One `[modelId, count]` entry of the selections record. */
  datatype Entry = Entry(modelId: string, count: int)

  /** A `Record<string, number>` as its entries in insertion order. */
  type ModelSelections = seq<Entry>

  predicate UniqueIds(sel: ModelSelections)
  {
    forall i, j :: 0 <= i < j < |sel| ==> sel[i].modelId != sel[j].modelId
  }

  predicate NonNegative(sel: ModelSelections)
  {
    forall i :: 0 <= i < |sel| ==> sel[i].count >= 0
  }

  /** The test `([id]) => id === modelId`. */
  function HasId(modelId: string): Entry -> bool
  {
    (e: Entry) => e.modelId == modelId
  }

  /** `selections[modelId]`, `None` for `undefined`. */
  function CountOf(sel: ModelSelections, modelId: string): (r: Option<int>)
    ensures r.None? <==> forall i :: 0 <= i < |sel| ==> sel[i].modelId != modelId
    ensures r.Some? ==> exists i :: 0 <= i < |sel| && sel[i] == Entry(modelId, r.value)
  {
    var k := FindFirst(sel, HasId(modelId));
    if k.Some? then Some(sel[k.value].count) else None
  }

  /** `Math.max(0, count)` */
  function Max0(count: int): (r: int)
    ensures r >= 0 && r >= count && (r == 0 || r == count)
  {
    if count < 0 then 0 else count
  }

  /** `{ ...selections, [modelId]: Math.max(0, count) }`: an existing key keeps its
      place, a new key goes last. */
  function SetCount(sel: ModelSelections, modelId: string, count: int): (r: ModelSelections)
    ensures CountOf(r, modelId) == Some(Max0(count))
    ensures CountOf(sel, modelId).Some? ==> Ids(r) == Ids(sel)
    ensures CountOf(sel, modelId).None? ==> r == sel + [Entry(modelId, Max0(count))]
  {
    var e := Entry(modelId, Max0(count));
    match FindFirst(sel, HasId(modelId))
    case Some(k) =>
      var r := sel[k := e];
      assert forall j :: 0 <= j < k ==> r[j] == sel[j];
      FindFirstAt(r, HasId(modelId), k);
      r
    case None =>
      var r := sel + [e];
      assert forall j :: 0 <= j < |sel| ==> r[j] == sel[j];
      FindFirstAt(r, HasId(modelId), |sel|);
      r
  }

  /** The ids of a selections record, in order. */
  function Ids(sel: ModelSelections): (r: seq<string>)
    ensures |r| == |sel| && forall i :: 0 <= i < |sel| ==> r[i] == sel[i].modelId
  {
    seq(|sel|, i requires 0 <= i < |sel| => sel[i].modelId)
  }

  /** Setting one model's count leaves every other model's count as it was. */
  lemma SetCountKeepsOthers(sel: ModelSelections, modelId: string, count: int, other: string)
    requires other != modelId
    ensures CountOf(SetCount(sel, modelId, count), other) == CountOf(sel, other)
  {
    var r := SetCount(sel, modelId, count);
    var p := HasId(other);
    if CountOf(sel, modelId).Some? {
      assert |r| == |sel| && forall i :: 0 <= i < |sel| ==> p(r[i]) == p(sel[i]);
      FindFirstSame(sel, r, p);
      var k := FindFirst(sel, HasId(modelId)).value;
      assert forall i :: 0 <= i < |sel| && i != k ==> r[i] == sel[i];
    } else {
      if FindFirst(sel, p).None? {
        assert FindFirst(r, p).None?;
      } else {
        var k := FindFirst(sel, p).value;
        assert forall j :: 0 <= j <= k ==> r[j] == sel[j];
        FindFirstAt(r, p, k);
      }
    }
  }

  /** Setting a count keeps the ids distinct and the counts non-negative. */
  lemma SetCountKeepsInvariants(sel: ModelSelections, modelId: string, count: int)
    ensures UniqueIds(sel) ==> UniqueIds(SetCount(sel, modelId, count))
    ensures NonNegative(sel) ==> NonNegative(SetCount(sel, modelId, count))
  {
    var r := SetCount(sel, modelId, count);
    if CountOf(sel, modelId).Some? {
      assert forall i :: 0 <= i < |r| ==> r[i].modelId == Ids(r)[i] == Ids(sel)[i] == sel[i].modelId;
      var k := FindFirst(sel, HasId(modelId)).value;
      assert forall i :: 0 <= i < |sel| && i != k ==> r[i] == sel[i];
    }
  }

  /** `Object.entries(selections).filter(([, c]) => c > 0).map(([id]) => id)` */
  function SelectedIds(sel: ModelSelections): (r: seq<string>)
    ensures |r| <= |sel|
    ensures forall k :: 0 <= k < |r| ==> exists i :: 0 <= i < |sel| && sel[i].modelId == r[k] && sel[i].count > 0
    ensures forall i :: 0 <= i < |sel| && sel[i].count > 0 ==> sel[i].modelId in r
  {
    if sel == [] then []
    else
      var rest := SelectedIds(sel[1..]);
      SelectedShift(sel, rest);
      (if sel[0].count > 0 then [sel[0].modelId] else []) + rest
  }

  /** The facts about the ids selected from the tail, stated at the tail's
      positions in the whole record. */
  lemma SelectedShift(sel: ModelSelections, rest: seq<string>)
    requires sel != []
    requires forall k :: 0 <= k < |rest| ==>
      exists i :: 0 <= i < |sel[1..]| && sel[1..][i].modelId == rest[k] && sel[1..][i].count > 0
    requires forall i :: 0 <= i < |sel[1..]| && sel[1..][i].count > 0 ==> sel[1..][i].modelId in rest
    ensures forall k :: 0 <= k < |rest| ==> exists i :: 1 <= i < |sel| && sel[i].modelId == rest[k] && sel[i].count > 0
    ensures forall i :: 1 <= i < |sel| && sel[i].count > 0 ==> sel[i].modelId in rest
  {
    forall k | 0 <= k < |rest| ensures exists i :: 1 <= i < |sel| && sel[i].modelId == rest[k] && sel[i].count > 0 {
      var i :| 0 <= i < |sel[1..]| && sel[1..][i].modelId == rest[k] && sel[1..][i].count > 0;
      assert 1 <= i + 1 < |sel| && sel[i + 1] == sel[1..][i];
      assert sel[i + 1].modelId == rest[k] && sel[i + 1].count > 0;
    }
    assert forall k :: 0 <= k < |rest| ==> exists i :: 1 <= i < |sel| && sel[i].modelId == rest[k] && sel[i].count > 0;
    forall i | 1 <= i < |sel| && sel[i].count > 0 ensures sel[i].modelId in rest {
      assert sel[1..][i - 1] == sel[i];
    }
  }

  /** `Object.values(selections).reduce((sum, c) => sum + c, 0)` */
  function TotalCount(sel: ModelSelections): int
  {
    if sel == [] then 0 else sel[0].count + TotalCount(sel[1..])
  }

  /** With no negative count the total is non-negative, and positive exactly when
      some model is selected. */
  lemma {:induction false} TotalCountSign(sel: ModelSelections)
    requires NonNegative(sel)
    ensures TotalCount(sel) >= 0
    ensures TotalCount(sel) > 0 <==> SelectedIds(sel) != []
  {
    if sel != [] {
      assert NonNegative(sel[1..]) by {
        forall i | 0 <= i < |sel[1..]| ensures sel[1..][i].count >= 0 { assert sel[1..][i] == sel[i + 1]; }
      }
      TotalCountSign(sel[1..]);
      assert SelectedIds(sel) == (if sel[0].count > 0 then [sel[0].modelId] else []) + SelectedIds(sel[1..]);
    }
  }

  /** The counts of the entries that pass `count > 0`, the `activeModels` of the
      Generate button. */
  function ActiveEntries(sel: ModelSelections): (r: ModelSelections)
    ensures forall i :: 0 <= i < |r| ==> r[i] in sel && r[i].count > 0
    ensures forall i :: 0 <= i < |sel| && sel[i].count > 0 ==> sel[i] in r
  {
    Filter(sel, (e: Entry) => e.count > 0)
  }

  /** Zero counts add nothing: summing all entries and summing the active ones agree
      when no count is negative. */
  lemma {:induction false} TotalOfActive(sel: ModelSelections)
    requires NonNegative(sel)
    ensures TotalCount(ActiveEntries(sel)) == TotalCount(sel)
  {
    if sel != [] {
      assert NonNegative(sel[1..]) by {
        forall i | 0 <= i < |sel[1..]| ensures sel[1..][i].count >= 0 { assert sel[1..][i] == sel[i + 1]; }
      }
      TotalOfActive(sel[1..]);
      var rest := ActiveEntries(sel[1..]);
      var a := ActiveEntries(sel);
      if sel[0].count > 0 {
        assert a == [sel[0]] + rest;
        assert a[0] == sel[0] && a[1..] == rest;
        assert TotalCount(a) == a[0].count + TotalCount(a[1..]);
      } else {
        assert a == rest;
      }
      assert TotalCount(sel) == sel[0].count + TotalCount(sel[1..]);
    }
  }

  /** The active entries' ids are the selected ids. */
  lemma {:induction false} IdsOfActive(sel: ModelSelections)
    ensures Ids(ActiveEntries(sel)) == SelectedIds(sel)
  {
    if sel != [] {
      IdsOfActive(sel[1..]);
      var p := (e: Entry) => e.count > 0;
      var rest := ActiveEntries(sel[1..]);
      assert Ids(rest) == SelectedIds(sel[1..]);
      if p(sel[0]) {
        assert ActiveEntries(sel) == [sel[0]] + rest;
        IdsCons(sel[0], rest);
        assert SelectedIds(sel) == [sel[0].modelId] + SelectedIds(sel[1..]);
      } else {
        assert ActiveEntries(sel) == rest;
        assert SelectedIds(sel) == [] + SelectedIds(sel[1..]);
      }
    }
  }

  lemma IdsCons(e: Entry, rest: ModelSelections)
    ensures Ids([e] + rest) == [e.modelId] + Ids(rest)
  {
    var l, r := Ids([e] + rest), [e.modelId] + Ids(rest);
    assert |l| == |r|;
    forall i | 0 <= i < |l| ensures l[i] == r[i] {
      if i > 0 { assert ([e] + rest)[i] == rest[i - 1]; }
    }
  }

  /** A reference image: `{ id, blob, url, name }`. */
  datatype ReferenceImage = ReferenceImage(id: string, blob: Blob, url: string, name: string)

  /** `images.filter(img => img.id !== id)` */
  function WithoutImage(images: seq<ReferenceImage>, id: string): (r: seq<ReferenceImage>)
    ensures forall i :: 0 <= i < |r| ==> r[i].id != id && r[i] in images
    ensures forall i :: 0 <= i < |images| && images[i].id != id ==> images[i] in r
    ensures |r| < |images| <==> exists i :: 0 <= i < |images| && images[i].id == id
  {
    FilterShorterIff(images, (m: ReferenceImage) => m.id != id);
    Filter(images, (m: ReferenceImage) => m.id != id)
  }

  /** The object URL `removeReferenceImage` revokes: that of the first image with the id. */
  function RevokedOnRemove(images: seq<ReferenceImage>, id: string): (r: seq<string>)
    ensures |r| <= 1
    ensures r == [] <==> forall i :: 0 <= i < |images| ==> images[i].id != id
    ensures r != [] ==> exists i :: 0 <= i < |images| && images[i].id == id && r[0] == images[i].url
  {
    var k := FindFirst(images, (m: ReferenceImage) => m.id == id);
    if k.Some? then [images[k.value].url] else []
  }

  /** The object URLs of a list of images, in order (those `clearReferenceImages` revokes). */
  function Urls(images: seq<ReferenceImage>): (r: seq<string>)
    ensures |r| == |images| && forall i :: 0 <= i < |images| ==> r[i] == images[i].url
  {
    seq(|images|, i requires 0 <= i < |images| => images[i].url)
  }

  /** Removing an image twice is removing it once, and changes nothing the second time. */
  lemma WithoutImageIdempotent(images: seq<ReferenceImage>, id: string)
    ensures WithoutImage(WithoutImage(images, id), id) == WithoutImage(images, id)
    ensures RevokedOnRemove(WithoutImage(images, id), id) == []
  {
    FilterIdempotent(images, (m: ReferenceImage) => m.id != id);
  }
}
