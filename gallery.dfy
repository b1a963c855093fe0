/** The gallery store (app/stores/galleryStore.ts): the newest-first list of gallery
    items, the lightbox selection, and the sidebar inputs the generator reads. */
module Gallery {
  import opened Types
  import opened Seqs
  import opened Selections
  import opened ImageDb

  /** What every gallery item carries whatever its status. */
  datatype ItemInfo = ItemInfo(
    modelId: string,
    modelName: string,
    prompt: string,
    aspectRatio: AspectRatio,
    resolution: Option<Resolution>,
    referenceImageIds: seq<string>)

  /** The status of an item, with the fields that each status brings. */
  datatype Status =
    | Pending
    | Generating
    | Waiting(waitingUntil: int, retryAfter: int)
    | Completed(blob: Blob, url: string, width: int, height: int, createdAt: int, metadata: Metadata)
    | Failed(error: string, canRetry: bool)

  /** A gallery item. `retryCount` is kept apart from the status because the
      shallow merge of `updateItem` leaves it in place when an update omits it. */
  datatype GalleryItem = GalleryItem(id: string, info: ItemInfo, status: Status, retryCount: Option<int>)

  /** The partial objects the generator passes to `updateItem`. */
  datatype ItemUpdate =
    | ToGenerating(count: Option<int>)
    | ToWaiting(retries: int, until: int, after: int)
    | ToCompleted(result: Status)
    | ToFailed(message: string, retryable: bool)

  /** `{ ...item, ...updates }`: the status is replaced, `retryCount` only when the
      update names one, and the id and the shared fields stay. */
  function Merge(item: GalleryItem, u: ItemUpdate): (r: GalleryItem)
    ensures r.id == item.id && r.info == item.info
    ensures u.ToGenerating? ==> r.status == Generating
    ensures u.ToWaiting? ==> r.status == Waiting(u.until, u.after) && r.retryCount == Some(u.retries)
    ensures u.ToCompleted? && u.result.Completed? ==> r.status == u.result
    ensures u.ToFailed? ==> r.status == Failed(u.message, u.retryable)
    ensures !u.ToWaiting? && !(u.ToGenerating? && u.count.Some?) ==> r.retryCount == item.retryCount
  {
    match u
    case ToGenerating(c) => item.(status := Generating, retryCount := if c.Some? then c else item.retryCount)
    case ToWaiting(c, until, after) => item.(status := Waiting(until, after), retryCount := Some(c))
    case ToCompleted(st) => item.(status := st)
    case ToFailed(e, canRetry) => item.(status := Failed(e, canRetry))
  }

  /** The test `i => i.id === id`. */
  function ItemHasId(id: string): GalleryItem -> bool
  {
    (i: GalleryItem) => i.id == id
  }

  /** The test `i => i.id !== id`. */
  function OtherItem(id: string): GalleryItem -> bool
  {
    (i: GalleryItem) => i.id != id
  }

  /** The test `i => i.status === 'completed'`. */
  function IsCompleted(): GalleryItem -> bool
  {
    (i: GalleryItem) => i.status.Completed?
  }

  function ItemIds(items: seq<GalleryItem>): (r: seq<string>)
    ensures |r| == |items| && forall i :: 0 <= i < |items| ==> r[i] == items[i].id
  {
    seq(|items|, i requires 0 <= i < |items| => items[i].id)
  }

  /** `items.map(item => item.id === id ? { ...item, ...updates } : item)` */
  function UpdateAll(items: seq<GalleryItem>, id: string, u: ItemUpdate): (r: seq<GalleryItem>)
    ensures ItemIds(r) == ItemIds(items)
    ensures forall i :: 0 <= i < |items| && items[i].id != id ==> r[i] == items[i]
    ensures forall i :: 0 <= i < |items| && items[i].id == id ==> r[i] == Merge(items[i], u)
  {
    seq(|items|, i requires 0 <= i < |items| => if items[i].id == id then Merge(items[i], u) else items[i])
  }

  /** A sequence of `updateItem(id, …)` calls, in order. */
  function ApplyUpdates(items: seq<GalleryItem>, id: string, us: seq<ItemUpdate>): (r: seq<GalleryItem>)
    ensures ItemIds(r) == ItemIds(items)
    ensures forall i :: 0 <= i < |items| && items[i].id != id ==> r[i] == items[i]
    decreases |us|
  {
    if us == [] then items else ApplyUpdates(UpdateAll(items, id, us[0]), id, us[1..])
  }

  /** One more update after a sequence of them is the sequence extended by it. */
  lemma {:induction false} ApplyUpdatesSnoc(items: seq<GalleryItem>, id: string, us: seq<ItemUpdate>, u: ItemUpdate)
    ensures ApplyUpdates(items, id, us + [u]) == UpdateAll(ApplyUpdates(items, id, us), id, u)
    decreases |us|
  {
    if us == [] {
      assert [u][1..] == [];
    } else {
      assert (us + [u])[1..] == us[1..] + [u];
      ApplyUpdatesSnoc(UpdateAll(items, id, us[0]), id, us[1..], u);
    }
  }

  /** Updates compose: applying two runs one after the other applies their concatenation. */
  lemma {:induction false} ApplyUpdatesAppend(items: seq<GalleryItem>, id: string, us: seq<ItemUpdate>, vs: seq<ItemUpdate>)
    ensures ApplyUpdates(items, id, us + vs) == ApplyUpdates(ApplyUpdates(items, id, us), id, vs)
    decreases |us|
  {
    if us == [] {
      assert us + vs == vs;
    } else {
      assert (us + vs)[1..] == us[1..] + vs;
      ApplyUpdatesAppend(UpdateAll(items, id, us[0]), id, us[1..], vs);
    }
  }

  /** The updates of a run merged into one item, in order. */
  function MergeAll(item: GalleryItem, us: seq<ItemUpdate>): (r: GalleryItem)
    ensures r.id == item.id && r.info == item.info
    decreases |us|
  {
    if us == [] then item else MergeAll(Merge(item, us[0]), us[1..])
  }

  /** Every item with the id goes through the whole run of updates on its own. */
  lemma {:induction false} ApplyUpdatesAt(items: seq<GalleryItem>, id: string, us: seq<ItemUpdate>, i: nat)
    requires i < |items| && items[i].id == id
    ensures ApplyUpdates(items, id, us)[i] == MergeAll(items[i], us)
    decreases |us|
  {
    if us != [] {
      var next := UpdateAll(items, id, us[0]);
      assert ItemIds(next)[i] == id;
      ApplyUpdatesAt(next, id, us[1..], i);
    }
  }

  /** The last update of a non-empty run is merged last. */
  lemma {:induction false} MergeAllLast(item: GalleryItem, us: seq<ItemUpdate>)
    requires us != []
    ensures MergeAll(item, us) == Merge(MergeAll(item, us[..|us| - 1]), us[|us| - 1])
    decreases |us|
  {
    if |us| > 1 {
      MergeAllLast(Merge(item, us[0]), us[1..]);
      assert us[1..][..|us| - 2] == us[..|us| - 1][1..];
    }
  }

  /** An id that names no item makes every update a no-op. */
  lemma {:induction false} ApplyUpdatesAbsent(items: seq<GalleryItem>, id: string, us: seq<ItemUpdate>)
    requires forall i :: 0 <= i < |items| ==> items[i].id != id
    ensures ApplyUpdates(items, id, us) == items
    decreases |us|
  {
    if us != [] {
      assert UpdateAll(items, id, us[0]) == items;
      ApplyUpdatesAbsent(items, id, us[1..]);
    }
  }

  /** The items `getCompletedItems` returns. */
  function CompletedItems(items: seq<GalleryItem>): (r: seq<GalleryItem>)
    ensures forall i :: 0 <= i < |r| ==> r[i] in items && r[i].status.Completed?
    ensures forall i :: 0 <= i < |items| && items[i].status.Completed? ==> items[i] in r
  {
    Filter(items, IsCompleted())
  }

  /** `items.filter(i => i.id !== id)` */
  function WithoutItem(items: seq<GalleryItem>, id: string): (r: seq<GalleryItem>)
    ensures forall i :: 0 <= i < |r| ==> r[i].id != id && r[i] in items
    ensures forall i :: 0 <= i < |items| && items[i].id != id ==> items[i] in r
  {
    Filter(items, OtherItem(id))
  }

  /** Dismissing twice is dismissing once. */
  lemma WithoutItemIdempotent(items: seq<GalleryItem>, id: string)
    ensures WithoutItem(WithoutItem(items, id), id) == WithoutItem(items, id)
  {
    FilterIdempotent(items, OtherItem(id));
  }

  /** `items.find(i => i.id === id)` */
  function FindItem(items: seq<GalleryItem>, id: string): (r: Option<GalleryItem>)
    ensures r.None? <==> forall i :: 0 <= i < |items| ==> items[i].id != id
    ensures r.Some? ==> r.value.id == id
    ensures r.Some? ==> exists k :: 0 <= k < |items| && items[k] == r.value && (forall j :: 0 <= j < k ==> items[j].id != id)
  {
    var k := FindFirst(items, ItemHasId(id));
    if k.Some? then Some(items[k.value]) else None
  }

  datatype Direction = Prev | Next

  /** The id `navigateLightbox(direction)` selects among the completed items, or
      `None` when it returns early (nothing selected, or the selection is not
      among them). */
  function NavigateTarget(completed: seq<GalleryItem>, selected: Option<string>, dir: Direction): (r: Option<string>)
    ensures r.Some? <==> selected.Some? && selected.value != "" &&
                         exists k :: 0 <= k < |completed| && completed[k].id == selected.value
    ensures r.Some? ==> exists k :: 0 <= k < |completed| && completed[k].id == r.value
  {
    if selected.None? || selected.value == "" then None
    else
      match FindFirst(completed, ItemHasId(selected.value))
      case None => None
      case Some(idx) =>
        var n := |completed|;
        var target := match dir
          case Prev => if idx > 0 then idx - 1 else n - 1
          case Next => if idx < n - 1 then idx + 1 else 0;
        Some(completed[target].id)
  }

  predicate DistinctItemIds(items: seq<GalleryItem>)
  {
    forall i, j :: 0 <= i < j < |items| ==> items[i].id != items[j].id
  }

  /** With distinct ids, going forward from the item at `k` reaches the next one and
      wraps from the last to the first; going back wraps from the first to the last. */
  lemma NavigateSteps(completed: seq<GalleryItem>, k: nat)
    requires DistinctItemIds(completed) && k < |completed| && completed[k].id != ""
    ensures NavigateTarget(completed, Some(completed[k].id), Next) ==
      Some(completed[if k == |completed| - 1 then 0 else k + 1].id)
    ensures NavigateTarget(completed, Some(completed[k].id), Prev) ==
      Some(completed[if k == 0 then |completed| - 1 else k - 1].id)
  {
    FindFirstAt(completed, ItemHasId(completed[k].id), k);
  }

  /** With distinct, non-empty ids, stepping forward and then back returns to the
      selected item, and so does stepping back and then forward. */
  lemma NavigateRoundTrip(completed: seq<GalleryItem>, k: nat)
    requires DistinctItemIds(completed) && k < |completed|
    requires forall i :: 0 <= i < |completed| ==> completed[i].id != ""
    ensures NavigateTarget(completed, NavigateTarget(completed, Some(completed[k].id), Next), Prev) ==
      Some(completed[k].id)
    ensures NavigateTarget(completed, NavigateTarget(completed, Some(completed[k].id), Prev), Next) ==
      Some(completed[k].id)
  {
    var n := |completed|;
    NavigateSteps(completed, k);
    var next := if k == n - 1 then 0 else k + 1;
    var prev := if k == 0 then n - 1 else k - 1;
    NavigateSteps(completed, next);
    NavigateSteps(completed, prev);
  }

  /** The key `formatDateKey` gives a timestamp: the calendar day of the timestamp
      compared with today's. The locale rendering of other days is abstracted to
      the day itself. */
  datatype DateKey = Today | Yesterday | OnDate(day: int)

  function FormatDateKey(timestamp: int, dayOf: int -> int, today: int): (k: DateKey)
    ensures k == Today <==> dayOf(timestamp) == today
    ensures k == Yesterday <==> dayOf(timestamp) == today - 1
    ensures k.OnDate? ==> k.day == dayOf(timestamp)
  {
    var d := dayOf(timestamp);
    if d == today then Today else if d == today - 1 then Yesterday else OnDate(d)
  }

  /** Whether an item belongs in the group with the given key: completed, with a
      truthy `createdAt`, and on that day. */
  function InGroup(dayOf: int -> int, today: int, key: DateKey): GalleryItem -> bool
  {
    (i: GalleryItem) => i.status.Completed? && i.status.createdAt != 0 &&
                        FormatDateKey(i.status.createdAt, dayOf, today) == key
  }

  /** One entry of the `Map<string, CompletedGalleryItem[]>`. */
  datatype DateGroup = DateGroup(key: DateKey, items: seq<GalleryItem>)

  function GroupKey(key: DateKey): DateGroup -> bool
  {
    (g: DateGroup) => g.key == key
  }

  /** What `getItemsByDate` returns for a list of items: one group per key, with no
      key twice, each holding exactly the items of that key in list order, and a
      group for every key some dated item has. */
  predicate GroupedByDate(items: seq<GalleryItem>, dayOf: int -> int, today: int, groups: seq<DateGroup>)
  {
    KeysDistinct(groups) && GroupsExact(items, dayOf, today, groups) && KeysCover(items, dayOf, today, groups)
  }

  predicate KeysDistinct(groups: seq<DateGroup>)
  {
    forall a, b :: 0 <= a < b < |groups| ==> groups[a].key != groups[b].key
  }

  predicate GroupsExact(items: seq<GalleryItem>, dayOf: int -> int, today: int, groups: seq<DateGroup>)
  {
    forall a :: 0 <= a < |groups| ==>
      groups[a].items == Filter(items, InGroup(dayOf, today, groups[a].key)) && groups[a].items != []
  }

  predicate KeysCover(items: seq<GalleryItem>, dayOf: int -> int, today: int, groups: seq<DateGroup>)
  {
    forall j :: 0 <= j < |items| && items[j].status.Completed? && items[j].status.createdAt != 0 ==>
      exists a :: 0 <= a < |groups| && groups[a].key == FormatDateKey(items[j].status.createdAt, dayOf, today)
  }

  /** `grouped.set(key, [...existing, item])`: an existing key keeps its place, a
      new key goes last. */
  function AddToGroup(groups: seq<DateGroup>, key: DateKey, item: GalleryItem): (r: seq<DateGroup>)
    ensures |r| == |groups| <==> exists b :: 0 <= b < |groups| && groups[b].key == key
    ensures |r| == |groups| || |r| == |groups| + 1
    ensures forall b :: 0 <= b < |groups| ==> r[b].key == groups[b].key
    ensures forall b :: 0 <= b < |groups| ==>
      r[b] == (if groups[b].key == key && (forall c :: 0 <= c < b ==> groups[c].key != key)
               then DateGroup(key, groups[b].items + [item]) else groups[b])
    ensures |r| == |groups| + 1 ==> r[|groups|] == DateGroup(key, [item])
  {
    match FindFirst(groups, GroupKey(key))
    case Some(a) => groups[a := DateGroup(key, groups[a].items + [item])]
    case None => groups + [DateGroup(key, [item])]
  }

  /** Filtering one more item by a test it fails adds nothing. */
  lemma FilterSnocFails(prefix: seq<GalleryItem>, item: GalleryItem, p: GalleryItem -> bool)
    requires !p(item)
    ensures Filter(prefix + [item], p) == Filter(prefix, p)
  {
    FilterAppend(prefix, [item], p);
    assert Filter([item], p) == Filter([item][1..], p);
    assert [item][1..] == [];
  }

  /** Filtering one more item by a test it passes appends it. */
  lemma FilterSnocPasses(prefix: seq<GalleryItem>, item: GalleryItem, p: GalleryItem -> bool)
    requires p(item)
    ensures Filter(prefix + [item], p) == Filter(prefix, p) + [item]
  {
    FilterAppend(prefix, [item], p);
    assert [item][1..] == [];
  }

  /** An item without a date leaves the grouping as it is. */
  lemma GroupStepUndated(prefix: seq<GalleryItem>, item: GalleryItem, dayOf: int -> int, today: int, groups: seq<DateGroup>)
    requires GroupedByDate(prefix, dayOf, today, groups)
    requires !(item.status.Completed? && item.status.createdAt != 0)
    ensures GroupedByDate(prefix + [item], dayOf, today, groups)
  {
    forall a | 0 <= a < |groups|
      ensures Filter(prefix + [item], InGroup(dayOf, today, groups[a].key)) == groups[a].items
    {
      FilterSnocFails(prefix, item, InGroup(dayOf, today, groups[a].key));
    }
    assert forall j :: 0 <= j < |prefix| ==> (prefix + [item])[j] == prefix[j];
  }

  /** A dated item whose key already has a group joins the end of that group. */
  lemma GroupStepExisting(prefix: seq<GalleryItem>, item: GalleryItem, dayOf: int -> int, today: int,
                          groups: seq<DateGroup>, a: nat)
    requires GroupedByDate(prefix, dayOf, today, groups)
    requires item.status.Completed? && item.status.createdAt != 0
    requires a < |groups| && groups[a].key == FormatDateKey(item.status.createdAt, dayOf, today)
    ensures GroupedByDate(prefix + [item], dayOf, today,
                          groups[a := DateGroup(groups[a].key, groups[a].items + [item])])
  {
    var key := groups[a].key;
    var r := groups[a := DateGroup(key, groups[a].items + [item])];
    forall b | 0 <= b < |r|
      ensures r[b].items == Filter(prefix + [item], InGroup(dayOf, today, r[b].key))
    {
      if b == a {
        FilterSnocPasses(prefix, item, InGroup(dayOf, today, key));
      } else {
        FilterSnocFails(prefix, item, InGroup(dayOf, today, groups[b].key));
      }
    }
    assert forall j :: 0 <= j < |prefix| ==> (prefix + [item])[j] == prefix[j];
    assert forall b :: 0 <= b < |r| ==> r[b].key == groups[b].key;
  }

  /** A dated item whose key has no group yet opens a new group at the end. */
  lemma GroupStepNew(prefix: seq<GalleryItem>, item: GalleryItem, dayOf: int -> int, today: int, groups: seq<DateGroup>)
    requires GroupedByDate(prefix, dayOf, today, groups)
    requires item.status.Completed? && item.status.createdAt != 0
    requires forall b :: 0 <= b < |groups| ==> groups[b].key != FormatDateKey(item.status.createdAt, dayOf, today)
    ensures GroupedByDate(prefix + [item], dayOf, today,
                          groups + [DateGroup(FormatDateKey(item.status.createdAt, dayOf, today), [item])])
  {
    var key := FormatDateKey(item.status.createdAt, dayOf, today);
    var r := groups + [DateGroup(key, [item])];
    var s := prefix + [item];
    assert KeysDistinct(r);
    assert GroupsExact(s, dayOf, today, r) by {
      forall j | 0 <= j < |prefix| ensures !InGroup(dayOf, today, key)(prefix[j]) { }
      FilterNone(prefix, InGroup(dayOf, today, key));
      forall b | 0 <= b < |r|
        ensures r[b].items == Filter(s, InGroup(dayOf, today, r[b].key)) && r[b].items != []
      {
        if b == |groups| {
          FilterSnocPasses(prefix, item, InGroup(dayOf, today, key));
        } else {
          assert r[b] == groups[b];
          FilterSnocFails(prefix, item, InGroup(dayOf, today, groups[b].key));
        }
      }
    }
    assert KeysCover(s, dayOf, today, r) by {
      forall j | 0 <= j < |s| && s[j].status.Completed? && s[j].status.createdAt != 0
        ensures exists a :: 0 <= a < |r| && r[a].key == FormatDateKey(s[j].status.createdAt, dayOf, today)
      {
        if j < |prefix| {
          assert s[j] == prefix[j];
          var a :| 0 <= a < |groups| && groups[a].key == FormatDateKey(prefix[j].status.createdAt, dayOf, today);
          assert r[a] == groups[a];
        } else {
          assert r[|groups|].key == key;
        }
      }
    }
  }

  /** A dated item goes into the group of its key, which is opened when missing. */
  lemma GroupStepDated(prefix: seq<GalleryItem>, item: GalleryItem, dayOf: int -> int, today: int, groups: seq<DateGroup>)
    requires GroupedByDate(prefix, dayOf, today, groups)
    requires item.status.Completed? && item.status.createdAt != 0
    ensures GroupedByDate(prefix + [item], dayOf, today,
                          AddToGroup(groups, FormatDateKey(item.status.createdAt, dayOf, today), item))
  {
    var key := FormatDateKey(item.status.createdAt, dayOf, today);
    var found := FindFirst(groups, GroupKey(key));
    if found.Some? {
      GroupStepExisting(prefix, item, dayOf, today, groups, found.value);
    } else {
      assert forall b :: 0 <= b < |groups| ==> !GroupKey(key)(groups[b]);
      GroupStepNew(prefix, item, dayOf, today, groups);
    }
  }

  /** One turn of the loop of `getItemsByDate`: the grouping of a prefix extends to
      the prefix one item longer. */
  lemma GroupStepAt(items: seq<GalleryItem>, i: nat, dayOf: int -> int, today: int, groups: seq<DateGroup>)
    requires i < |items| && GroupedByDate(items[..i], dayOf, today, groups)
    ensures var item := items[i];
      item.status.Completed? && item.status.createdAt != 0 ==>
        GroupedByDate(items[..i + 1], dayOf, today, AddToGroup(groups, FormatDateKey(item.status.createdAt, dayOf, today), item))
    ensures !(items[i].status.Completed? && items[i].status.createdAt != 0) ==>
      GroupedByDate(items[..i + 1], dayOf, today, groups)
  {
    var item := items[i];
    assert items[..i + 1] == items[..i] + [item];
    if item.status.Completed? && item.status.createdAt != 0 {
      GroupStepDated(items[..i], item, dayOf, today, groups);
    } else {
      GroupStepUndated(items[..i], item, dayOf, today, groups);
    }
  }

  /** The loop of `getItemsByDate` over a list of completed items. */
  method GroupByDate(completed: seq<GalleryItem>, dayOf: int -> int, today: int) returns (groups: seq<DateGroup>)
    ensures GroupedByDate(completed, dayOf, today, groups)
  {
    groups := [];
    var i := 0;
    while i < |completed|
      invariant 0 <= i <= |completed|
      invariant GroupedByDate(completed[..i], dayOf, today, groups)
    {
      var item := completed[i];
      GroupStepAt(completed, i, dayOf, today, groups);
      if item.status.Completed? && item.status.createdAt != 0 {
        var key := FormatDateKey(item.status.createdAt, dayOf, today);
        groups := AddToGroup(groups, key, item);
      }
      i := i + 1;
    }
    assert completed[..i] == completed;
  }

  /** The gallery store's state. */
  class GalleryStore {
    var items: seq<GalleryItem>
    var selectedImageId: Option<string>
    var isLightboxOpen: bool
    var isLoading: bool
    var hasLoaded: bool
    var currentPrompt: string
    var currentModelSelections: ModelSelections
    var currentAspectRatio: AspectRatio
    var currentResolution: Resolution
    var currentReferenceImages: seq<ReferenceImage>
    var isGenerating: bool
    /** The object URLs handed to `URL.revokeObjectURL`, in call order. */
    var revokedUrls: seq<string>

    constructor ()
      ensures items == [] && selectedImageId == None && !isLightboxOpen && !isLoading && !hasLoaded
      ensures currentPrompt == "" && currentModelSelections == [] && currentAspectRatio == Square
      ensures currentResolution == Res1K && currentReferenceImages == [] && !isGenerating && revokedUrls == []
    {
      items := [];
      selectedImageId := None;
      isLightboxOpen := false;
      isLoading := false;
      hasLoaded := false;
      currentPrompt := "";
      currentModelSelections := [];
      currentAspectRatio := Square;
      currentResolution := Res1K;
      currentReferenceImages := [];
      isGenerating := false;
      revokedUrls := [];
    }

    /** `loadImages()`: every stored record, newest first, as a completed item;
        `objectUrl` stands for `URL.createObjectURL` and `fault` for a failed read. */
    method LoadImages(db: Database, fault: Option<Thrown>, objectUrl: StoredImageRecord -> string)
      modifies this`items, this`hasLoaded, this`isLoading
      ensures fault.None? ==> items == ItemsFromRecords(NewestFirst(db.records), objectUrl) && hasLoaded
      ensures fault.Some? ==> items == old(items) && hasLoaded == old(hasLoaded)
      ensures !isLoading
    {
      isLoading := true;
      var stored := db.GetAllImages(fault);
      if stored.Ok? {
        items := ItemsFromRecords(stored.value, objectUrl);
        hasLoaded := true;
      }
      isLoading := false;
    }

    /** `addItem(item)` */
    method AddItem(item: GalleryItem)
      modifies this`items
      ensures items == [item] + old(items)
    {
      items := [item] + items;
    }

    /** `addItems(newItems)`: the new items, in their order, before all the others. */
    method AddItems(newItems: seq<GalleryItem>)
      modifies this`items
      ensures items == newItems + old(items)
    {
      items := newItems + items;
    }

    /** `updateItem(id, updates)` */
    method UpdateItem(id: string, u: ItemUpdate)
      modifies this`items
      ensures items == UpdateAll(old(items), id, u)
    {
      items := UpdateAll(items, id, u);
    }

    /** `deleteItem(id)`: the store delete first; only when it succeeds are the
        item's URL revoked, the item removed and a selection of it cleared. */
    method DeleteItem(db: Database, id: string, fault: Option<Thrown>) returns (r: Result<()>)
      requires db.Valid()
      modifies this`items, this`isLightboxOpen, this`selectedImageId, this`revokedUrls, db`records
      ensures db.Valid()
      ensures fault.Some? ==> r == Err(fault.value)
      ensures fault.Some? ==> items == old(items) && db.records == old(db.records) && revokedUrls == old(revokedUrls)
      ensures fault.Some? ==> selectedImageId == old(selectedImageId) && isLightboxOpen == old(isLightboxOpen)
      ensures fault.None? ==> r == Ok(()) && db.records == Filter(old(db.records), OtherId(id))
      ensures fault.None? ==> items == WithoutItem(old(items), id)
      ensures fault.None? ==> revokedUrls == old(revokedUrls) + RevokedOnDelete(old(items), id)
      ensures fault.None? ==> selectedImageId == (if old(selectedImageId) == Some(id) then None else old(selectedImageId))
      ensures fault.None? ==> isLightboxOpen == (if old(selectedImageId) == Some(id) then false else old(isLightboxOpen))
    {
      var item := FindItem(items, id);
      var deleted := db.DeleteImage(id, fault);
      if deleted.Err? {
        return Err(deleted.error);
      }
      if item.Some? && item.value.status.Completed? {
        revokedUrls := revokedUrls + [item.value.status.url];
      }
      items := WithoutItem(items, id);
      if selectedImageId == Some(id) {
        isLightboxOpen := false;
        selectedImageId := None;
      }
      r := Ok(());
    }

    /** `dismissItem(id)`: removes the item from the list only; the store is not touched. */
    method DismissItem(id: string)
      modifies this`items
      ensures items == WithoutItem(old(items), id)
    {
      items := WithoutItem(items, id);
    }

    method OpenLightbox(imageId: string)
      modifies this`selectedImageId, this`isLightboxOpen
      ensures selectedImageId == Some(imageId) && isLightboxOpen
    {
      selectedImageId := Some(imageId);
      isLightboxOpen := true;
    }

    method CloseLightbox()
      modifies this`isLightboxOpen
      ensures !isLightboxOpen
    {
      isLightboxOpen := false;
    }

    /** `navigateLightbox(direction)` */
    method NavigateLightbox(dir: Direction)
      modifies this`selectedImageId
      ensures var t := NavigateTarget(CompletedItems(items), old(selectedImageId), dir);
        selectedImageId == if t.Some? then t else old(selectedImageId)
    {
      var t := NavigateTarget(CompletedItems(items), selectedImageId, dir);
      if t.Some? {
        selectedImageId := t;
      }
    }

    /** The `getItem(id)` the generation hook calls: the first item with the id. */
    function GetItem(id: string): (r: Option<GalleryItem>)
      reads this
      ensures r == FindItem(items, id)
    {
      FindItem(items, id)
    }

    /** `getSelectedItem()`: the selected item when it exists and is completed. */
    function GetSelectedItem(): (r: Option<GalleryItem>)
      reads this
      ensures r.Some? <==> selectedImageId.Some? && FindItem(items, selectedImageId.value).Some? &&
                           FindItem(items, selectedImageId.value).value.status.Completed?
      ensures r.Some? ==> r.value in items && r.value.id == selectedImageId.value && r.value.status.Completed?
    {
      if selectedImageId.None? then None
      else
        var item := FindItem(items, selectedImageId.value);
        if item.Some? && item.value.status.Completed? then item else None
    }

    /** `getCompletedItems()` */
    function GetCompletedItems(): (r: seq<GalleryItem>)
      reads this
      ensures r == CompletedItems(items)
    {
      CompletedItems(items)
    }

    /** `getItemsByDate()`, with `dayOf` the local calendar day of a timestamp and
        `today` the day of `new Date()`. */
    method GetItemsByDate(dayOf: int -> int, today: int) returns (groups: seq<DateGroup>)
      ensures GroupedByDate(CompletedItems(items), dayOf, today, groups)
    {
      groups := GroupByDate(CompletedItems(items), dayOf, today);
    }

    /** `setModelCount(modelId, count)` */
    method SetModelCount(modelId: string, count: int)
      modifies this`currentModelSelections
      ensures currentModelSelections == SetCount(old(currentModelSelections), modelId, count)
    {
      currentModelSelections := SetCount(currentModelSelections, modelId, count);
    }

    /** `addReferenceImage(image)` */
    method AddReferenceImage(image: ReferenceImage)
      modifies this`currentReferenceImages
      ensures currentReferenceImages == old(currentReferenceImages) + [image]
    {
      currentReferenceImages := currentReferenceImages + [image];
    }

    /** `removeReferenceImage(id)`: revokes the first matching image's URL and drops
        every image with the id. */
    method RemoveReferenceImage(id: string)
      modifies this`currentReferenceImages, this`revokedUrls
      ensures revokedUrls == old(revokedUrls) + RevokedOnRemove(old(currentReferenceImages), id)
      ensures currentReferenceImages == WithoutImage(old(currentReferenceImages), id)
    {
      revokedUrls := revokedUrls + RevokedOnRemove(currentReferenceImages, id);
      currentReferenceImages := WithoutImage(currentReferenceImages, id);
    }

    /** `clearReferenceImages()`: revokes every URL, then empties the list. */
    method ClearReferenceImages()
      modifies this`currentReferenceImages, this`revokedUrls
      ensures revokedUrls == old(revokedUrls) + Urls(old(currentReferenceImages))
      ensures currentReferenceImages == []
    {
      revokedUrls := revokedUrls + Urls(currentReferenceImages);
      currentReferenceImages := [];
    }

    method SetGenerating(generating: bool)
      modifies this`isGenerating
      ensures isGenerating == generating
    {
      isGenerating := generating;
    }

    /** `getSelectedModelIds()` */
    function GetSelectedModelIds(): (r: seq<string>)
      reads this
      ensures r == SelectedIds(currentModelSelections)
    {
      SelectedIds(currentModelSelections)
    }

    /** `getTotalImageCount()` */
    function GetTotalImageCount(): (r: int)
      reads this
      ensures r == TotalCount(currentModelSelections)
    {
      TotalCount(currentModelSelections)
    }
  }

  /** The URL `deleteItem` revokes: that of the first item with the id, when it is completed. */
  function RevokedOnDelete(items: seq<GalleryItem>, id: string): (r: seq<string>)
    ensures |r| <= 1
    ensures r != [] <==> FindItem(items, id).Some? && FindItem(items, id).value.status.Completed?
    ensures r != [] ==> r[0] == FindItem(items, id).value.status.url
  {
    var item := FindItem(items, id);
    if item.Some? && item.value.status.Completed? then [item.value.status.url] else []
  }

  /** One stored record as a completed gallery item (the mapping in `loadImages`). */
  function ItemFromRecord(rec: StoredImageRecord, url: string): (item: GalleryItem)
    ensures item.id == rec.id && item.retryCount.None?
    ensures item.info == ItemInfo(rec.fields.modelId, rec.fields.modelName, rec.fields.prompt,
                                  rec.fields.aspectRatio, rec.fields.resolution, rec.fields.referenceImageIds)
    ensures item.status == Completed(rec.fields.blob, url, rec.fields.width, rec.fields.height,
                                     rec.fields.createdAt, rec.fields.metadata)
  {
    var f := rec.fields;
    GalleryItem(rec.id, ItemInfo(f.modelId, f.modelName, f.prompt, f.aspectRatio, f.resolution, f.referenceImageIds),
                Completed(f.blob, url, f.width, f.height, f.createdAt, f.metadata), None)
  }

  function ItemsFromRecords(recs: seq<StoredImageRecord>, objectUrl: StoredImageRecord -> string): (r: seq<GalleryItem>)
    ensures |r| == |recs|
    ensures forall i :: 0 <= i < |recs| ==> r[i] == ItemFromRecord(recs[i], objectUrl(recs[i]))
  {
    seq(|recs|, i requires 0 <= i < |recs| => ItemFromRecord(recs[i], objectUrl(recs[i])))
  }

  /** Loading shows every stored image exactly once: all loaded items are
      completed, in the store's newest-first order, and their ids are distinct. */
  lemma LoadedItemsCompleted(recs: seq<StoredImageRecord>, objectUrl: StoredImageRecord -> string)
    requires DistinctIds(recs)
    ensures CompletedItems(ItemsFromRecords(recs, objectUrl)) == ItemsFromRecords(recs, objectUrl)
    ensures DistinctItemIds(ItemsFromRecords(recs, objectUrl))
    ensures ItemIds(ItemsFromRecords(recs, objectUrl)) == seq(|recs|, i requires 0 <= i < |recs| => recs[i].id)
  {
    FilterAll(ItemsFromRecords(recs, objectUrl), IsCompleted());
  }
}
