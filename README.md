# paintball-ai in Dafny

A Dafny model of the client-side core of paintball-ai. The app is a browser app that sends one prompt to several image-generation models at once and keeps the results in a local gallery. The model covers these parts:

- **The generation engine** (app/hooks/useImageGeneration.ts). `generate` turns the model-count selections into one task per image, with the resolution gate. It registers the pending items in one batch and runs each task through `executeWithRetry`. It saves a success to the image store and marks the item completed, or marks it failed. `retryItem` runs a failed item again, and `executeGeneration` dispatches to a provider. The Google and Replicate adapters classify errors as rate limits and read the retry-after. Google uses the `/retry.?after[:\s]*(\d+)/i` pattern; Replicate uses an embedded JSON object. The Google adapter also scans the response chunks, and the Replicate adapter picks the output URL.
- **The gallery store** (app/stores/galleryStore.ts). It keeps the newest-first item list, with its add, update-by-id, dismiss and delete actions. It also holds the lightbox selection, with wrap-around navigation over completed items, and the grouping of completed items by day. The sidebar inputs live here too: model counts and reference images.
- **The image store** (app/lib/db.ts). The IndexedDB `images` object store is modelled as a list of records in `byCreatedAt` index order. The model covers `saveImage` (a fresh id, and `add` semantics), the `getImages` cursor loop, `getAllImages`, `getImageById`, `deleteImage`, `getImageCount` and the `initDB` connection cache.
- **Settings and the model registry.**
  - app/stores/settingsStore.ts: the key and model-list actions, `migrate`, `partialize` and `getEnabledModels`.
  - app/lib/models.ts: lookup and the aspect-ratio and resolution helpers.
  - app/lib/replicateSchema.ts: `parseCapabilities`, the display-name rule and the not-found error.
- **The generation store** (app/stores/generationStore.ts): the pending-generation list.
- **The edge worker's relay rule** (workers/app.ts).
- **Two UI decisions.** The decisions of the Generate button (app/components/sidebar/GenerateButton.tsx), and the `handleAdd` sequence of the custom-model form (app/components/settings/AddCustomModelButton.tsx).

The source changes state in place in several places, and the model keeps that form:

- The stores are classes whose methods reassign their fields: `Gallery.GalleryStore`, `Settings.SettingsStore`, `GenerationStore.GenerationStore` and `ImageDb.Database`.
- The hook's effects are methods of `Engine.Generator`. They write the gallery and the image store, advance a clock and log each delay passed to `sleep`.
- `executeWithRetry` calls itself. Here `Generator.ExecuteWithRetry` and `Generator.Settle` call each other over a finite list of provider replies. `Retry.RetryRun` is the function that specifies them.
- `generate` builds its tasks with nested loops (`Engine.BuildTasks`) and then runs them one after another (`Generator.RunAll`).
- The `getImages` cursor (`Database.GetImages`), the Google chunk loop (`Providers.ScanChunks`) and the `getItemsByDate` loop (`Gallery.GroupByDate`) are all `while` loops with invariants.

Everything outside the program is a parameter: provider replies, UUIDs, the clock's calendar days, object URLs, JSON parsing and storage faults.

Modules list their dependencies in this order: `Types`, `Strings`, `Seqs`, `Selections`, `Settings`, `Models`, `ReplicateSchema`, `ImageDb`, `Gallery`, `GenerationStore`, `Providers`, `Retry`, `Engine`, `Relay`, `GenerateButton`, `AddCustomModel`.

In these places the model follows the code as written:

- A completed item keeps the task's id, not the id the image store assigns (app/hooks/useImageGeneration.ts:223).
- The Google chunk loop overwrites `imageBlob` with every chunk that carries an image, so the LAST inline image is kept, not the first (app/hooks/useImageGeneration.ts:348-367).
- A missing API key is a plain `Error`. It is retried with backoff like any failure, so it is rethrown only after three waits (`Retry.MissingKeyBacksOff`).
- `updateItem` is a shallow merge. A `retryCount` written by a wait therefore stays on the item through later updates that do not name one.
- The duplicate test of `handleAdd` uses the input as typed. It trims only for the emptiness test.

Two calls in the hook do not match the declarations they call, so the model gives them the evident intended behaviour:

- app/hooks/useImageGeneration.ts:47 and 102 read `getItem` from the gallery store, but app/stores/galleryStore.ts declares no `getItem`. As written, `retryItem` would call `undefined` and reject. `Gallery.GalleryStore.GetItem` supplies it as a find-first lookup of the item by id.
- app/hooks/useImageGeneration.ts:105 and 161 call `getModel(models, id)` with the settings store's model list, but app/lib/models.ts:48 takes only the id and looks in its static list. `Engine.GetModel` supplies the two-argument form as the first stored model with the id (`Settings.FindModel`). As written, the one-argument lookup compares every registry id with the list and finds nothing. Then `generate` skips every entry (line 162) and returns at its no-task check (line 193) with no pending item and no generation, and `retryItem` returns at line 106. `Engine.LookupAsCalled` states this: a lookup that finds nothing plans no task and gives no retry task, and `Engine.Generator.Generate` with an empty plan changes nothing.

## Model

| member | source | states |
|---|---|---|
| Types.WithKey | app/stores/settingsStore.ts:130-138 | `{ ...apiKeys, [provider]: key }` gives the named provider the new key and leaves every other provider's key as it was |
| Strings.ReplaceFirst | workers/app.ts:11 | a string `replace` leaves a string without the pattern unchanged, and on a string that starts with the pattern removes exactly that prefix |
| Strings.ContainsIff | app/hooks/useImageGeneration.ts:332 | `includes` holds exactly when the substring occurs at some index |
| Strings.TrimEmptyIffBlank | app/components/sidebar/GenerateButton.tsx:28 | `trim()` yields the empty string exactly when the whole string is white space |
| Strings.LastSegment | app/lib/replicateSchema.ts:51 | `split('/').pop()` is a suffix without the separator, preceded by the separator when shorter than the whole |
| Strings.NatToStringRoundTrip | app/components/sidebar/GenerateButton.tsx:44 | the decimal rendering of a count reads back as the same number |
| Selections.CountOf | app/stores/galleryStore.ts:221-227 | `selections[modelId]` is undefined exactly when no entry has the id, otherwise the count of an entry with it |
| Selections.Max0 | app/stores/galleryStore.ts:225 | `Math.max(0, count)` is non-negative, at least `count`, and either 0 or `count` |
| Selections.SetCount | app/stores/galleryStore.ts:221-227 | after setting, the model's count is `max(0, count)`; an existing key keeps the id order, a new key is appended |
| Selections.SetCountKeepsOthers | app/stores/generationStore.ts:39-45 | setting one model's count leaves every other model's count unchanged |
| Selections.SetCountKeepsInvariants | app/stores/galleryStore.ts:221-227 | setting a count keeps the ids distinct and all counts non-negative |
| Selections.SelectedIds | app/stores/galleryStore.ts:257-262 | every id returned has a positive count, and every id with a positive count is returned |
| Selections.TotalCountSign | app/stores/galleryStore.ts:264-267 | with non-negative counts the sum is non-negative, and positive exactly when some id is selected |
| Selections.ActiveEntries | app/components/sidebar/GenerateButton.tsx:18 | the active entries are exactly the entries with a positive count |
| Selections.TotalOfActive | app/components/sidebar/GenerateButton.tsx:18-19 | with non-negative counts, the sum over the active entries equals the sum over all entries |
| Selections.IdsOfActive | app/stores/galleryStore.ts:257-262 | the ids of the active entries, in order, are the selected ids |
| Selections.WithoutImage | app/stores/galleryStore.ts:245 | the filtered list holds exactly the images with another id, and is shorter exactly when the id was present |
| Selections.RevokedOnRemove | app/stores/galleryStore.ts:240-243 | at most one URL is revoked, none exactly when no image has the id, otherwise that of an image with the id |
| Selections.Urls | app/stores/galleryStore.ts:251 | clearing revokes every image's URL, in list order |
| Selections.WithoutImageIdempotent | app/stores/generationStore.ts:56-65 | removing an image twice is removing it once, and the second removal revokes nothing |
| Settings.FindModel | app/components/settings/AddCustomModelButton.tsx:26 | the lookup finds nothing exactly when no model has the id, otherwise the first index holding it |
| Settings.WithEnabled | app/stores/settingsStore.ts:140-145 | only the `enabled` flag of models with the id changes; every other field and model is kept |
| Settings.CustomEntry | app/stores/settingsStore.ts:151-159 | the appended model has id "replicate/"+id, provider replicate, enabled, custom, schemaFetched true, the given name and capabilities |
| Settings.WithoutModel | app/stores/settingsStore.ts:163-166 | every model with the id is dropped whatever its custom flag, every other model is kept, and the list shrinks exactly when the id was present |
| Settings.WithCapabilities | app/stores/settingsStore.ts:168-173 | matching models get the new capabilities, and `schemaFetched` only when one is given; nothing else changes |
| Settings.EnabledModels | app/stores/settingsStore.ts:204-208 | exactly the enabled models whose provider has a non-empty key are kept |
| Settings.WithEnabledLaws | app/stores/settingsStore.ts:140-145 | setting the flag twice is setting it once; an absent id changes nothing |
| Settings.WithoutModelIdempotent | app/stores/settingsStore.ts:163-166 | removing twice is removing once |
| Settings.EnabledModelsAppend | app/stores/settingsStore.ts:204-208 | the enabled-model filter commutes with concatenation, so it keeps list order |
| Settings.EnabledModelsByKeys | app/stores/settingsStore.ts:123-127 | with the initial null keys no model is usable; with all keys set and all models enabled, every model is |
| Settings.AddedModelLookup | app/stores/settingsStore.ts:147-161 | after an add, a lookup of "replicate/"+id finds the new entry, or the earlier model when the id was already present |
| Settings.Migrate | app/stores/settingsStore.ts:185-198 | below version 2, the google and replicate keys are kept (missing becomes null) and the models reset to the defaults; version 2 or later passes through |
| Settings.SettingsStore.constructor | app/stores/settingsStore.ts:123-128 | the store starts with null keys, the default models and the modal closed |
| Settings.SettingsStore.Partialize | app/stores/settingsStore.ts:181-184 | exactly the keys and the models are persisted |
| Settings.SettingsStore.SetApiKey | app/stores/settingsStore.ts:130-133 | only the named provider's key changes; models and modal are untouched |
| Settings.SettingsStore.ClearApiKey | app/stores/settingsStore.ts:135-138 | only the named provider's key changes, to null |
| Settings.SettingsStore.SetModelEnabled | app/stores/settingsStore.ts:140-145 | the model list becomes `WithEnabled` of the old one; keys and modal are untouched |
| Settings.SettingsStore.AddCustomModel | app/stores/settingsStore.ts:147-161 | exactly one custom entry is appended after the unchanged earlier entries |
| Settings.SettingsStore.RemoveCustomModel | app/stores/settingsStore.ts:163-166 | the model list becomes `WithoutModel` of the old one; keys and modal are untouched |
| Settings.SettingsStore.UpdateModelCapabilities | app/stores/settingsStore.ts:168-173 | the model list becomes `WithCapabilities` of the old one; keys and modal are untouched |
| Settings.SettingsStore.OpenSettingsModal | app/stores/settingsStore.ts:175 | the modal is open; keys and models are untouched |
| Settings.SettingsStore.CloseSettingsModal | app/stores/settingsStore.ts:176 | the modal is closed; keys and models are untouched |
| Settings.SettingsStore.GetEnabledModels | app/stores/settingsStore.ts:204-208 | the state's enabled models with keys |
| Models.GetModel | app/lib/models.ts:48-50 | undefined exactly when no model has the id, otherwise a model of the list with that id |
| Models.EnabledDefinitions | app/lib/models.ts:53-55 | exactly the models whose required provider has a key are kept |
| Models.IsAspectRatioSupported | app/lib/models.ts:58-68 | true exactly when every selected id is a known model listing the ratio; true for an empty selection, false for an unknown id |
| Models.EveryListsRatio | app/lib/models.ts:64-67 | the `every` over the selected ids holds exactly when each is a known model listing the ratio |
| Models.AnyModelSupportsAspectRatio | app/lib/models.ts:71-76 | true exactly when some selected id is a known model with a non-empty ratio list |
| Models.CapableModels | app/lib/models.ts:83-85 | the aspect-capable list is empty exactly when no selected model supports aspect ratios |
| Models.CapableHead | app/lib/models.ts:90 | the head of the capable list is the model of the first aspect-capable selected id |
| Models.CapableModelsKeeps | app/lib/models.ts:83-85 | the model of every aspect-capable selected id is in the capable list |
| Models.CapableModelsFromSelection | app/lib/models.ts:83-85 | every model in the capable list comes from an aspect-capable selected id |
| Models.KeepCommon | app/lib/models.ts:90-92 | a ratio is kept exactly when it is in the first list and every capable model lists it |
| Models.KeepCommonIsFilter | app/lib/models.ts:90-92 | keeping the common ratios is `filter` over the list, so the result keeps that list's order |
| Models.KeepCommonAppend | app/lib/models.ts:90-92 | keeping the common ratios of two lists joined is joining the ratios kept from each, in order |
| Models.KeepCommonOfShared | app/lib/models.ts:90-92 | ratios every capable model lists are all kept, in order |
| Models.CommonAspectRatiosCases | app/lib/models.ts:79-93 | an empty selection gives all six ratios in order; no aspect-capable model gives none; otherwise the first capable model's ratios filtered, in that model's order, to those every capable selected model lists |
| Models.AnyModelSupportsResolution | app/lib/models.ts:96-101 | true exactly when some selected id is a known model that supports resolution |
| Models.RegistryCommonRatios | app/lib/models.ts:14-45 | with the registry as declared, Gemini 2.5 Flash alone has no common ratio, and with Gemini 3.0 Pro all six are common |
| ReplicateSchema.FirstPresent | app/lib/replicateSchema.ts:85 | `find` returns the first listed name present in the schema, or none when none is present |
| ReplicateSchema.ParseCapabilities | app/lib/replicateSchema.ts:59-103 | each flag holds exactly when one of its property names is present; the maximum is 10 exactly when the first present image property is an array, otherwise 1 |
| ReplicateSchema.DisplayName | app/lib/replicateSchema.ts:51 | a non-empty response name wins; otherwise the last path segment of the id when it is non-empty (then it has no "/"), else the whole id |
| ReplicateSchema.FetchModelInfo | app/lib/replicateSchema.ts:30-54 | a rejected fetch rethrows; a non-ok response fails with "Model not found: <id>"; an ok one yields the display name of the response name and id and the parsed capabilities |
| ReplicateSchema.MissingSchemaSupportsNothing | app/lib/replicateSchema.ts:45-46 | a response without the schema path gives all flags false and a maximum of 1 |
| ReplicateSchema.FirstImagePropertyDecides | app/lib/replicateSchema.ts:88-95 | a scalar `image` ahead of an array `image_input` gives 1; an array `image_input` alone gives 10 |
| ReplicateSchema.DisplayNameFallback | app/lib/replicateSchema.ts:51 | "o/m" falls back to "m", "owner/" falls back to itself, and a response name is used as is |
| ImageDb.Lookup | app/lib/db.ts:121-124 | `store.get(id)` is null exactly when no record has the id, otherwise a stored record with it |
| ImageDb.Insert | app/lib/db.ts:54 | `add` grows the store by exactly the new record |
| ImageDb.InsertOrdered | app/lib/db.ts:31 | adding a record under a fresh id keeps the index order by createdAt, then id |
| ImageDb.InsertDistinct | app/lib/db.ts:30 | adding a record under a fresh id keeps the primary keys distinct |
| ImageDb.FilterDistinct | app/lib/db.ts:134 | removing records keeps the primary keys distinct |
| ImageDb.FilterOrdered | app/lib/db.ts:134 | removing records keeps the index order |
| ImageDb.NewestFirst | app/lib/db.ts:110 | the reversed index holds the same records, newest createdAt first |
| ImageDb.Clamp | app/lib/db.ts:82-85 | a count acts as a bound between 0 and the number of records |
| ImageDb.Page | app/lib/db.ts:61-96 | the page is the slice starting after min(offset, n) records, at most `limit` long |
| ImageDb.PagesConcatenate | app/lib/db.ts:61-96 | two consecutive pages make the page of their combined size |
| ImageDb.PageAll | app/lib/db.ts:61-96 | a page from offset 0 at least as large as the store is the whole store |
| ImageDb.Database.constructor | app/lib/db.ts:11 | the store starts empty with no cached connection |
| ImageDb.Database.InitDB | app/lib/db.ts:13-23 | a cached connection is returned as is; otherwise the opening's outcome is returned, and cached only on success |
| ImageDb.SaveReply | app/lib/db.ts:44-58 | `saveImage` succeeds exactly without a fault and under a fresh id, with the given fields and that id |
| ImageDb.Database.SaveImage | app/lib/db.ts:44-58 | the result is `SaveReply` of the old records: a transaction fault rejects; an id already stored rejects with ConstraintError; otherwise the record is the fields plus the fresh id, and it is inserted |
| ImageDb.Database.GetImages | app/lib/db.ts:61-96 | the cursor loop returns the `Page` of the newest-first order, with defaults limit 50 and offset 0 |
| ImageDb.Database.GetAllImages | app/lib/db.ts:98-112 | every record, newest first |
| ImageDb.Database.GetImageById | app/lib/db.ts:115-126 | null exactly when the id is absent, otherwise a stored record with that id |
| ImageDb.Database.DeleteImage | app/lib/db.ts:128-139 | the records with the id are removed; an absent id is no error |
| ImageDb.Database.GetImageCount | app/lib/db.ts:141-152 | the number of stored records |
| ImageDb.DeleteRemoves | app/lib/db.ts:128-139 | after a delete the id is not found, every other record stays, and the count drops by one exactly when the id was there |
| ImageDb.FilterCountOne | app/lib/db.ts:134 | with distinct ids, a delete removes at most one record |
| ImageDb.SaveThenGet | app/lib/db.ts:44-58 | a saved record is found by its id, and the count grows by one |
| Gallery.Merge | app/stores/galleryStore.ts:129 | the shallow merge keeps the id and shared fields and sets the update's status; `retryCount` changes only when the update names one |
| Gallery.UpdateAll | app/stores/galleryStore.ts:126-131 | matching items are merged; every other item, the length and the order are unchanged |
| Gallery.ApplyUpdates | app/stores/galleryStore.ts:126-131 | a run of updates keeps the ids and every item with another id |
| Gallery.ApplyUpdatesSnoc | app/stores/galleryStore.ts:126-131 | one more update applies after the others |
| Gallery.ApplyUpdatesAppend | app/stores/galleryStore.ts:126-131 | two runs of updates applied in turn are their concatenation |
| Gallery.MergeAll | app/stores/galleryStore.ts:129 | merging a run of updates keeps the id and shared fields |
| Gallery.ApplyUpdatesAt | app/stores/galleryStore.ts:126-131 | each item with the id goes through the whole run on its own |
| Gallery.MergeAllLast | app/stores/galleryStore.ts:129 | the last update of a run is merged last |
| Gallery.ApplyUpdatesAbsent | app/stores/galleryStore.ts:126-131 | updates for an id no item has change nothing |
| Gallery.CompletedItems | app/stores/galleryStore.ts:198-201 | exactly the completed items are kept |
| Gallery.WithoutItem | app/stores/galleryStore.ts:153-156 | exactly the items with another id are kept |
| Gallery.WithoutItemIdempotent | app/stores/galleryStore.ts:153-156 | a second dismiss changes nothing |
| Gallery.FindItem | app/stores/galleryStore.ts:135 | `find` gives none exactly when no item has the id, otherwise the first item with it |
| Gallery.NavigateTarget | app/stores/galleryStore.ts:171-187 | a target exists exactly when something is selected and it is a completed item; the target is always a completed item |
| Gallery.NavigateSteps | app/stores/galleryStore.ts:179-184 | with distinct ids, next goes to the following item and wraps from last to first; prev goes back and wraps from first to last |
| Gallery.NavigateRoundTrip | app/stores/galleryStore.ts:171-187 | next then prev, and prev then next, return to the selected item |
| Gallery.FormatDateKey | app/stores/galleryStore.ts:50-67 | Today exactly for today's day, Yesterday exactly for the day before, otherwise the day itself |
| Gallery.AddToGroup | app/stores/galleryStore.ts:211-212 | `grouped.set` keeps every group and its key in place; the first group with the key gets the item appended and every other group is unchanged; a key not yet present adds one group `[item]` at the end |
| Gallery.GroupStepUndated | app/stores/galleryStore.ts:209 | an item without a date leaves the grouping as it is |
| Gallery.GroupStepExisting | app/stores/galleryStore.ts:210-212 | a dated item whose key has a group joins the end of it, and the grouping stays exact |
| Gallery.GroupStepNew | app/stores/galleryStore.ts:210-212 | a dated item with a new key opens a group at the end, and the grouping stays exact |
| Gallery.GroupStepAt | app/stores/galleryStore.ts:208-213 | one turn of the loop: the grouping of a prefix becomes that of the prefix one item longer, with the item added to its key's group, or unchanged when it has no date |
| Gallery.GroupByDate | app/stores/galleryStore.ts:206-215 | the loop yields distinct keys, each group holds exactly its dated completed items in order, and every dated item has its group |
| Gallery.GalleryStore.constructor | app/stores/galleryStore.ts:69-84 | the initial state: no items, nothing selected, 1:1, 1K, no reference images, not generating |
| Gallery.GalleryStore.LoadImages | app/stores/galleryStore.ts:87-114 | on success every record becomes a completed item in newest-first order and hasLoaded is set; on failure items and hasLoaded are kept; loading is off either way |
| Gallery.GalleryStore.AddItem | app/stores/galleryStore.ts:116-119 | the item goes in front |
| Gallery.GalleryStore.AddItems | app/stores/galleryStore.ts:121-124 | the new items, in their order, go before all existing items |
| Gallery.GalleryStore.UpdateItem | app/stores/galleryStore.ts:126-131 | the items become `UpdateAll` of the old ones |
| Gallery.GalleryStore.DeleteItem | app/stores/galleryStore.ts:133-151 | a failed store delete rethrows and changes nothing; otherwise the record and the item go, the completed item's URL is revoked, and a selection of it is cleared with the lightbox closed |
| Gallery.GalleryStore.DismissItem | app/stores/galleryStore.ts:153-156 | the items with the id are removed; the image store is not touched |
| Gallery.GalleryStore.OpenLightbox | app/stores/galleryStore.ts:160-164 | the image is selected and the lightbox is open |
| Gallery.GalleryStore.CloseLightbox | app/stores/galleryStore.ts:166-169 | the lightbox is closed and the selection is kept |
| Gallery.GalleryStore.NavigateLightbox | app/stores/galleryStore.ts:171-187 | the selection moves to the navigation target, or stays when there is none |
| Gallery.GalleryStore.GetItem | app/hooks/useImageGeneration.ts:102 | the first item with the id |
| Gallery.GalleryStore.GetSelectedItem | app/stores/galleryStore.ts:189-196 | present exactly when the first item with the selected id exists and is completed, and then it is that item |
| Gallery.GalleryStore.GetCompletedItems | app/stores/galleryStore.ts:198-201 | the completed items |
| Gallery.GalleryStore.GetItemsByDate | app/stores/galleryStore.ts:203-216 | the completed items grouped by date key, as `GroupedByDate` states |
| Gallery.GalleryStore.SetModelCount | app/stores/galleryStore.ts:221-227 | the selections become `SetCount` of the old ones |
| Gallery.GalleryStore.AddReferenceImage | app/stores/galleryStore.ts:233-236 | the image is appended |
| Gallery.GalleryStore.RemoveReferenceImage | app/stores/galleryStore.ts:238-247 | the first matching image's URL is revoked and every image with the id is dropped |
| Gallery.GalleryStore.ClearReferenceImages | app/stores/galleryStore.ts:249-253 | every URL is revoked, then the list is empty |
| Gallery.GalleryStore.SetGenerating | app/stores/galleryStore.ts:255 | the flag takes the given value |
| Gallery.GalleryStore.GetSelectedModelIds | app/stores/galleryStore.ts:257-262 | the ids with a positive count |
| Gallery.GalleryStore.GetTotalImageCount | app/stores/galleryStore.ts:264-267 | the sum of all counts |
| Gallery.RevokedOnDelete | app/stores/galleryStore.ts:139-141 | one URL is revoked exactly when the first item with the id is completed, and it is that item's URL |
| Gallery.ItemFromRecord | app/stores/galleryStore.ts:92-107 | a record maps to a completed item with the record's id, fields, image, size and createdAt |
| Gallery.ItemsFromRecords | app/stores/galleryStore.ts:92-107 | the records map one to one, in order |
| Gallery.LoadedItemsCompleted | app/stores/galleryStore.ts:90-108 | the loaded items are all completed, carry the records' ids in order, and have distinct ids |
| GenerationStore.Pick | app/stores/generationStore.ts:82 | a field given in the update wins, otherwise the current one stays |
| GenerationStore.MergePending | app/stores/generationStore.ts:82 | `{ ...p, ...updates }` takes each given field from the update and keeps the rest |
| GenerationStore.MergePendingLaws | app/stores/generationStore.ts:82 | the empty update changes nothing, and merging twice is merging once |
| GenerationStore.UpdatePending | app/stores/generationStore.ts:79-84 | only entries with the id are merged; length and other entries are kept |
| GenerationStore.UpdatePendingAbsent | app/stores/generationStore.ts:79-84 | an id no entry has leaves the list as it is |
| GenerationStore.KeepFailed | app/stores/generationStore.ts:90-92 | exactly the failed entries are kept |
| GenerationStore.Dismiss | app/stores/generationStore.ts:97 | exactly the entries with another id are kept, whatever their status |
| GenerationStore.KeepFailedLaws | app/stores/generationStore.ts:86-93 | completing twice is completing once; an all-failed list is kept whole; a list with no failure is emptied |
| GenerationStore.DismissLaws | app/stores/generationStore.ts:95-98 | dismissing is idempotent and commutes with completing |
| GenerationStore.GenerationStore.constructor | app/stores/generationStore.ts:28-35 | the initial state: empty prompt, no selections, 1:1, 1K, no images, not generating, no pending entries |
| GenerationStore.GenerationStore.SetModelCount | app/stores/generationStore.ts:39-45 | the model's count becomes `max(0, count)` and every other model's count is unchanged |
| GenerationStore.GenerationStore.AddReferenceImage | app/stores/generationStore.ts:51-54 | the image is appended |
| GenerationStore.GenerationStore.RemoveReferenceImage | app/stores/generationStore.ts:56-65 | the first matching image's URL is revoked and every image with the id is dropped |
| GenerationStore.GenerationStore.ClearReferenceImages | app/stores/generationStore.ts:67-71 | every URL is revoked, then the list is empty |
| GenerationStore.GenerationStore.StartGeneration | app/stores/generationStore.ts:73-77 | generating is on and the pending list is replaced wholesale |
| GenerationStore.GenerationStore.UpdatePendingGeneration | app/stores/generationStore.ts:79-84 | the list becomes `UpdatePending` of the old one |
| GenerationStore.GenerationStore.CompleteGeneration | app/stores/generationStore.ts:86-93 | generating is off and only the failed entries remain, in order |
| GenerationStore.GenerationStore.DismissFailedGeneration | app/stores/generationStore.ts:95-98 | the entries with the id are removed |
| GenerationStore.GenerationStore.GetSelectedModelIds | app/stores/generationStore.ts:100-105 | the ids with a positive count |
| GenerationStore.GenerationStore.GetTotalImageCount | app/stores/generationStore.ts:107-110 | the sum of all counts |
| Providers.Dimensions | app/hooks/useImageGeneration.ts:482-495 | the loaded image's size, or 1024 by 1024 when it fails to load |
| Providers.SkipSeparators | app/hooks/useImageGeneration.ts:335 | `[:\s]*` runs to the end of the longest run of colons and white space |
| Providers.DigitRunEnd | app/hooks/useImageGeneration.ts:335 | `(\d+)` runs to the end of the longest run of digits |
| Providers.TailAt | app/hooks/useImageGeneration.ts:335 | the tail of the pattern matches exactly when a digit follows the separators |
| Providers.MatchAt | app/hooks/useImageGeneration.ts:335 | a match anchored at a position starts with "retry", in any case |
| Providers.FirstRetryAfterNone | app/hooks/useImageGeneration.ts:335-336 | `match` finds nothing exactly when the pattern matches at no position |
| Providers.FirstRetryAfterLeftmost | app/hooks/useImageGeneration.ts:335 | `match` takes the match at the leftmost matching position |
| Providers.GoogleRetryAfter | app/hooks/useImageGeneration.ts:334-338 | the captured digits' value when the pattern matches, otherwise 10 |
| Providers.RetryAfterHeader | app/hooks/useImageGeneration.ts:335-337 | "Retry-After: 30" gives 30 |
| Providers.RetryAfterJoined | app/hooks/useImageGeneration.ts:335-337 | "retryafter 7" gives 7, since `.?` may match nothing |
| Providers.RetryAfterDefault | app/hooks/useImageGeneration.ts:334 | a message without "retry" gives the default of 10 |
| Providers.ClassifyGoogle | app/hooks/useImageGeneration.ts:328-342 | rate limited exactly on an `Error` with status 429, code 429, "429" in the message or "rate limit" in the lower-cased message, with that retry-after; anything else is rethrown as is |
| Providers.GoogleNonErrorRethrown | app/hooks/useImageGeneration.ts:330-342 | a thrown non-Error, and an Error saying nothing of a limit, are rethrown |
| Providers.GoogleStatus429 | app/hooks/useImageGeneration.ts:332-339 | status 429 with an empty message is a rate limit of 10 seconds |
| Providers.ChunkImage | app/hooks/useImageGeneration.ts:349-362 | a chunk without parts gives nothing; otherwise the first part's inline data gives the blob of its data and MIME type exactly when both are non-empty |
| Providers.ChunkVersion | app/hooks/useImageGeneration.ts:349-366 | a chunk with parts and a non-empty version yields that version; any result is such a version of a chunk with parts |
| Providers.LastSomeNone | app/hooks/useImageGeneration.ts:348-367 | the overwriting loop ends with nothing exactly when no chunk yields a value |
| Providers.LastSomeRightmost | app/hooks/useImageGeneration.ts:348-367 | the overwriting loop ends with the value of the last chunk that yields one |
| Providers.ScanChunks | app/hooks/useImageGeneration.ts:345-367 | the loop ends with the last chunk image and the last model version |
| Providers.GoogleGeneration | app/hooks/useImageGeneration.ts:321-383 | a rejected request is classified; a stream error propagates; otherwise it succeeds exactly when some chunk has an image, keeps the last one, and else fails with "No image in response" |
| Providers.IndexOfCharFrom | app/hooks/useImageGeneration.ts:426 | the first occurrence of a character at or after a position, none exactly when it does not occur there |
| Providers.LastIndexOfChar | app/hooks/useImageGeneration.ts:426 | the last occurrence of a character before a position, none exactly when it does not occur there |
| Providers.JsonCandidateFound | app/hooks/useImageGeneration.ts:426-427 | `/\{[\s\S]*\}/` matches exactly when some '{' comes before some '}' |
| Providers.JsonCandidateSpan | app/hooks/useImageGeneration.ts:426-428 | the match runs from the first '{' to the last '}' |
| Providers.ReplicateRetryAfter | app/hooks/useImageGeneration.ts:424-435 | 10 without a JSON candidate or when it does not parse; a parsed non-zero `retry_after` is returned as it is; any other value is such a `retry_after` |
| Providers.ClassifyReplicate | app/hooks/useImageGeneration.ts:415-439 | rate limited exactly on an `Error` with status 429 or "429" in the message, with that retry-after; anything else is rethrown as is |
| Providers.ClassifiersDiffer | app/hooks/useImageGeneration.ts:422-436 | "rate limit" in the text and code 429 are rate limits for Google only |
| Providers.ImageUrl | app/hooks/useImageGeneration.ts:443-447 | `url()` of an object, the first element of a non-empty array, `String(output)` otherwise; missing exactly for an empty array |
| Providers.ReplicateGeneration | app/hooks/useImageGeneration.ts:412-466 | a rejected run is classified; a missing or empty URL fails with "No image in Replicate response"; a rejected download rethrows its error; a non-ok download fails with its status; success returns the blob, size and empty metadata |
| Providers.ExecuteGeneration | app/hooks/useImageGeneration.ts:263-281 | no key fails with "No API key for <provider>"; google and replicate go to their adapters; openai fails as not implemented |
| Providers.Execute | app/hooks/useImageGeneration.ts:263-281 | the dispatch returns what `ExecuteGeneration` states |
| Retry.Pow2 | app/hooks/useImageGeneration.ts:79 | `Math.pow(2, k)` is at least 1 |
| Retry.CeilSeconds | app/hooks/useImageGeneration.ts:86 | `Math.ceil(ms / 1000)` is the least whole number of seconds covering the delay |
| Retry.BackoffSeconds | app/hooks/useImageGeneration.ts:79-86 | the retry-after shown for a backoff is exactly 2^retryCount seconds |
| Retry.AfterSleep | app/hooks/useImageGeneration.ts:478-480 | a sleep never moves the clock back and advances it by a non-negative delay |
| Retry.Outcomes | app/hooks/useImageGeneration.ts:56 | one outcome per provider call |
| Retry.OutcomesAt | app/hooks/useImageGeneration.ts:56 | the k-th outcome is how the k-th call settles |
| Retry.NextWait | app/hooks/useImageGeneration.ts:59-93 | a rate limit waits retryAfter·1000 ms under the same count; another failure with count below 3 waits 1000·2^count ms under count+1; anything else ends the run |
| Retry.WaitUpdates | app/hooks/useImageGeneration.ts:63-73 | a wait writes two updates, the second back to generating |
| Retry.RetryRun | app/hooks/useImageGeneration.ts:50-98 | a run uses at most the replies given, settles after one attempt per wait plus one, writes two updates per wait and ends on generating |
| Retry.RetryFrom | app/hooks/useImageGeneration.ts:57-96 | the same bounds for the run once its first attempt has settled |
| Retry.FinalRun | app/hooks/useImageGeneration.ts:95-96 | an attempt with no wait ends the run with its result or rethrows its error |
| Retry.WaitRun | app/hooks/useImageGeneration.ts:63-74 | an attempt with a wait records it, then continues under the wait's count |
| Retry.RateLimitedRun | app/hooks/useImageGeneration.ts:59-74 | a rate limit waits retryAfter seconds and retries under the same count |
| Retry.BackoffRun | app/hooks/useImageGeneration.ts:78-92 | a failure with retries left backs off and retries under count+1 |
| Retry.RetryRunReplies | app/hooks/useImageGeneration.ts:55-57 | the run over the replies starts with the first reply's outcome |
| Retry.RateLimitsNeverCount | app/hooks/useImageGeneration.ts:59-74 | while every attempt is rate limited the run never settles, waits retryAfter·1000 ms each time and never changes the retry count |
| Retry.SuccessAfterRateLimits | app/hooks/useImageGeneration.ts:55-74 | any number of rate limits followed by a success ends with that result, after one wait per rate limit |
| Retry.AttemptBound | app/hooks/useImageGeneration.ts:78-96 | without rate limits at most 4 attempts and 3 waits from count 0; a rethrow comes only after all of them |
| Retry.BackoffSchedule | app/hooks/useImageGeneration.ts:78-96 | four failures wait 1000, 2000 and 4000 ms with retry counts 1-3 and retry-afters 1, 2 and 4, then rethrow the fourth error |
| Retry.MissingKeyBacksOff | app/hooks/useImageGeneration.ts:267-268 | a provider without a key is retried three times with backoff before the "No API key" error is rethrown |
| Retry.ClockIndependent | app/hooks/useImageGeneration.ts:60-61 | how a run ends, its attempts and its sleeps do not depend on the clock |
| Engine.GetModel | app/hooks/useImageGeneration.ts:161-162 | `getModel(models, id)` gives none exactly when no stored model has the id, otherwise one with it |
| Engine.Blobs | app/hooks/useImageGeneration.ts:176 | the task carries each reference image's blob, in order |
| Engine.RefIds | app/hooks/useImageGeneration.ts:187 | the pending item carries each reference image's id, in order |
| Engine.TaskResolution | app/hooks/useImageGeneration.ts:166 | the resolution is set exactly when the model supports one, and then it is the selected one |
| Engine.EntryPlan | app/hooks/useImageGeneration.ts:159-190 | an entry yields count tasks, none for a zero count or an unknown model; each task and its pending item share a fresh id, status pending and retry count 0 |
| Engine.EntryPlanAt | app/hooks/useImageGeneration.ts:164-190 | the i-th task of an entry is built from the i-th id |
| Engine.Plan | app/hooks/useImageGeneration.ts:158-191 | the k-th task of the whole expansion uses the k-th id and is well formed |
| Engine.TasksPerModel | app/hooks/useImageGeneration.ts:158-191 | each model yields exactly as many tasks as its count; a zero or negative count, an unknown model or an absent model yields none |
| Engine.PlanEntry | app/hooks/useImageGeneration.ts:164-190 | the inner loop pushes exactly the entry's tasks and pending items |
| Engine.BuildTasks | app/hooks/useImageGeneration.ts:155-191 | the nested loops push exactly the tasks and pending items of the expansion |
| Engine.TaskRunSettles | app/hooks/useImageGeneration.ts:204-237 | a task's item ends completed with its image after a fulfilment, failed and retryable with the message after a rejection, generating while it never settles |
| Engine.TaskRunSaves | app/hooks/useImageGeneration.ts:205-220 | a run is fulfilled exactly when the retries yield a result and the save succeeds; then one record with the task's fields and no reference ids is added, and otherwise none |
| Engine.TaskRunRejects | app/hooks/useImageGeneration.ts:234-237 | a rejection carries the error the retries gave up on, or the save's error |
| Engine.Runs | app/hooks/useImageGeneration.ts:200-240 | one run per task |
| Engine.OutcomesOf | app/hooks/useImageGeneration.ts:200-240 | one outcome per run |
| Engine.OutcomesOfAt | app/hooks/useImageGeneration.ts:200-240 | the outcomes are listed in task order |
| Engine.AllSettledIff | app/hooks/useImageGeneration.ts:242-243 | every task has settled exactly when no run is left unsettled |
| Engine.Applied | app/hooks/useImageGeneration.ts:200-240 | the tasks' item updates keep the gallery's ids |
| Engine.AppliedUntouched | app/hooks/useImageGeneration.ts:200-240 | an item no task names keeps its value |
| Engine.AppliedOwn | app/hooks/useImageGeneration.ts:200-240 | an item named by one task alone goes through that task's updates only |
| Engine.EachItemSettles | app/hooks/useImageGeneration.ts:196-240 | with distinct task ids, each task's pending item ends in the status its outcome states |
| Engine.OldItemsKept | app/hooks/useImageGeneration.ts:196 | items already in the gallery whose ids no task has are left as they were |
| Engine.PlanUnknownModels | app/hooks/useImageGeneration.ts:159-193 | when no selected model is found, the nested loops build no task |
| Engine.LookupAsCalled | app/hooks/useImageGeneration.ts:101-106 | a lookup that never finds, as the one-argument `getModel` does when called with the list, plans no task for `generate` and no retry task |
| Engine.RetryTask | app/hooks/useImageGeneration.ts:101-117 | a task exists exactly for a failed item whose model is known; it keeps the item's id and fields, the model's provider and no reference images |
| Engine.ApplyWaitThen | app/hooks/useImageGeneration.ts:63-73 | the two updates of a wait apply before the later ones |
| Engine.Generator.constructor | app/hooks/useImageGeneration.ts:35-47 | the hook holds the gallery and image stores and the clock, with nothing slept yet |
| Engine.Generator.Sleep | app/hooks/useImageGeneration.ts:478-480 | the clock advances as `AfterSleep` states and the delay is logged |
| Engine.Generator.ExecuteWithRetry | app/hooks/useImageGeneration.ts:50-98 | the result, clock, sleeps and item updates are those of `RetryRun` over the replies' outcomes |
| Engine.Generator.Settle | app/hooks/useImageGeneration.ts:57-96 | the `catch` block does what `RetryFrom` states |
| Engine.Generator.Pause | app/hooks/useImageGeneration.ts:63-73 | the item goes waiting, the sleep is taken, the item goes back to generating |
| Engine.Generator.RunTask | app/hooks/useImageGeneration.ts:202-238 | a task's run does what `TaskRun` states: generating, the retries, then the save and completed, or failed |
| Engine.Generator.Generate | app/hooks/useImageGeneration.ts:153-245 | with no task nothing changes; otherwise the pending items go in front and every task runs; the outcomes are listed in task order; generating is cleared exactly when every task has settled |
| Engine.Generator.RunAll | app/hooks/useImageGeneration.ts:200-240 | the tasks run in turn, with the outcomes, gallery, clock, sleeps and records of `Runs` |
| Engine.Generator.RunNext | app/hooks/useImageGeneration.ts:200-240 | one more task run extends the traces of the earlier ones |
| Engine.Generator.RetryItem | app/hooks/useImageGeneration.ts:101-151 | nothing happens unless `RetryTask` gives a task; then that task runs again from retry count 0 under the item's id |
| Relay.RouteOf | workers/app.ts:10-12 | proxied exactly when the path starts with "/proxy/replicate/", to the API host plus the path after "/proxy/replicate" |
| Relay.Handle | workers/app.ts:6-29 | asset paths go to the asset handler; a proxied request goes upstream with its method, headers and body, and the upstream status, headers and body are returned |
| Relay.ProxiedPath | workers/app.ts:10-12 | "/proxy/replicate/" + rest goes to "https://api.replicate.com/" + rest |
| Relay.TargetRecoversPath | workers/app.ts:11-12 | the path is recovered from a relayed target, so the rewrite loses nothing |
| Relay.AssetExamples | workers/app.ts:28 | "/proxy/replicate" without the slash, and "/", go to the assets |
| GenerateButton.PositiveTotal | app/components/sidebar/GenerateButton.tsx:19 | a sum of positive counts is positive exactly when there is one |
| GenerateButton.TotalImagesLaws | app/components/sidebar/GenerateButton.tsx:18-19 | the total is non-negative, positive exactly when some count is positive, the plain sum when no count is negative |
| GenerateButton.MissingKeysIff | app/components/sidebar/GenerateButton.tsx:22-25 | a key is missing exactly when an active entry names a known model whose provider has no key; unknown ids never count |
| GenerateButton.CanGenerateIff | app/components/sidebar/GenerateButton.tsx:27-28 | generation may start exactly when the prompt is not blank, some count is positive, no active known model lacks a key, and nothing is running |
| GenerateButton.HandleGenerate | app/components/sidebar/GenerateButton.tsx:30-51 | a click opens settings exactly when a key is missing, generates exactly when it may and no key is missing, and does something exactly when the button is enabled |
| GenerateButton.MissingKeyOpensSettings | app/components/sidebar/GenerateButton.tsx:30-34 | with a key missing a click opens settings and the button is enabled, whatever the prompt and even while generating |
| GenerateButton.CountLineReadsBack | app/components/sidebar/GenerateButton.tsx:44 | the status line starts with the count in decimal and says "model" in the singular exactly when the count is 1 |
| GenerateButton.StatusText | app/components/sidebar/GenerateButton.tsx:41-45 | the status line is empty exactly when no images are asked for, and otherwise is the count line of the number of active models (not of images) with the ratio label |
| GenerateButton.RegistryWithoutGoogleKey | app/components/sidebar/GenerateButton.tsx:22-34 | with the registry as declared, selecting Gemini 3.0 Pro Image without a Google key makes a click open settings |
| AddCustomModel.DecideChecks | app/components/settings/AddCustomModelButton.tsx:16-29 | blank input is ignored exactly; input without "/" gets the format error; an existing "replicate/"+input gets the duplicate error |
| AddCustomModel.AddedOnlyWhenValid | app/components/settings/AddCustomModelButton.tsx:15-38 | a model is added only for valid, new input and an ok response, with the fetched name and parsed capabilities |
| AddCustomModel.FetchFailureMessages | app/components/settings/AddCustomModelButton.tsx:39-40 | a failed fetch shows the not-found message, the thrown Error's message, or "Failed to fetch model" for a non-Error |
| AddCustomModel.AddThenDuplicate | app/components/settings/AddCustomModelButton.tsx:25-36 | after an add the full id is found at the new entry, and adding the same input again is refused as a duplicate |
| AddCustomModel.AddForm.constructor | app/components/settings/AddCustomModelButton.tsx:7-10 | the form starts closed, with empty input, not loading and no error |
| AddCustomModel.AddForm.Open | app/components/settings/AddCustomModelButton.tsx:49 | adding mode is on; the rest is kept |
| AddCustomModel.AddForm.Edit | app/components/settings/AddCustomModelButton.tsx:67-70 | the input is replaced and the error cleared |
| AddCustomModel.AddForm.Cancel | app/components/settings/AddCustomModelButton.tsx:85-89 | adding mode is off, with empty input and no error |
| AddCustomModel.AddForm.HandleAdd | app/components/settings/AddCustomModelButton.tsx:15-44 | the result is `Decide` on the old input and models. A success appends one custom entry, clears the input and leaves adding mode. Every other outcome leaves the models unchanged, and each outcome sets its error and loading state |

## Left out

- Provider SDKs and the network are oracles:
  - Google requests and the stream are a `GoogleReply`.
  - `replicate.run` and the image download are a `ReplicateReply`.
  - The request builders (parts, config, input payload, the "replicate/" model-name rewrite at app/hooks/useImageGeneration.ts:410) are not modelled, because they only shape SDK arguments.
- `FileReader`, `atob` decoding and `Image` dimension probing are left out. Blobs are opaque values, the probe is a parameter, and its 1024×1024 fallback is modelled.
- Concurrency: the tasks of `generate` run one after another rather than interleaved under `Promise.allSettled`. A task whose run never settles makes `generate` never clear `isGenerating`; the model states this as `NeverSettles`. Call latency is not modelled; the clock moves only with `sleep`.
- Engine.Generator.ExecuteWithRetry: takes the provider call as a parameter (`Exec`). The hook passes `Retry.ProviderCall`, the keyed `ExecuteGeneration`. Provider replies come as a finite list, and running out of them is the `Unsettled` result, because an unbounded rate-limit loop has no finite trace.
- Crypto UUIDs are a parameter `uuid: nat -> string`. Their distinctness is the `FreshIds` assumption of `Engine.EachItemSettles`, not a property of the source.
- `Date.now()`, `toLocaleDateString` and calendar arithmetic are replaced by a `dayOf` function and a `today` day. A date key other than Today or Yesterday is the day number, not its locale text.
- Providers.ReplicateReply: the download reply is given as an oracle that does not depend on the chosen URL, so which URL `ImageUrl` picks shows only in the empty-URL check.
- Strings.StrLess and Providers.MatchAt: strings are sequences of Unicode scalar values, while JavaScript's `<` and a regex without the `u` flag work on UTF-16 code units. The two differ only for characters above U+FFFF.
- Providers.ReplicateRetryAfter: takes `JSON.parse` as a parameter. It treats `retry_after` as an integer, without `Math.ceil` of a fractional or a non-number value.
- The 53-bit precision of JavaScript numbers is not modelled; counts, times and sizes are unbounded integers.
- `Object.entries` order is modelled as the insertion order of the selections record. Integer-like keys, which JavaScript lists first, are not treated specially.
- IndexedDB open, upgrade and transaction plumbing, the `references` store (`saveReferenceImage`, `deleteReferenceImage`), `toDisplayImage` and `revokeImageUrl` are left out. They are I/O or unused by the core.
- Object URLs are opaque strings from a parameter. Revocations are logged in `revokedUrls`.
- `fetchModelInfo`'s request (URL, `Authorization` header, `apiKey` argument) is folded into the settled `FetchOutcome` reply.
- Relay.Handle: headers and bodies pass through as values; streaming bodies are not modelled.
- GenerateButton.MissingKeys: takes the model list as a parameter; the button uses the registry (`Models.Registry`).
- The trivial setters `setPrompt`, `setAspectRatio`, `setResolution` and `setViewMode` of both stores are left out. Each assigns one field that nothing here reads back. For the same reason the view mode is not part of the gallery state.
- zustand's `create`/`persist` machinery is not modelled. Each store is a class; persistence is `Partialize` and `Migrate`.
- Rendering, the loading spinner and the remaining presentational components are not part of this model.
- ImageDb.SaveReply: the `add` failure on an existing key is the value `ConstraintError`; the DOMException's name and message text are not modelled.
- Gallery.Merge: items carry their status as one sum type, so a status-specific field of an earlier update (`retryAfter` of a wait, `error` of a failure) does not stay on the item after a later update, as the shallow spread would leave it; only `retryCount` is kept across updates.

## Findings

| source | as written | input that shows it | evidently intended | confidence | as-written member | corrected member |
|---|---|---|---|---|---|---|
| app/hooks/useImageGeneration.ts:161 | `getModel(models, modelId)` calls the one-argument registry `getModel` of app/lib/models.ts:48, whose `find` compares each registry id with the list passed in, so no model is ever found | any selection with a positive count, such as one image of a model with its key set: no task is planned and `generate` returns at line 193 | the first stored model with the id, so each selected model yields its count of tasks | high; not executed | Engine.LookupAsCalled | Engine.GetModel |
