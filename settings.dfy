/** The persisted settings store (app/stores/settingsStore.ts): API keys, the
    user's model list with capability flags, and the settings-modal flag. */
module Settings {
  import opened Types
  import opened Seqs

  /** A `StoredModel`: `isCustom` absent reads as `false`; `schemaFetched` may be absent. */
  datatype StoredModel = StoredModel(
    id: string,
    name: string,
    provider: Provider,
    enabled: bool,
    isCustom: bool,
    schemaFetched: Option<bool>,
    capabilities: Capabilities)

  /** DEFAULT_MODELS: two Google models and five removable Replicate models. */
  const DefaultModels: seq<StoredModel> := [
    StoredModel("gemini-2.5-flash-image", "Gemini 2.5 Flash", Google, true, false, None,
                Capabilities(true, false, true, 10)),
    StoredModel("gemini-3-pro-image-preview", "Gemini 3.0 Pro", Google, true, false, None,
                Capabilities(true, true, true, 10)),
    StoredModel("replicate/google/nano-banana", "Nano Banana", Replicate, true, true, None,
                Capabilities(true, false, true, 10)),
    StoredModel("replicate/google/nano-banana-pro", "Nano Banana Pro", Replicate, true, true, None,
                Capabilities(true, true, true, 14)),
    StoredModel("replicate/openai/gpt-image-1.5", "GPT Image 1.5", Replicate, true, true, None,
                Capabilities(true, false, true, 1)),
    StoredModel("replicate/black-forest-labs/flux-2-flex", "Flux 2 Flex", Replicate, true, true, None,
                Capabilities(true, false, true, 1)),
    StoredModel("replicate/bytedance/seedream-4.5", "SeeDream 4.5", Replicate, true, true, None,
                Capabilities(true, false, false, 0))
  ]

  /** The initial `apiKeys`: `{ google: null, replicate: null }`. */
  const InitialKeys: ApiKeys := ApiKeys(None, None, None)

  /** The first stored model with the given id (`models.find(m => m.id === id)`),
      the two-argument `getModel` the generation hook calls. */
  function FindModel(models: seq<StoredModel>, id: string): (r: Option<nat>)
    ensures r.None? <==> forall i :: 0 <= i < |models| ==> models[i].id != id
    ensures r.Some? ==> r.value < |models| && models[r.value].id == id &&
                        forall j :: 0 <= j < r.value ==> models[j].id != id
  {
    FindFirst(models, (m: StoredModel) => m.id == id)
  }

  /** `setModelEnabled`: the `enabled` flag of every model with the id, and nothing else. */
  function WithEnabled(models: seq<StoredModel>, id: string, enabled: bool): (r: seq<StoredModel>)
    ensures |r| == |models|
    ensures forall i :: 0 <= i < |r| ==>
      r[i].(enabled := models[i].enabled) == models[i] &&
      r[i].enabled == (if models[i].id == id then enabled else models[i].enabled)
  {
    seq(|models|, i requires 0 <= i < |models| =>
      if models[i].id == id then models[i].(enabled := enabled) else models[i])
  }

  /** The entry `addCustomModel(id, name, capabilities)` appends. */
  function CustomEntry(id: string, name: string, capabilities: Capabilities): (m: StoredModel)
    ensures m.id == "replicate/" + id && m.provider == Replicate
    ensures m.enabled && m.isCustom && m.schemaFetched == Some(true)
    ensures m.name == name && m.capabilities == capabilities
  {
    StoredModel("replicate/" + id, name, Replicate, true, true, Some(true), capabilities)
  }

  /** `removeCustomModel`: drops every model with the id, custom or not. */
  function WithoutModel(models: seq<StoredModel>, id: string): (r: seq<StoredModel>)
    ensures forall i :: 0 <= i < |r| ==> r[i].id != id && r[i] in models
    ensures forall i :: 0 <= i < |models| && models[i].id != id ==> models[i] in r
    ensures |r| < |models| <==> exists i :: 0 <= i < |models| && models[i].id == id
  {
    FilterShorterIff(models, (m: StoredModel) => m.id != id);
    Filter(models, (m: StoredModel) => m.id != id)
  }

  /** `updateModelCapabilities`: on matching models, new capabilities, and
      `schemaFetched` only when one is given. */
  function WithCapabilities(models: seq<StoredModel>, id: string, capabilities: Capabilities,
                            schemaFetched: Option<bool>): (r: seq<StoredModel>)
    ensures |r| == |models|
    ensures forall i :: 0 <= i < |r| ==>
      r[i].(capabilities := models[i].capabilities, schemaFetched := models[i].schemaFetched) == models[i] &&
      r[i].capabilities == (if models[i].id == id then capabilities else models[i].capabilities) &&
      r[i].schemaFetched == (if models[i].id == id && schemaFetched.Some? then schemaFetched
                             else models[i].schemaFetched)
  {
    seq(|models|, i requires 0 <= i < |models| =>
      if models[i].id != id then models[i]
      else if schemaFetched.Some? then models[i].(capabilities := capabilities, schemaFetched := schemaFetched)
      else models[i].(capabilities := capabilities))
  }

  /** `getEnabledModels(state)`: enabled models whose provider has a non-empty key, in order. */
  function EnabledModels(models: seq<StoredModel>, keys: ApiKeys): (r: seq<StoredModel>)
    ensures forall i :: 0 <= i < |r| ==> r[i] in models && r[i].enabled && HasKey(keys, r[i].provider)
    ensures forall i :: 0 <= i < |models| && models[i].enabled && HasKey(keys, models[i].provider) ==>
      models[i] in r
  {
    Filter(models, (m: StoredModel) => m.enabled && HasKey(keys, m.provider))
  }

  /** Enabling is per id: setting a flag twice is setting it once, and an id not in
      the list changes nothing. */
  lemma WithEnabledLaws(models: seq<StoredModel>, id: string, a: bool, b: bool)
    ensures WithEnabled(WithEnabled(models, id, a), id, b) == WithEnabled(models, id, b)
    ensures (forall i :: 0 <= i < |models| ==> models[i].id != id) ==> WithEnabled(models, id, a) == models
  {
  }

  /** Removing twice is removing once. */
  lemma WithoutModelIdempotent(models: seq<StoredModel>, id: string)
    ensures WithoutModel(WithoutModel(models, id), id) == WithoutModel(models, id)
  {
    FilterIdempotent(models, (m: StoredModel) => m.id != id);
  }

  /** `enabled && key` selection commutes with concatenation, which is what keeps it in order. */
  lemma EnabledModelsAppend(a: seq<StoredModel>, b: seq<StoredModel>, keys: ApiKeys)
    ensures EnabledModels(a + b, keys) == EnabledModels(a, keys) + EnabledModels(b, keys)
  {
    FilterAppend(a, b, (m: StoredModel) => m.enabled && HasKey(keys, m.provider));
  }

  /** With no keys set no model is usable; with every key set, exactly the enabled ones are. */
  lemma EnabledModelsByKeys(models: seq<StoredModel>, keys: ApiKeys)
    ensures EnabledModels(models, InitialKeys) == []
    ensures HasKey(keys, Google) && HasKey(keys, OpenAI) && HasKey(keys, Replicate) &&
            (forall i :: 0 <= i < |models| ==> models[i].enabled) ==>
            EnabledModels(models, keys) == models
  {
    FilterNone(models, (m: StoredModel) => m.enabled && HasKey(InitialKeys, m.provider));
    if HasKey(keys, Google) && HasKey(keys, OpenAI) && HasKey(keys, Replicate) &&
       (forall i :: 0 <= i < |models| ==> models[i].enabled) {
      FilterAll(models, (m: StoredModel) => m.enabled && HasKey(keys, m.provider));
    }
  }

  /** A custom model added under a fresh full id is the one a lookup by that id
      finds; under an id already present, the lookup still finds the earlier model. */
  lemma AddedModelLookup(models: seq<StoredModel>, id: string, name: string, capabilities: Capabilities)
    ensures var added := models + [CustomEntry(id, name, capabilities)];
      var found := FindModel(added, "replicate/" + id);
      found.Some? &&
      (FindModel(models, "replicate/" + id).None? ==> added[found.value] == CustomEntry(id, name, capabilities)) &&
      (FindModel(models, "replicate/" + id).Some? ==> found == FindModel(models, "replicate/" + id))
  {
    var added := models + [CustomEntry(id, name, capabilities)];
    assert added[|models|].id == "replicate/" + id;
    var before := FindModel(models, "replicate/" + id);
    var found := FindModel(added, "replicate/" + id);
    if before.None? {
      assert found.value == |models|;
    } else {
      assert added[before.value] == models[before.value];
      assert found.value == before.value;
    }
  }

  /** What is written to storage: the keys and the models, nothing else
      (`partialize`). A missing field of an older snapshot is `None`. */
  datatype Persisted = Persisted(apiKeys: Option<ApiKeys>, models: Option<seq<StoredModel>>)

  const CurrentVersion: int := 2

  /** `migrate(persisted, version)` */
  function Migrate(p: Persisted, version: int): (r: Persisted)
    ensures version >= CurrentVersion ==> r == p
    ensures version < CurrentVersion ==>
      r.models == Some(DefaultModels) && r.apiKeys.Some? &&
      r.apiKeys.value.google == (if p.apiKeys.Some? then p.apiKeys.value.google else None) &&
      r.apiKeys.value.replicate == (if p.apiKeys.Some? then p.apiKeys.value.replicate else None) &&
      r.apiKeys.value.openai.None?
  {
    if version < CurrentVersion then
      var old_ := if p.apiKeys.Some? then p.apiKeys.value else InitialKeys;
      Persisted(Some(ApiKeys(old_.google, None, old_.replicate)), Some(DefaultModels))
    else p
  }

  /** The store: `apiKeys`, `models` and `settingsModalOpen`. */
  class SettingsStore {
    var apiKeys: ApiKeys
    var models: seq<StoredModel>
    var settingsModalOpen: bool

    constructor ()
      ensures apiKeys == InitialKeys && models == DefaultModels && !settingsModalOpen
    {
      apiKeys := InitialKeys;
      models := DefaultModels;
      settingsModalOpen := false;
    }

    /** `partialize(state)` */
    function Partialize(): (p: Persisted)
      reads this
      ensures p.apiKeys == Some(apiKeys) && p.models == Some(models)
    {
      Persisted(Some(apiKeys), Some(models))
    }

    method SetApiKey(provider: Provider, key: Option<string>)
      modifies this
      ensures apiKeys == WithKey(old(apiKeys), provider, key)
      ensures models == old(models) && settingsModalOpen == old(settingsModalOpen)
    {
      apiKeys := WithKey(apiKeys, provider, key);
    }

    method ClearApiKey(provider: Provider)
      modifies this
      ensures apiKeys == WithKey(old(apiKeys), provider, None)
      ensures models == old(models) && settingsModalOpen == old(settingsModalOpen)
    {
      apiKeys := WithKey(apiKeys, provider, None);
    }

    method SetModelEnabled(id: string, enabled: bool)
      modifies this
      ensures models == WithEnabled(old(models), id, enabled)
      ensures apiKeys == old(apiKeys) && settingsModalOpen == old(settingsModalOpen)
    {
      models := WithEnabled(models, id, enabled);
    }

    method AddCustomModel(id: string, name: string, capabilities: Capabilities)
      modifies this
      ensures models == old(models) + [CustomEntry(id, name, capabilities)]
      ensures apiKeys == old(apiKeys) && settingsModalOpen == old(settingsModalOpen)
    {
      models := models + [CustomEntry(id, name, capabilities)];
    }

    method RemoveCustomModel(id: string)
      modifies this
      ensures models == WithoutModel(old(models), id)
      ensures apiKeys == old(apiKeys) && settingsModalOpen == old(settingsModalOpen)
    {
      models := WithoutModel(models, id);
    }

    method UpdateModelCapabilities(id: string, capabilities: Capabilities, schemaFetched: Option<bool>)
      modifies this
      ensures models == WithCapabilities(old(models), id, capabilities, schemaFetched)
      ensures apiKeys == old(apiKeys) && settingsModalOpen == old(settingsModalOpen)
    {
      models := WithCapabilities(models, id, capabilities, schemaFetched);
    }

    method OpenSettingsModal()
      modifies this
      ensures settingsModalOpen
      ensures apiKeys == old(apiKeys) && models == old(models)
    {
      settingsModalOpen := true;
    }

    method CloseSettingsModal()
      modifies this
      ensures !settingsModalOpen
      ensures apiKeys == old(apiKeys) && models == old(models)
    {
      settingsModalOpen := false;
    }

    /** `getEnabledModels(state)` */
    function GetEnabledModels(): (r: seq<StoredModel>)
      reads this
      ensures r == EnabledModels(models, apiKeys)
    {
      EnabledModels(models, apiKeys)
    }
  }
}
