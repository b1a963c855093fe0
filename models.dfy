/** The static model registry and the aspect-ratio / resolution helpers of
    app/lib/models.ts. Every helper takes the model list as a parameter;
    `Registry` is the list the file declares. */
module Models {
  import opened Types
  import opened Seqs

  datatype DefinitionCapabilities = DefinitionCapabilities(
    aspectRatios: seq<AspectRatio>,
    supportsResolution: bool,
    supportsReferenceImages: bool,
    maxReferenceImages: int)

  datatype ModelDefinition = ModelDefinition(
    id: string,
    name: string,
    provider: Provider,
    apiKeyRequired: Provider,
    capabilities: DefinitionCapabilities,
    defaultAspectRatio: AspectRatio,
    maxImagesPerRequest: int)

  /** MODELS */
  const Registry: seq<ModelDefinition> := [
    ModelDefinition("gemini-2.5-flash-image", "Gemini 2.5 Flash Image", Google, Google,
      DefinitionCapabilities([], false, true, 10), Square, 1),
    ModelDefinition("gemini-3-pro-image-preview", "Gemini 3.0 Pro Image", Google, Google,
      DefinitionCapabilities(AllAspectRatios, true, true, 10), Square, 1)
  ]

  /** `models.find(m => m.id === id)`: the first model with that id, if any. */
  function GetModel(models: seq<ModelDefinition>, id: string): (r: Option<ModelDefinition>)
    ensures r.None? <==> forall k :: 0 <= k < |models| ==> models[k].id != id
    ensures r.Some? ==> exists k :: 0 <= k < |models| && models[k] == r.value && r.value.id == id
                                    && forall j :: 0 <= j < k ==> models[j].id != id
  {
    if models == [] then None
    else if models[0].id == id then Some(models[0])
    else
      var r := GetModel(models[1..], id);
      assert r.Some? ==> exists k :: 1 <= k < |models| && models[k] == r.value && r.value.id == id
                                    && forall j :: 0 <= j < k ==> models[j].id != id by {
        if r.Some? {
          var k :| 0 <= k < |models[1..]| && models[1..][k] == r.value && r.value.id == id
                   && forall j :: 0 <= j < k ==> models[1..][j].id != id;
          assert models[k + 1] == r.value;
          assert forall j :: 1 <= j < k + 1 ==> models[j].id == models[1..][j - 1].id;
        }
      }
      r
  }

  /** `getEnabledModels(apiKeys)`: the models whose required provider has a key. */
  function EnabledDefinitions(models: seq<ModelDefinition>, keys: ApiKeys): (r: seq<ModelDefinition>)
    ensures forall m :: m in r <==> m in models && HasKey(keys, m.apiKeyRequired)
    ensures |r| <= |models|
  {
    if models == [] then []
    else
      var rest := EnabledDefinitions(models[1..], keys);
      assert forall m :: m in models <==> m == models[0] || m in models[1..];
      if HasKey(keys, models[0].apiKeyRequired) then [models[0]] + rest else rest
  }

  /** A selected id names a known model that lists `ar`. */
  predicate ListsRatio(models: seq<ModelDefinition>, id: string, ar: AspectRatio)
  {
    GetModel(models, id).Some? && ar in GetModel(models, id).value.capabilities.aspectRatios
  }

  /** `isAspectRatioSupported(aspectRatio, selectedModelIds)` */
  function IsAspectRatioSupported(models: seq<ModelDefinition>, ar: AspectRatio, ids: seq<string>): (r: bool)
    ensures r <==> forall i :: 0 <= i < |ids| ==> ListsRatio(models, ids[i], ar)
  {
    if |ids| == 0 then true else EveryListsRatio(models, ar, ids)
  }

  function EveryListsRatio(models: seq<ModelDefinition>, ar: AspectRatio, ids: seq<string>): (r: bool)
    ensures r <==> forall i :: 0 <= i < |ids| ==> ListsRatio(models, ids[i], ar)
  {
    if ids == [] then true
    else
      var rest := EveryListsRatio(models, ar, ids[1..]);
      assert forall i :: 1 <= i < |ids| ==> ids[i] == ids[1..][i - 1];
      ListsRatio(models, ids[0], ar) && rest
  }

  /** The id names a known model with a non-empty aspect-ratio list. */
  predicate AspectCapable(models: seq<ModelDefinition>, id: string)
  {
    GetModel(models, id).Some? && |GetModel(models, id).value.capabilities.aspectRatios| > 0
  }

  /** `anyModelSupportsAspectRatio(selectedModelIds)` */
  function AnyModelSupportsAspectRatio(models: seq<ModelDefinition>, ids: seq<string>): (r: bool)
    ensures r <==> exists i :: 0 <= i < |ids| && AspectCapable(models, ids[i])
  {
    if ids == [] then false
    else
      var rest := AnyModelSupportsAspectRatio(models, ids[1..]);
      assert forall i :: 1 <= i < |ids| ==> ids[i] == ids[1..][i - 1];
      assert rest ==> exists i :: 1 <= i < |ids| && AspectCapable(models, ids[i]) by {
        if rest {
          var i :| 0 <= i < |ids[1..]| && AspectCapable(models, ids[1..][i]);
          assert AspectCapable(models, ids[i + 1]);
        }
      }
      AspectCapable(models, ids[0]) || rest
  }

  /** The aspect-capable models of a selection, in selection order
      (`selectedModelIds.map(getModel).filter(...)`). */
  function CapableModels(models: seq<ModelDefinition>, ids: seq<string>): (r: seq<ModelDefinition>)
    ensures (r == []) <==> !AnyModelSupportsAspectRatio(models, ids)
  {
    if ids == [] then []
    else
      var rest := CapableModels(models, ids[1..]);
      assert forall i :: 1 <= i < |ids| ==> ids[i] == ids[1..][i - 1];
      var found := GetModel(models, ids[0]);
      if AspectCapable(models, ids[0]) then [found.value] + rest else rest
  }

  /** A ratio listed by every model of `capable`. */
  predicate InAll(ar: AspectRatio, capable: seq<ModelDefinition>)
  {
    forall m :: m in capable ==> ar in m.capabilities.aspectRatios
  }

  /** The ratios of `ratios` that every model of `capable` lists, in `ratios`' order. */
  function KeepCommon(ratios: seq<AspectRatio>, capable: seq<ModelDefinition>): (r: seq<AspectRatio>)
    ensures forall ar :: ar in r <==> ar in ratios && InAll(ar, capable)
    ensures |r| <= |ratios|
  {
    if ratios == [] then []
    else
      var rest := KeepCommon(ratios[1..], capable);
      assert forall ar :: ar in ratios <==> ar == ratios[0] || ar in ratios[1..];
      if InAll(ratios[0], capable) then [ratios[0]] + rest else rest
  }

  /** `getCommonAspectRatios(selectedModelIds)` */
  function CommonAspectRatios(models: seq<ModelDefinition>, ids: seq<string>): seq<AspectRatio>
  {
    if |ids| == 0 then AllAspectRatios
    else
      var capable := CapableModels(models, ids);
      if |capable| == 0 then [] else KeepCommon(capable[0].capabilities.aspectRatios, capable)
  }

  /** Every aspect-capable selected model lists `ar`. */
  predicate ListedByAllCapable(models: seq<ModelDefinition>, ids: seq<string>, ar: AspectRatio)
  {
    forall i :: 0 <= i < |ids| && AspectCapable(models, ids[i]) ==>
      ar in GetModel(models, ids[i]).value.capabilities.aspectRatios
  }

  /** The first aspect-capable selected id is at index `i0`. */
  predicate FirstCapableAt(models: seq<ModelDefinition>, ids: seq<string>, i0: int)
  {
    0 <= i0 < |ids| && AspectCapable(models, ids[i0]) &&
    forall j :: 0 <= j < i0 ==> !AspectCapable(models, ids[j])
  }

  /** The test `ar => capable.every(m => m.aspectRatios.includes(ar))`, stated over
      the selected ids. */
  function ListedByAllCapableTest(models: seq<ModelDefinition>, ids: seq<string>): AspectRatio -> bool
  {
    (ar: AspectRatio) => ListedByAllCapable(models, ids, ar)
  }

  /** The three outcomes of getCommonAspectRatios: every ratio for an empty selection,
      none without an aspect-capable model, and otherwise the ratios of the FIRST
      aspect-capable selected model that every aspect-capable selected model lists,
      in that model's order. */
  lemma CommonAspectRatiosCases(models: seq<ModelDefinition>, ids: seq<string>)
    ensures |ids| == 0 ==> CommonAspectRatios(models, ids) == AllAspectRatios
    ensures |ids| > 0 && !AnyModelSupportsAspectRatio(models, ids) ==> CommonAspectRatios(models, ids) == []
    ensures |ids| > 0 && AnyModelSupportsAspectRatio(models, ids) ==>
      exists i0 :: FirstCapableAt(models, ids, i0) &&
        CommonAspectRatios(models, ids) ==
          Filter(GetModel(models, ids[i0]).value.capabilities.aspectRatios, ListedByAllCapableTest(models, ids)) &&
        forall ar :: ar in CommonAspectRatios(models, ids) <==>
          ar in GetModel(models, ids[i0]).value.capabilities.aspectRatios && ListedByAllCapable(models, ids, ar)
  {
    if |ids| > 0 && AnyModelSupportsAspectRatio(models, ids) {
      var capable := CapableModels(models, ids);
      var i0 := CapableHead(models, ids);
      var first := capable[0];
      assert first == GetModel(models, ids[i0]).value;
      var test := ListedByAllCapableTest(models, ids);
      forall ar
        ensures InAll(ar, capable) <==> test(ar)
      {
        if ListedByAllCapable(models, ids, ar) {
          forall m | m in capable ensures ar in m.capabilities.aspectRatios {
            CapableModelsFromSelection(models, ids, m);
          }
        }
        if InAll(ar, capable) {
          forall i | 0 <= i < |ids| && AspectCapable(models, ids[i])
            ensures ar in GetModel(models, ids[i]).value.capabilities.aspectRatios
          {
            CapableModelsKeeps(models, ids, i);
          }
        }
      }
      KeepCommonIsFilter(first.capabilities.aspectRatios, capable, test);
      assert FirstCapableAt(models, ids, i0);
    }
  }

  /** Keeping the common ratios is filtering by any test that agrees with "every
      capable model lists it" on the list. */
  lemma {:induction false} KeepCommonIsFilter(ratios: seq<AspectRatio>, capable: seq<ModelDefinition>,
                                              test: AspectRatio -> bool)
    requires forall ar :: test(ar) <==> InAll(ar, capable)
    ensures KeepCommon(ratios, capable) == Filter(ratios, test)
  {
    if ratios != [] {
      KeepCommonIsFilter(ratios[1..], capable, test);
    }
  }

  /** Keeping the common ratios works piece by piece, so the kept ratios stay in the
      order of the list they come from. */
  lemma {:induction false} KeepCommonAppend(a: seq<AspectRatio>, b: seq<AspectRatio>, capable: seq<ModelDefinition>)
    ensures KeepCommon(a + b, capable) == KeepCommon(a, capable) + KeepCommon(b, capable)
  {
    if a == [] {
      assert a + b == b;
    } else {
      assert (a + b)[0] == a[0] && (a + b)[1..] == a[1..] + b;
      KeepCommonAppend(a[1..], b, capable);
    }
  }

  /** The head of the capable list is the model of the first aspect-capable id. */
  lemma {:induction false} CapableHead(models: seq<ModelDefinition>, ids: seq<string>) returns (i0: nat)
    requires AnyModelSupportsAspectRatio(models, ids)
    ensures FirstCapableAt(models, ids, i0)
    ensures CapableModels(models, ids)[0] == GetModel(models, ids[i0]).value
  {
    if AspectCapable(models, ids[0]) {
      i0 := 0;
    } else {
      var k := CapableHead(models, ids[1..]);
      i0 := k + 1;
      forall j | 0 <= j < i0 ensures !AspectCapable(models, ids[j]) {
        if j > 0 { assert ids[j] == ids[1..][j - 1]; }
      }
    }
  }

  /** The model of every aspect-capable selected id is kept. */
  lemma {:induction false} CapableModelsKeeps(models: seq<ModelDefinition>, ids: seq<string>, i: nat)
    requires i < |ids| && AspectCapable(models, ids[i])
    ensures GetModel(models, ids[i]).value in CapableModels(models, ids)
  {
    var head := if AspectCapable(models, ids[0]) then [GetModel(models, ids[0]).value] else [];
    var rest := CapableModels(models, ids[1..]);
    assert CapableModels(models, ids) == head + rest;
    if i > 0 {
      assert ids[i] == ids[1..][i - 1];
      CapableModelsKeeps(models, ids[1..], i - 1);
      assert GetModel(models, ids[i]).value in rest;
    }
  }

  /** Every model the filter keeps came from some aspect-capable selected id. */
  lemma {:induction false} CapableModelsFromSelection(models: seq<ModelDefinition>, ids: seq<string>, m: ModelDefinition)
    requires m in CapableModels(models, ids)
    ensures exists i :: 0 <= i < |ids| && AspectCapable(models, ids[i]) && GetModel(models, ids[i]).value == m
  {
    if !(AspectCapable(models, ids[0]) && GetModel(models, ids[0]).value == m) {
      CapableModelsFromSelection(models, ids[1..], m);
      var i :| 0 <= i < |ids[1..]| && AspectCapable(models, ids[1..][i]) && GetModel(models, ids[1..][i]).value == m;
      assert ids[1..][i] == ids[i + 1];
    }
  }

  /** `anyModelSupportsResolution(selectedModelIds)` */
  function AnyModelSupportsResolution(models: seq<ModelDefinition>, ids: seq<string>): (r: bool)
    ensures r <==> exists i :: 0 <= i < |ids| && GetModel(models, ids[i]).Some?
                                && GetModel(models, ids[i]).value.capabilities.supportsResolution
  {
    if ids == [] then false
    else
      var rest := AnyModelSupportsResolution(models, ids[1..]);
      assert forall i :: 1 <= i < |ids| ==> ids[i] == ids[1..][i - 1];
      assert rest ==> exists i :: 1 <= i < |ids| && GetModel(models, ids[i]).Some?
                                && GetModel(models, ids[i]).value.capabilities.supportsResolution by {
        if rest {
          var i :| 0 <= i < |ids[1..]| && GetModel(models, ids[1..][i]).Some?
                   && GetModel(models, ids[1..][i]).value.capabilities.supportsResolution;
          assert ids[1..][i] == ids[i + 1];
        }
      }
      var m := GetModel(models, ids[0]);
      (m.Some? && m.value.capabilities.supportsResolution) || rest
  }

  /** With the registry as declared, only Gemini 3.0 Pro lists aspect ratios, so a
      selection of Gemini 2.5 Flash alone offers none, and adding Gemini 3.0 Pro
      offers all six. */
  lemma RegistryCommonRatios()
    ensures CommonAspectRatios(Registry, ["gemini-2.5-flash-image"]) == []
    ensures CommonAspectRatios(Registry, ["gemini-2.5-flash-image", "gemini-3-pro-image-preview"]) == AllAspectRatios
  {
    assert GetModel(Registry, "gemini-2.5-flash-image") == Some(Registry[0]);
    assert GetModel(Registry, "gemini-3-pro-image-preview") == Some(Registry[1]);
    var ids := ["gemini-2.5-flash-image", "gemini-3-pro-image-preview"];
    assert CapableModels(Registry, ids[1..]) == [Registry[1]];
    assert CapableModels(Registry, ids) == [Registry[1]];
    KeepCommonOfShared(AllAspectRatios, [Registry[1]]);
  }

  /** Ratios that every capable model lists are all kept. */
  lemma {:induction false} KeepCommonOfShared(ratios: seq<AspectRatio>, capable: seq<ModelDefinition>)
    requires forall i :: 0 <= i < |ratios| ==> InAll(ratios[i], capable)
    ensures KeepCommon(ratios, capable) == ratios
  {
    if ratios != [] {
      KeepCommonOfShared(ratios[1..], capable);
    }
  }
}
