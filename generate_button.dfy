/** The decisions of the Generate button (app/components/sidebar/GenerateButton.tsx):
    which selections are active, how many images they ask for, whether a key is
    missing, whether generation may start, what a click does, the status line and
    the disabled rule. The model lookup is `getModel` over a model list (the
    registry, for the button as written). */
module GenerateButton {
  import opened Types
  import opened Strings
  import opened Seqs
  import opened Selections
  import opened Models

  /** `activeModels.reduce((sum, [, count]) => sum + count, 0)` */
  function TotalImages(sel: ModelSelections): int
  {
    TotalCount(ActiveEntries(sel))
  }

  /** A sum of positive counts is positive exactly when there is at least one. */
  lemma {:induction false} PositiveTotal(s: ModelSelections)
    requires forall i :: 0 <= i < |s| ==> s[i].count > 0
    ensures TotalCount(s) >= 0
    ensures TotalCount(s) > 0 <==> s != []
  {
    if s != [] {
      assert forall i :: 0 <= i < |s[1..]| ==> s[1..][i] == s[i + 1];
      PositiveTotal(s[1..]);
    }
  }

  /** The button asks for images exactly when some entry has a positive count, and
      then for as many as the counts add up to. */
  lemma TotalImagesLaws(sel: ModelSelections)
    ensures TotalImages(sel) >= 0
    ensures TotalImages(sel) > 0 <==> exists i :: 0 <= i < |sel| && sel[i].count > 0
    ensures NonNegative(sel) ==> TotalImages(sel) == TotalCount(sel)
  {
    var active := ActiveEntries(sel);
    PositiveTotal(active);
    if exists i :: 0 <= i < |sel| && sel[i].count > 0 {
      var i :| 0 <= i < |sel| && sel[i].count > 0;
      assert sel[i] in active;
    }
    if NonNegative(sel) {
      TotalOfActive(sel);
    }
  }

  /** An active model that the lookup knows and whose provider has no usable key. */
  predicate KeyMissing(models: seq<ModelDefinition>, keys: ApiKeys, modelId: string)
  {
    GetModel(models, modelId).Some? && !HasKey(keys, GetModel(models, modelId).value.apiKeyRequired)
  }

  /** `activeModels.some(([modelId]) => { const model = getModel(modelId); return model && !apiKeys[model.apiKeyRequired]; })` */
  function MissingKeys(models: seq<ModelDefinition>, sel: ModelSelections, keys: ApiKeys): bool
  {
    FindFirst(ActiveEntries(sel), (e: Entry) => KeyMissing(models, keys, e.modelId)).Some?
  }

  /** A key is missing exactly when some entry with a positive count names a known
      model whose provider has no key; an unknown id never counts. */
  lemma MissingKeysIff(models: seq<ModelDefinition>, sel: ModelSelections, keys: ApiKeys)
    ensures MissingKeys(models, sel, keys) <==>
      exists i :: 0 <= i < |sel| && sel[i].count > 0 && KeyMissing(models, keys, sel[i].modelId)
  {
    var active := ActiveEntries(sel);
    var p := (e: Entry) => KeyMissing(models, keys, e.modelId);
    assert MissingKeys(models, sel, keys) <==> exists k :: 0 <= k < |active| && p(active[k]);
    forall i | 0 <= i < |sel| && sel[i].count > 0 && KeyMissing(models, keys, sel[i].modelId)
      ensures exists k :: 0 <= k < |active| && p(active[k])
    {
      assert sel[i] in active;
      var k :| 0 <= k < |active| && active[k] == sel[i];
      assert p(active[k]);
    }
    forall k | 0 <= k < |active| && p(active[k])
      ensures exists i :: 0 <= i < |sel| && sel[i].count > 0 && KeyMissing(models, keys, sel[i].modelId)
    {
      assert active[k] in sel && active[k].count > 0;
      var i :| 0 <= i < |sel| && sel[i] == active[k];
      assert KeyMissing(models, keys, sel[i].modelId);
    }
  }

  /** `prompt.trim().length > 0 && totalImages > 0 && !missingKeys && !isGenerating` */
  predicate CanGenerate(models: seq<ModelDefinition>, prompt: string, sel: ModelSelections, keys: ApiKeys,
                        isGenerating: bool)
  {
    |Trim(prompt)| > 0 && TotalImages(sel) > 0 && !MissingKeys(models, sel, keys) && !isGenerating
  }

  /** Generation may start exactly when the prompt is not all white space, some
      model has a positive count, every such known model has its provider's key,
      and no generation is running. */
  lemma CanGenerateIff(models: seq<ModelDefinition>, prompt: string, sel: ModelSelections, keys: ApiKeys,
                       isGenerating: bool)
    ensures CanGenerate(models, prompt, sel, keys, isGenerating) <==>
      !IsBlank(prompt) &&
      (exists i :: 0 <= i < |sel| && sel[i].count > 0) &&
      (forall i :: 0 <= i < |sel| && sel[i].count > 0 ==> !KeyMissing(models, keys, sel[i].modelId)) &&
      !isGenerating
  {
    TrimEmptyIffBlank(prompt);
    TotalImagesLaws(sel);
    MissingKeysIff(models, sel, keys);
  }

  /** `disabled={!canGenerate && !missingKeys}` */
  predicate Disabled(models: seq<ModelDefinition>, prompt: string, sel: ModelSelections, keys: ApiKeys,
                     isGenerating: bool)
  {
    !CanGenerate(models, prompt, sel, keys, isGenerating) && !MissingKeys(models, sel, keys)
  }

  /** What `handleGenerate` does. */
  datatype Click = OpenSettings | StartGeneration | NoAction

  /** A click with a key missing opens the settings and does not generate; otherwise
      it generates only when generation may start. The button is enabled exactly
      when a click does something. */
  function HandleGenerate(models: seq<ModelDefinition>, prompt: string, sel: ModelSelections, keys: ApiKeys,
                          isGenerating: bool): (c: Click)
    ensures c == OpenSettings <==> MissingKeys(models, sel, keys)
    ensures c == StartGeneration <==> CanGenerate(models, prompt, sel, keys, isGenerating) && !MissingKeys(models, sel, keys)
    ensures c != NoAction <==> !Disabled(models, prompt, sel, keys, isGenerating)
  {
    if MissingKeys(models, sel, keys) then OpenSettings
    else if CanGenerate(models, prompt, sel, keys, isGenerating) then StartGeneration
    else NoAction
  }

  /** With a key missing, a click opens the settings, whatever the prompt and even
      while a generation runs; it never starts one. */
  lemma MissingKeyOpensSettings(models: seq<ModelDefinition>, prompt: string, sel: ModelSelections, keys: ApiKeys,
                                isGenerating: bool, i: nat)
    requires i < |sel| && sel[i].count > 0 && KeyMissing(models, keys, sel[i].modelId)
    ensures HandleGenerate(models, prompt, sel, keys, isGenerating) == OpenSettings
    ensures !Disabled(models, prompt, sel, keys, isGenerating)
  {
    MissingKeysIff(models, sel, keys);
  }

  /** `${modelCount} model${modelCount !== 1 ? "s" : ""} · ${aspectRatio}` */
  function CountLine(n: nat, text: string): string
  {
    NatToString(n) + " model" + (if n != 1 then "s" else "") + " · " + text
  }

  /** The line starts with the count in decimal and says "model" in the singular
      exactly when the count is one. */
  lemma CountLineReadsBack(n: nat, text: string)
    ensures var d := NatToString(n);
      var t := CountLine(n, text);
      |d| < |t| && DigitsValue(t[..|d|]) == n && (t[|d|..] == " model · " + text <==> n == 1)
  {
    var d := NatToString(n);
    var one := " model · " + text;
    var many := " models · " + text;
    var tail := if n != 1 then many else one;
    var t := CountLine(n, text);
    assert t == d + tail;
    assert t[..|d|] == d && t[|d|..] == tail;
    NatToStringRoundTrip(n);
    assert many[6] == 's' && one[6] == ' ';
  }

  /** The status line below the button: when images are asked for, the count line of
      the number of active models (not of images) and the ratio; otherwise empty. */
  function StatusText(sel: ModelSelections, ar: AspectRatio): (r: string)
    ensures r == "" <==> TotalImages(sel) <= 0
    ensures TotalImages(sel) > 0 ==> r == CountLine(|ActiveEntries(sel)|, RatioLabel(ar))
  {
    if TotalImages(sel) > 0 then CountLine(|ActiveEntries(sel)|, RatioLabel(ar)) else ""
  }

  /** With the registry as declared, selecting Gemini 3.0 Pro Image without a Google
      key makes a click open the settings. */
  lemma RegistryWithoutGoogleKey(prompt: string, isGenerating: bool)
    ensures HandleGenerate(Registry, prompt, [Entry("gemini-3-pro-image-preview", 2)], ApiKeys(None, None, None), isGenerating) == OpenSettings
  {
    assert GetModel(Registry, "gemini-3-pro-image-preview") == Some(Registry[1]);
    MissingKeyOpensSettings(Registry, prompt, [Entry("gemini-3-pro-image-preview", 2)], ApiKeys(None, None, None), isGenerating, 0);
  }
}
