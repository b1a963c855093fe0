/** The form that adds a custom Replicate model
    (app/components/settings/AddCustomModelButton.tsx): its four pieces of state
    and the validation and state changes of `handleAdd`. The settled
    `fetchModelInfo` call is an oracle reply. */
module AddCustomModel {
  import opened Types
  import opened Strings
  import opened Settings
  import opened ReplicateSchema

  const FormatMessage: string := "Format: owner/model-name"
  const DuplicateMessage: string := "Model already added"
  const FetchFallbackMessage: string := "Failed to fetch model"

  /** How one `handleAdd` call ends. */
  datatype AddResult =
    | Ignored                     // the input is white space only
    | Rejected(message: string)   // the input fails a check before any fetch
    | Added(info: ModelInfo)      // the model was fetched and added
    | FetchFailed(message: string)

  /** The checks of `handleAdd` in their order, then the settled fetch. The
      duplicate test uses the input as typed, without trimming. */
  function Decide(input: string, models: seq<StoredModel>, reply: FetchOutcome): AddResult
  {
    if Trim(input) == "" then Ignored
    else if !Contains(input, "/") then Rejected(FormatMessage)
    else if FindModel(models, "replicate/" + input).Some? then Rejected(DuplicateMessage)
    else
      match FetchModelInfo(input, reply)
      case Ok(info) => Added(info)
      case Err(e) => FetchFailed(MessageOr(e, FetchFallbackMessage))
  }

  /** Only white-space input is ignored; input without a slash is refused with the
      format hint; a full id already in the list is refused as a duplicate. */
  lemma DecideChecks(input: string, models: seq<StoredModel>, reply: FetchOutcome)
    ensures Decide(input, models, reply) == Ignored <==> IsBlank(input)
    ensures !IsBlank(input) && !Contains(input, "/") ==> Decide(input, models, reply) == Rejected(FormatMessage)
    ensures !IsBlank(input) && Contains(input, "/") && (exists i :: 0 <= i < |models| && models[i].id == "replicate/" + input) ==>
      Decide(input, models, reply) == Rejected(DuplicateMessage)
  {
    TrimEmptyIffBlank(input);
  }

  /** A model is added only for non-blank input with a slash, under a full id not
      yet present, when the lookup responded ok; what is added is the fetched name
      and the capabilities parsed from the schema. */
  lemma AddedOnlyWhenValid(input: string, models: seq<StoredModel>, reply: FetchOutcome)
    requires Decide(input, models, reply).Added?
    ensures !IsBlank(input) && Contains(input, "/")
    ensures forall i :: 0 <= i < |models| ==> models[i].id != "replicate/" + input
    ensures reply.Responded? && reply.ok
    ensures Decide(input, models, reply).info == FetchModelInfo(input, reply).value
    ensures Decide(input, models, reply).info.capabilities == ParseCapabilities(SchemaOf(reply.body))
  {
    TrimEmptyIffBlank(input);
  }

  /** A failed fetch reports the error's message, the not-found message for a
      response that is not ok, or the fallback for a thrown non-Error. */
  lemma FetchFailureMessages(input: string, models: seq<StoredModel>, reply: FetchOutcome)
    requires !IsBlank(input) && Contains(input, "/") && FindModel(models, "replicate/" + input).None?
    ensures reply.Responded? && !reply.ok ==> Decide(input, models, reply) == FetchFailed("Model not found: " + input)
    ensures reply.FetchRejected? && reply.error.NonError? ==> Decide(input, models, reply) == FetchFailed(FetchFallbackMessage)
    ensures reply.FetchRejected? && reply.error.ErrorValue? ==> Decide(input, models, reply) == FetchFailed(reply.error.message)
  {
    TrimEmptyIffBlank(input);
  }

  /** After an add, a lookup of the full id finds the new entry, so a second add
      of the same input is refused as a duplicate. */
  lemma AddThenDuplicate(input: string, models: seq<StoredModel>, reply: FetchOutcome, again: FetchOutcome)
    requires Decide(input, models, reply).Added?
    ensures var info := Decide(input, models, reply).info;
      var added := models + [CustomEntry(input, info.name, info.capabilities)];
      FindModel(added, "replicate/" + input) == Some(|models|) &&
      Decide(input, added, again) == Rejected(DuplicateMessage)
  {
    var info := Decide(input, models, reply).info;
    var added := models + [CustomEntry(input, info.name, info.capabilities)];
    assert Trim(input) != "" && Contains(input, "/");
    AddedModelLookup(models, input, info.name, info.capabilities);
    assert FindModel(added, "replicate/" + input).Some?;
  }

  /** The component's state, with the settings store it adds to. */
  class AddForm {
    var isAdding: bool
    var modelId: string
    var loading: bool
    var error: Option<string>
    const settings: SettingsStore

    constructor (settings: SettingsStore)
      ensures !isAdding && modelId == "" && !loading && error.None? && this.settings == settings
    {
      isAdding := false;
      modelId := "";
      loading := false;
      error := None;
      this.settings := settings;
    }

    /** The "Add custom Replicate model" button: `setIsAdding(true)`. */
    method Open()
      modifies this
      ensures isAdding && modelId == old(modelId) && loading == old(loading) && error == old(error)
    {
      isAdding := true;
    }

    /** Typing in the input: the text is replaced and the error cleared. */
    method Edit(text: string)
      modifies this
      ensures modelId == text && error.None?
      ensures isAdding == old(isAdding) && loading == old(loading)
    {
      modelId := text;
      error := None;
    }

    /** The Cancel button: leaves adding mode with an empty input and no error. */
    method Cancel()
      modifies this
      ensures !isAdding && modelId == "" && error.None? && loading == old(loading)
    {
      isAdding := false;
      modelId := "";
      error := None;
    }

    /** `handleAdd`, with the settled `fetchModelInfo` call as `reply`. */
    method HandleAdd(reply: FetchOutcome) returns (result: AddResult)
      modifies this, settings
      ensures result == Decide(old(modelId), old(settings.models), reply)
      ensures settings.apiKeys == old(settings.apiKeys) && settings.settingsModalOpen == old(settings.settingsModalOpen)
      ensures result.Added? ==>
        settings.models == old(settings.models) + [CustomEntry(old(modelId), result.info.name, result.info.capabilities)] &&
        modelId == "" && !isAdding && error.None? && !loading
      ensures !result.Added? ==> settings.models == old(settings.models)
      ensures result.Ignored? ==>
        modelId == old(modelId) && isAdding == old(isAdding) && loading == old(loading) && error == old(error)
      ensures result.Rejected? ==>
        error == Some(result.message) && modelId == old(modelId) && isAdding == old(isAdding) && loading == old(loading)
      ensures result.FetchFailed? ==>
        error == Some(result.message) && modelId == old(modelId) && isAdding == old(isAdding) && !loading
    {
      if Trim(modelId) == "" {
        return Ignored;
      }
      if !Contains(modelId, "/") {
        error := Some(FormatMessage);
        return Rejected(FormatMessage);
      }
      var fullId := "replicate/" + modelId;
      if FindModel(settings.models, fullId).Some? {
        error := Some(DuplicateMessage);
        return Rejected(DuplicateMessage);
      }
      loading := true;
      error := None;
      var fetched := FetchModelInfo(modelId, reply);
      if fetched.Ok? {
        settings.AddCustomModel(modelId, fetched.value.name, fetched.value.capabilities);
        modelId := "";
        isAdding := false;
        result := Added(fetched.value);
      } else {
        var message := MessageOr(fetched.error, FetchFallbackMessage);
        error := Some(message);
        result := FetchFailed(message);
      }
      loading := false;
    }
  }
}
