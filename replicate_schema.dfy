/** Capability inference from a Replicate model's OpenAPI input schema, and the
    model-info lookup around it (app/lib/replicateSchema.ts). */
module ReplicateSchema {
  import opened Types
  import opened Strings

  /** One property of the input schema; only its `type` is consulted. */
  datatype SchemaProperty = SchemaProperty(propType: Option<string>)

  type Properties = map<string, SchemaProperty>

  /** The parts of the `GET /v1/models/<id>` body that are read: `name`, and
      `latest_version.openapi_schema.components.schemas.Input.properties`
      (`None` when any link of that path is missing). */
  datatype ModelResponse = ModelResponse(name: Option<string>, inputProperties: Option<Properties>)

  /** What the relay fetch produced: a rejection, or a response with its `ok` flag. */
  datatype FetchOutcome = FetchRejected(error: Thrown) | Responded(ok: bool, body: ModelResponse)

  datatype ModelInfo = ModelInfo(name: string, capabilities: Capabilities)

  const AspectRatioProps: seq<string> := ["aspect_ratio", "aspectRatio", "output_aspect_ratio"]
  const ResolutionProps: seq<string> := ["resolution", "megapixels", "output_resolution"]
  const ImageProps: seq<string> :=
    ["image", "image_input", "input_image", "reference_image", "init_image", "control_image"]

  /** `names.find(n => properties[n])`: the first listed name present in the schema. */
  function FirstPresent(props: Properties, names: seq<string>): (r: Option<nat>)
    ensures r.Some? ==> r.value < |names| && names[r.value] in props
    ensures forall j :: 0 <= j < |names| && (r.None? || j < r.value) ==> names[j] !in props
  {
    if names == [] then None
    else if names[0] in props then Some(0)
    else
      var rest := FirstPresent(props, names[1..]);
      assert forall j :: 1 <= j < |names| ==> names[j] == names[1..][j - 1];
      if rest.Some? then Some(rest.value + 1) else None
  }

  /** `parseCapabilities(properties)` */
  function ParseCapabilities(props: Properties): (c: Capabilities)
    ensures c.supportsAspectRatios <==>
      "aspect_ratio" in props || "aspectRatio" in props || "output_aspect_ratio" in props
    ensures c.supportsResolution <==>
      "resolution" in props || "megapixels" in props || "output_resolution" in props
    ensures c.supportsReferenceImages <==> exists k :: 0 <= k < |ImageProps| && ImageProps[k] in props
    ensures c.maxReferenceImages == 10 <==>
      exists k :: 0 <= k < |ImageProps| && ImageProps[k] in props && props[ImageProps[k]].propType == Some("array")
                  && forall j :: 0 <= j < k ==> ImageProps[j] !in props
    ensures c.maxReferenceImages == 1 || c.maxReferenceImages == 10
  {
    var supportsAspectRatios := AspectRatioProps[0] in props || AspectRatioProps[1] in props || AspectRatioProps[2] in props;
    var supportsResolution := ResolutionProps[0] in props || ResolutionProps[1] in props || ResolutionProps[2] in props;
    var imageProperty := FirstPresent(props, ImageProps);
    var maxReferenceImages :=
      if imageProperty.Some? && props[ImageProps[imageProperty.value]].propType == Some("array") then 10 else 1;
    Capabilities(supportsAspectRatios, supportsResolution, imageProperty.Some?, maxReferenceImages)
  }

  /** `data.name || modelId.split('/').pop() || modelId` */
  function DisplayName(responseName: Option<string>, modelId: string): (r: string)
    ensures responseName.Some? && responseName.value != "" ==> r == responseName.value
    ensures (responseName.None? || responseName.value == "") && modelId != "" ==> r != ""
    ensures (responseName.None? || responseName.value == "") ==>
      |r| <= |modelId| && r == modelId[|modelId| - |r|..] &&
      (r != modelId ==> r != "" && '/' !in r && modelId[|modelId| - |r| - 1] == '/')
    ensures (responseName.None? || responseName.value == "") && modelId != "" && modelId[|modelId| - 1] != '/' ==>
      '/' !in r
  {
    if responseName.Some? && responseName.value != "" then responseName.value
    else
      var last := LastSegment(modelId, '/');
      if last != "" then last else modelId
  }

  /** The schema properties of a response, `{}` when the path is missing. */
  function SchemaOf(body: ModelResponse): Properties
  {
    if body.inputProperties.Some? then body.inputProperties.value else map[]
  }

  /** `fetchModelInfo(modelId, apiKey)` after the fetch has settled. */
  function FetchModelInfo(modelId: string, reply: FetchOutcome): (r: Result<ModelInfo>)
    ensures reply.FetchRejected? ==> r == Err(reply.error)
    ensures reply.Responded? && !reply.ok ==> r == Err(SimpleError("Model not found: " + modelId))
    ensures reply.Responded? && reply.ok ==>
      (r.Ok? && r.value.name == DisplayName(reply.body.name, modelId) &&
       r.value.capabilities == ParseCapabilities(SchemaOf(reply.body)))
  {
    match reply
    case FetchRejected(e) => Err(e)
    case Responded(ok, body) =>
      if !ok then Err(SimpleError("Model not found: " + modelId))
      else
        Ok(ModelInfo(DisplayName(body.name, modelId), ParseCapabilities(SchemaOf(body))))
  }

  /** A schema without an input-properties path supports nothing and allows one image. */
  lemma MissingSchemaSupportsNothing(modelId: string, name: Option<string>)
    ensures var r := FetchModelInfo(modelId, Responded(true, ModelResponse(name, None)));
      r.Ok? && r.value.capabilities == Capabilities(false, false, false, 1)
  {
    var empty: Properties := map[];
    assert !(exists k :: 0 <= k < |ImageProps| && ImageProps[k] in empty);
  }

  /** The first image property in list order decides the maximum: a scalar `image`
      next to an array `image_input` gives 1. */
  lemma FirstImagePropertyDecides()
    ensures ParseCapabilities(map["image" := SchemaProperty(Some("string")),
                                  "image_input" := SchemaProperty(Some("array"))]).maxReferenceImages == 1
    ensures ParseCapabilities(map["image_input" := SchemaProperty(Some("array"))]).maxReferenceImages == 10
  {
    var p1 := map["image" := SchemaProperty(Some("string")), "image_input" := SchemaProperty(Some("array"))];
    assert FirstPresent(p1, ImageProps) == Some(0);
    var p2 := map["image_input" := SchemaProperty(Some("array"))];
    assert ImageProps[0] !in p2;
    assert FirstPresent(p2, ImageProps) == Some(1);
  }

  /** The display name falls back to the last path segment of the id, and to the
      whole id when that segment is empty. */
  lemma DisplayNameFallback()
    ensures DisplayName(None, "o/m") == "m"
    ensures DisplayName(Some(""), "owner/") == "owner/"
    ensures DisplayName(Some("M"), "o/m") == "M"
  {
    assert "o/m"[..2] == "o/";
    assert LastSegment("o/", '/') == "";
    assert LastSegment("o/m", '/') == "m";
    assert LastSegment("owner/", '/') == "";
  }
}
