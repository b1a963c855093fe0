/** Value types shared by every component: providers, aspect ratios,
    resolutions, the per-provider API keys and opaque binary blobs. */
module Types {

  datatype Option<T> = None | Some(value: T)

  /** A thrown JavaScript value: an `Error` with its message and the optional
      numeric `status` / `code` fields SDK errors carry, or any non-Error value. */
  datatype Thrown = ErrorValue(message: string, status: Option<int>, code: Option<int>) | NonError

  /** `new Error(message)` */
  function SimpleError(message: string): Thrown
  {
    ErrorValue(message, None, None)
  }

  /** `error instanceof Error ? error.message : fallback` */
  function MessageOr(e: Thrown, fallback: string): string
  {
    if e.ErrorValue? then e.message else fallback
  }

  /** A settled promise: its value, or what it rejected with. */
  datatype Result<T> = Ok(value: T) | Err(error: Thrown)

  /** The providers named in app/types/index.ts. */
  datatype Provider = Google | OpenAI | Replicate

  /** The six aspect ratios, in the order of ASPECT_RATIOS in app/lib/models.ts. */
  datatype AspectRatio = Square | Wide16x9 | Tall9x16 | Classic4x3 | Portrait3x4 | Ultrawide21x9

  datatype Resolution = Res1K | Res2K | Res4K

  /** Binary image data. The payload stands for the bytes; decoding is not modelled. */
  datatype Blob = Blob(payload: string, mimeType: string)

  /** The `metadata` of a generated image: Google records the model version it
      reported (possibly none), Replicate records nothing. */
  datatype Metadata = Metadata(modelVersion: Option<string>)

  /** The `ApiKeys` record: a key per provider, `None` for null or absent. */
  datatype ApiKeys = ApiKeys(google: Option<string>, openai: Option<string>, replicate: Option<string>)

  /** `apiKeys[provider]` */
  function KeyFor(keys: ApiKeys, p: Provider): Option<string>
  {
    match p
    case Google => keys.google
    case OpenAI => keys.openai
    case Replicate => keys.replicate
  }

  /** `{ ...apiKeys, [provider]: key }` */
  function WithKey(keys: ApiKeys, p: Provider, key: Option<string>): (r: ApiKeys)
    ensures KeyFor(r, p) == key
    ensures forall q :: q != p ==> KeyFor(r, q) == KeyFor(keys, q)
  {
    match p
    case Google => keys.(google := key)
    case OpenAI => keys.(openai := key)
    case Replicate => keys.(replicate := key)
  }

  /** JavaScript truthiness of `apiKeys[provider]`: present and not the empty string. */
  predicate HasKey(keys: ApiKeys, p: Provider)
  {
    KeyFor(keys, p).Some? && KeyFor(keys, p).value != ""
  }

  /** The string form of a provider, as interpolated into error messages. */
  function ProviderName(p: Provider): string
  {
    match p
    case Google => "google"
    case OpenAI => "openai"
    case Replicate => "replicate"
  }

  /** The string form of an aspect ratio, as shown in the UI and sent to providers. */
  function RatioLabel(ar: AspectRatio): string
  {
    match ar
    case Square => "1:1"
    case Wide16x9 => "16:9"
    case Tall9x16 => "9:16"
    case Classic4x3 => "4:3"
    case Portrait3x4 => "3:4"
    case Ultrawide21x9 => "21:9"
  }

  /** ASPECT_RATIOS in app/lib/models.ts, by value. */
  const AllAspectRatios: seq<AspectRatio> :=
    [Square, Wide16x9, Tall9x16, Classic4x3, Portrait3x4, Ultrawide21x9]

  /** RESOLUTIONS in app/lib/models.ts. */
  const AllResolutions: seq<Resolution> := [Res1K, Res2K, Res4K]

  /** Capability flags of a stored model (settingsStore.ts and replicateSchema.ts). */
  datatype Capabilities = Capabilities(
    supportsAspectRatios: bool,
    supportsResolution: bool,
    supportsReferenceImages: bool,
    maxReferenceImages: int)
}
