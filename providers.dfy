/** One provider call of the generation hook (app/hooks/useImageGeneration.ts):
    the dispatch of `executeGeneration`, the Google and Replicate adapters with
    their rate-limit classifiers, the Google chunk scan and the dimension probe.
    The SDK calls, the image download and `JSON.parse` are oracles. */
module Providers {
  import opened Types
  import opened Strings
  import Seqs

  /** A `GenerationTask`; the reference images are their blobs. */
  datatype GenerationTask = GenerationTask(
    id: string,
    modelId: string,
    modelName: string,
    provider: Provider,
    prompt: string,
    aspectRatio: AspectRatio,
    resolution: Option<Resolution>,
    referenceImages: seq<Blob>)

  /** What a successful generation resolves with. */
  datatype ImageResult = ImageResult(blob: Blob, width: int, height: int, metadata: Metadata)

  /** How one call of `executeGeneration` settles: resolved, rejected with a
      `RateLimitError`, or rejected with any other value. */
  datatype Outcome =
    | Success(result: ImageResult)
    | RateLimited(message: string, retryAfter: int)
    | Failure(error: Thrown)

  /** The retry-after, in seconds, used when none can be read from the error. */
  const DefaultRetryAfter: nat := 10

  /** What loading the blob into an `Image` gives. */
  datatype Probe = Loaded(width: int, height: int) | LoadFailed

  /** `getImageDimensions`: the image's size, or 1024 by 1024 when it fails to load. */
  function Dimensions(p: Probe): (r: (int, int))
    ensures p.Loaded? ==> r == (p.width, p.height)
    ensures p.LoadFailed? ==> r == (1024, 1024)
  {
    match p
    case Loaded(w, h) => (w, h)
    case LoadFailed => (1024, 1024)
  }

  /** `new RateLimitError(`Rate limited by ${task.provider}`, …)` */
  function RateLimitMessage(p: Provider): string
  {
    "Rate limited by " + ProviderName(p)
  }

  // ---------------------------------------------------------------------------
  // The regular expression /retry.?after[:\s]*(\d+)/i

  /** `w` (lower-case ASCII) occurs at `i`, compared case-insensitively. */
  predicate WordAt(s: string, w: string, i: nat)
  {
    i + |w| <= |s| && forall k :: 0 <= k < |w| ==> LowerChar(s[i + k]) == w[k]
  }

  /** The characters `.` does not match. */
  predicate IsLineTerminator(c: char)
  {
    c == '\n' || c == '\r' || c == '\U{2028}' || c == '\U{2029}'
  }

  predicate IsSeparator(c: char)
  {
    c == ':' || IsWhitespace(c)
  }

  /** The end of the longest run of `[:\s]` starting at `i`. */
  function SkipSeparators(s: string, i: nat): (j: nat)
    requires i <= |s|
    ensures i <= j <= |s|
    ensures forall k :: i <= k < j ==> IsSeparator(s[k])
    ensures j == |s| || !IsSeparator(s[j])
    decreases |s| - i
  {
    if i < |s| && IsSeparator(s[i]) then SkipSeparators(s, i + 1) else i
  }

  /** The end of the longest run of digits starting at `i`. */
  function DigitRunEnd(s: string, i: nat): (j: nat)
    requires i <= |s|
    ensures i <= j <= |s|
    ensures forall k :: i <= k < j ==> IsDigit(s[k])
    ensures j == |s| || !IsDigit(s[j])
    decreases |s| - i
  {
    if i < |s| && IsDigit(s[i]) then DigitRunEnd(s, i + 1) else i
  }

  /** `[:\s]*(\d+)` from `i`: the value of the captured digits. Backtracking into
      the separators cannot help, since a separator is not a digit. */
  function TailAt(s: string, i: nat): (r: Option<nat>)
    requires i <= |s|
    ensures r.Some? <==> SkipSeparators(s, i) < |s| && IsDigit(s[SkipSeparators(s, i)])
  {
    var j := SkipSeparators(s, i);
    var e := DigitRunEnd(s, j);
    if e > j then Some(DigitsValue(s[j..e])) else None
  }

  /** The whole pattern anchored at `i`: `.?` first tries one character, then none. */
  function MatchAt(s: string, i: nat): (r: Option<nat>)
    ensures r.Some? ==> WordAt(s, "retry", i)
  {
    if !WordAt(s, "retry", i) then None
    else
      var one := if i + 5 < |s| && !IsLineTerminator(s[i + 5]) && WordAt(s, "after", i + 6)
                 then TailAt(s, i + 11) else None;
      if one.Some? then one
      else if WordAt(s, "after", i + 5) then TailAt(s, i + 10)
      else None
  }

  /** The leftmost match, as `String.prototype.match` finds it. */
  function FirstRetryAfter(s: string): Option<nat>
  {
    Seqs.FirstSome(k => MatchAt(s, k), 0, |s|)
  }

  /** Nothing is found exactly when the pattern matches at no position. */
  lemma FirstRetryAfterNone(s: string)
    ensures FirstRetryAfter(s).None? <==> forall k :: 0 <= k <= |s| ==> MatchAt(s, k).None?
  {
    var f := k => MatchAt(s, k);
    Seqs.FirstSomeNone(f, 0, |s|);
    assert forall k :: f(k) == MatchAt(s, k);
  }

  /** The match found is the one at the leftmost position where the pattern matches. */
  lemma FirstRetryAfterLeftmost(s: string, k: nat)
    requires k <= |s| && MatchAt(s, k).Some? && forall j :: 0 <= j < k ==> MatchAt(s, j).None?
    ensures FirstRetryAfter(s) == MatchAt(s, k)
  {
    Seqs.FirstSomeLeftmost(k => MatchAt(s, k), 0, |s|, k);
  }

  /** The retry-after the Google adapter reads from a message: the captured digits,
      or 10 when the pattern does not match. */
  function GoogleRetryAfter(message: string): (n: nat)
    ensures FirstRetryAfter(message).None? ==> n == DefaultRetryAfter
    ensures FirstRetryAfter(message).Some? ==> n == FirstRetryAfter(message).value
  {
    match FirstRetryAfter(message)
    case None => DefaultRetryAfter
    case Some(n) => n
  }

  /** The digits after `Retry-After:` are read, whatever the case of the words. */
  lemma RetryAfterHeader()
    ensures GoogleRetryAfter("Retry-After: 30") == 30
  {
    HeaderMatch();
    FirstRetryAfterLeftmost("Retry-After: 30", 0);
  }

  lemma HeaderMatch()
    ensures MatchAt("Retry-After: 30", 0) == Some(30)
  {
    var a := "Retry-After: 30";
    assert WordAt(a, "retry", 0) by {
      forall k | 0 <= k < 5 ensures LowerChar(a[k]) == "retry"[k] {
        if k == 0 {} else if k == 1 {} else if k == 2 {} else if k == 3 {} else {}
      }
    }
    assert WordAt(a, "after", 6) by {
      forall k | 0 <= k < 5 ensures LowerChar(a[6 + k]) == "after"[k] {
        if k == 0 {} else if k == 1 {} else if k == 2 {} else if k == 3 {} else {}
      }
    }
    assert SkipSeparators(a, 11) == 13;
    assert DigitRunEnd(a, 13) == 15;
    assert a[13..15] == "30";
    assert DigitsValue("3") == 3;
  }

  /** With nothing between the two words, `.?` matches the empty string. */
  lemma RetryAfterJoined()
    ensures GoogleRetryAfter("retryafter 7") == 7
  {
    JoinedMatch();
    FirstRetryAfterLeftmost("retryafter 7", 0);
  }

  lemma JoinedMatch()
    ensures MatchAt("retryafter 7", 0) == Some(7)
  {
    var b := "retryafter 7";
    assert WordAt(b, "retry", 0) by {
      forall k | 0 <= k < 5 ensures LowerChar(b[k]) == "retry"[k] {
        if k == 0 {} else if k == 1 {} else if k == 2 {} else if k == 3 {} else {}
      }
    }
    assert !WordAt(b, "after", 6) by {
      assert b[6 + 0] == 'f' && "after"[0] == 'a';
      assert LowerChar(b[6 + 0]) != "after"[0];
    }
    assert WordAt(b, "after", 5) by {
      forall k | 0 <= k < 5 ensures LowerChar(b[5 + k]) == "after"[k] {
        if k == 0 {} else if k == 1 {} else if k == 2 {} else if k == 3 {} else {}
      }
    }
    assert SkipSeparators(b, 10) == 11;
    assert DigitRunEnd(b, 11) == 12;
    assert b[11..12] == "7";
  }

  /** A message without the word "retry" falls back to 10 seconds. */
  lemma RetryAfterDefault()
    ensures GoogleRetryAfter("quota 429") == DefaultRetryAfter
  {
    var c := "quota 429";
    forall k | 0 <= k <= |c| ensures MatchAt(c, k).None? {
      if k + 5 <= |c| {
        assert LowerChar(c[k]) != 'r' by {
          if k == 0 {} else if k == 1 {} else if k == 2 {} else if k == 3 {} else {}
        }
      }
    }
    FirstRetryAfterNone(c);
  }

  // ---------------------------------------------------------------------------
  // Google

  /** The Google adapter's test for a rate-limit rejection: an `Error` with status
      or code 429, or a message containing "429" or, lower-cased, "rate limit". */
  predicate GoogleRateLimited(e: Thrown)
  {
    e.ErrorValue? &&
    (e.status == Some(429) || e.code == Some(429) || Contains(e.message, "429") ||
     Contains(ToLower(e.message), "rate limit"))
  }

  /** The catch block around `generateContentStream`. */
  function ClassifyGoogle(e: Thrown, p: Provider): (o: Outcome)
    ensures o.RateLimited? <==> GoogleRateLimited(e)
    ensures o.RateLimited? ==> o.message == RateLimitMessage(p) && o.retryAfter == GoogleRetryAfter(e.message)
    ensures o.Failure? ==> o.error == e
    ensures !o.Success?
  {
    if GoogleRateLimited(e) then RateLimited(RateLimitMessage(p), GoogleRetryAfter(e.message)) else Failure(e)
  }

  /** A value other than an `Error` is never taken for a rate limit, and neither
      is an `Error` whose status, code and message say nothing of one. */
  lemma GoogleNonErrorRethrown(p: Provider)
    ensures ClassifyGoogle(NonError, p) == Failure(NonError)
    ensures ClassifyGoogle(SimpleError("boom"), p) == Failure(SimpleError("boom"))
  {
    NotContainsHead("boom", "429");
    assert ToLower("boom") == "boom";
    NotContainsHead("boom", "rate limit");
  }

  /** A 429 status alone is a rate limit, retried after the default 10 seconds
      when the message gives no figure. */
  lemma GoogleStatus429(p: Provider)
    ensures ClassifyGoogle(ErrorValue("", Some(429), None), p) == RateLimited(RateLimitMessage(p), DefaultRetryAfter)
  {
    assert MatchAt("", 0).None?;
    FirstRetryAfterNone("");
  }

  /** The `inlineData` of a response part. */
  datatype InlineData = InlineData(data: Option<string>, mimeType: Option<string>)

  datatype ContentPart = ContentPart(inlineData: Option<InlineData>)

  /** One streamed chunk: `candidates[0].content.parts` (absent or a list) and `modelVersion`. */
  datatype Chunk = Chunk(parts: Option<seq<ContentPart>>, modelVersion: Option<string>)

  /** The image a chunk carries: its first part's inline data, when both the data
      and the MIME type are non-empty. A chunk without parts is skipped. */
  function ChunkImage(c: Chunk): (r: Option<Blob>)
    ensures r.Some? ==> c.parts.Some? && c.parts.value != [] && r.value.payload != "" && r.value.mimeType != ""
    ensures c.parts.Some? && c.parts.value != [] && c.parts.value[0].inlineData.Some? ==>
      var d := c.parts.value[0].inlineData.value;
      (r.Some? <==> d.data.Some? && d.data.value != "" && d.mimeType.Some? && d.mimeType.value != "") &&
      (r.Some? ==> r.value == Blob(d.data.value, d.mimeType.value))
    ensures c.parts.Some? && c.parts.value != [] && c.parts.value[0].inlineData.None? ==> r.None?
  {
    if c.parts.None? || c.parts.value == [] then None
    else
      match c.parts.value[0].inlineData
      case None => None
      case Some(d) =>
        if d.data.Some? && d.data.value != "" && d.mimeType.Some? && d.mimeType.value != ""
        then Some(Blob(d.data.value, d.mimeType.value)) else None
  }

  /** The model version a chunk reports; a chunk without parts is skipped. */
  function ChunkVersion(c: Chunk): (r: Option<string>)
    ensures r.Some? ==> c.parts.Some? && r == c.modelVersion && r.value != ""
    ensures c.parts.Some? && c.modelVersion.Some? && c.modelVersion.value != "" ==> r == c.modelVersion
  {
    if c.parts.Some? && c.modelVersion.Some? && c.modelVersion.value != "" then c.modelVersion else None
  }

  /** The value of the last element for which `f` gives one: what a loop that
      overwrites a variable whenever `f` gives a value ends with. */
  function LastSome<T, U>(s: seq<T>, f: T -> Option<U>): Option<U>
  {
    if s == [] then None
    else if f(s[|s| - 1]).Some? then f(s[|s| - 1])
    else LastSome(s[..|s| - 1], f)
  }

  /** Nothing is kept exactly when `f` gives no element a value. */
  lemma {:induction false} LastSomeNone<T, U>(s: seq<T>, f: T -> Option<U>)
    ensures LastSome(s, f).None? <==> forall k :: 0 <= k < |s| ==> f(s[k]).None?
  {
    if s != [] && f(s[|s| - 1]).None? {
      var n := |s| - 1;
      LastSomeNone(s[..n], f);
      assert forall k :: 0 <= k < n ==> s[..n][k] == s[k];
    }
  }

  /** What is kept is the value of the rightmost element that has one. */
  lemma {:induction false} LastSomeRightmost<T, U>(s: seq<T>, f: T -> Option<U>, k: nat)
    requires k < |s| && f(s[k]).Some? && forall j :: k < j < |s| ==> f(s[j]).None?
    ensures LastSome(s, f) == f(s[k])
  {
    var n := |s| - 1;
    if k < n {
      assert s[..n][k] == s[k];
      assert forall j :: k < j < n ==> s[..n][j] == s[j];
      LastSomeRightmost(s[..n], f, k);
    }
  }

  /** The `for await` loop over the response chunks. */
  method ScanChunks(chunks: seq<Chunk>) returns (imageBlob: Option<Blob>, modelVersion: Option<string>)
    ensures imageBlob == LastSome(chunks, ChunkImage) && modelVersion == LastSome(chunks, ChunkVersion)
  {
    imageBlob := None;
    modelVersion := None;
    var i := 0;
    while i < |chunks|
      invariant 0 <= i <= |chunks|
      invariant imageBlob == LastSome(chunks[..i], ChunkImage)
      invariant modelVersion == LastSome(chunks[..i], ChunkVersion)
    {
      var chunk := chunks[i];
      assert chunks[..i + 1][..i] == chunks[..i];
      if chunk.parts.Some? {
        var image := ChunkImage(chunk);
        if image.Some? {
          imageBlob := image;
        }
        if chunk.modelVersion.Some? && chunk.modelVersion.value != "" {
          modelVersion := chunk.modelVersion;
        }
      }
      i := i + 1;
    }
    assert chunks[..i] == chunks;
  }

  /** What the Google SDK does for one request: reject at once, or stream chunks,
      possibly failing part way; `probe` is how the image loads. */
  datatype GoogleReply =
    | GoogleRejected(error: Thrown)
    | GoogleStream(chunks: seq<Chunk>, streamError: Option<Thrown>, probe: Probe)

  /** `executeGoogleGeneration`: only a rejection of the request itself is
      classified; a failure while streaming propagates as it is. */
  function GoogleGeneration(task: GenerationTask, reply: GoogleReply): (o: Outcome)
    ensures reply.GoogleRejected? ==> o == ClassifyGoogle(reply.error, task.provider)
    ensures reply.GoogleStream? && reply.streamError.Some? ==> o == Failure(reply.streamError.value)
    ensures reply.GoogleStream? && reply.streamError.None? ==>
      (o.Success? <==> exists k :: 0 <= k < |reply.chunks| && ChunkImage(reply.chunks[k]).Some?)
    ensures reply.GoogleStream? && reply.streamError.None? && !o.Success? ==>
      o == Failure(SimpleError("No image in response"))
    ensures o.Success? ==> LastSome(reply.chunks, ChunkImage) == Some(o.result.blob)
    ensures o.Success? ==> (o.result.width, o.result.height) == Dimensions(reply.probe)
    ensures o.Success? ==> o.result.metadata == Metadata(LastSome(reply.chunks, ChunkVersion))
  {
    match reply
    case GoogleRejected(e) => ClassifyGoogle(e, task.provider)
    case GoogleStream(chunks, streamError, probe) =>
      if streamError.Some? then Failure(streamError.value)
      else
        LastSomeNone(chunks, ChunkImage);
        match LastSome(chunks, ChunkImage)
        case None => Failure(SimpleError("No image in response"))
        case Some(blob) =>
          var dims := Dimensions(probe);
          Success(ImageResult(blob, dims.0, dims.1, Metadata(LastSome(chunks, ChunkVersion))))
  }

  // ---------------------------------------------------------------------------
  // Replicate

  /** The Replicate adapter's test: an `Error` with status 429 or "429" in its message. */
  predicate ReplicateRateLimited(e: Thrown)
  {
    e.ErrorValue? && (e.status == Some(429) || Contains(e.message, "429"))
  }

  /** `s.indexOf(c, i)` for one character. */
  function IndexOfCharFrom(s: string, c: char, i: nat): (r: Option<nat>)
    requires i <= |s|
    ensures r.None? <==> forall k :: i <= k < |s| ==> s[k] != c
    ensures r.Some? ==> i <= r.value < |s| && s[r.value] == c && forall k :: i <= k < r.value ==> s[k] != c
    decreases |s| - i
  {
    if i == |s| then None else if s[i] == c then Some(i) else IndexOfCharFrom(s, c, i + 1)
  }

  /** The last index of `c` among the first `n` characters of `s`. */
  function LastIndexOfChar(s: string, c: char, n: nat): (r: Option<nat>)
    requires n <= |s|
    ensures r.None? <==> forall k :: 0 <= k < n ==> s[k] != c
    ensures r.Some? ==> r.value < n && s[r.value] == c && forall k :: r.value < k < n ==> s[k] != c
    decreases n
  {
    if n == 0 then None else if s[n - 1] == c then Some(n - 1) else LastIndexOfChar(s, c, n - 1)
  }

  /** `message.match(/\{[\s\S]*\}/)`: the leftmost match starts at the first '{', and
      the greedy `[\s\S]*` runs it to the last '}' of the message. */
  function JsonCandidate(m: string): Option<string>
  {
    match IndexOfCharFrom(m, '{', 0)
    case None => None
    case Some(i) =>
      match LastIndexOfChar(m, '}', |m|)
      case None => None
      case Some(j) => if i < j then Some(m[i..j + 1]) else None
  }

  /** The pattern matches exactly when some '{' comes before some '}'. */
  lemma JsonCandidateFound(m: string)
    ensures JsonCandidate(m).Some? <==> exists i, j :: 0 <= i < j < |m| && m[i] == '{' && m[j] == '}'
  {
    var first, last := IndexOfCharFrom(m, '{', 0), LastIndexOfChar(m, '}', |m|);
    if first.Some? && last.Some? && first.value >= last.value {
      forall i, j | 0 <= i < j < |m| && m[i] == '{' ensures m[j] != '}' {
        assert first.value <= i;
      }
    }
  }

  /** The match runs from the message's first '{' to its last '}'. */
  lemma JsonCandidateSpan(m: string)
    requires JsonCandidate(m).Some?
    ensures exists i, j :: 0 <= i < j < |m| && m[i] == '{' && m[j] == '}' && JsonCandidate(m).value == m[i..j + 1] &&
                           (forall k :: 0 <= k < i ==> m[k] != '{') && (forall k :: j < k < |m| ==> m[k] != '}')
  {
    var i, j := IndexOfCharFrom(m, '{', 0).value, LastIndexOfChar(m, '}', |m|).value;
    assert JsonCandidate(m).value == m[i..j + 1];
  }

  /** What `JSON.parse` makes of the text: a syntax error, or a value whose
      `retry_after` is a number or is missing. */
  datatype JsonParse = Unparsable | Parsed(retryAfter: Option<int>)

  /** The retry-after the Replicate adapter reads: a non-zero `retry_after` of the
      embedded JSON object, otherwise 10. */
  function ReplicateRetryAfter(message: string, parse: string -> JsonParse): (n: int)
    ensures JsonCandidate(message).None? ==> n == DefaultRetryAfter
    ensures n != DefaultRetryAfter ==> JsonCandidate(message).Some?
    ensures n != DefaultRetryAfter ==> parse(JsonCandidate(message).value) == Parsed(Some(n)) && n != 0
    ensures JsonCandidate(message).Some? && parse(JsonCandidate(message).value).Parsed? &&
            parse(JsonCandidate(message).value).retryAfter.Some? &&
            parse(JsonCandidate(message).value).retryAfter.value != 0 ==>
      n == parse(JsonCandidate(message).value).retryAfter.value
    ensures JsonCandidate(message).Some? && parse(JsonCandidate(message).value).Unparsable? ==> n == DefaultRetryAfter
  {
    match JsonCandidate(message)
    case None => DefaultRetryAfter
    case Some(text) =>
      match parse(text)
      case Unparsable => DefaultRetryAfter
      case Parsed(ra) => if ra.Some? && ra.value != 0 then ra.value else DefaultRetryAfter
  }

  /** The catch block around `replicate.run`. */
  function ClassifyReplicate(e: Thrown, p: Provider, parse: string -> JsonParse): (o: Outcome)
    ensures o.RateLimited? <==> ReplicateRateLimited(e)
    ensures o.RateLimited? ==> o.message == RateLimitMessage(p) && o.retryAfter == ReplicateRetryAfter(e.message, parse)
    ensures o.Failure? ==> o.error == e
    ensures !o.Success?
  {
    if ReplicateRateLimited(e) then RateLimited(RateLimitMessage(p), ReplicateRetryAfter(e.message, parse))
    else Failure(e)
  }

  /** The two classifiers differ: a "rate limit" message without "429" is a rate
      limit for Google only, and an error code of 429 counts for Google only. */
  lemma ClassifiersDiffer(p: Provider, parse: string -> JsonParse)
    ensures ClassifyGoogle(SimpleError("rate limit"), p).RateLimited?
    ensures ClassifyReplicate(SimpleError("rate limit"), p, parse) == Failure(SimpleError("rate limit"))
    ensures ClassifyGoogle(ErrorValue("", None, Some(429)), p).RateLimited?
    ensures ClassifyReplicate(ErrorValue("", None, Some(429)), p, parse).Failure?
  {
    assert ToLower("rate limit") == "rate limit";
    assert OccursAt("rate limit", "rate limit", 0);
    NotContainsHead("rate limit", "429");
    NotContainsHead("", "429");
  }

  /** What `replicate.run` resolves with: an object with `url()`, an array, or
      anything else (rendered by `String(output)`). */
  datatype RunOutput = UrlOutput(url: string) | ListOutput(urls: seq<string>) | OtherOutput(text: string)

  /** The image URL taken from the output, `None` for `undefined`. */
  function ImageUrl(o: RunOutput): (r: Option<string>)
    ensures r.None? <==> o.ListOutput? && o.urls == []
    ensures o.UrlOutput? ==> r == Some(o.url)
    ensures o.ListOutput? && o.urls != [] ==> r == Some(o.urls[0])
    ensures o.OtherOutput? ==> r == Some(o.text)
  {
    match o
    case UrlOutput(u) => Some(u)
    case ListOutput(us) => if us == [] then None else Some(us[0])
    case OtherOutput(t) => Some(t)
  }

  /** What `fetch(imageUrl)` gives. */
  datatype ImageFetch = FetchRejected(error: Thrown) | FetchResponse(ok: bool, status: int, blob: Blob)

  datatype ReplicateReply =
    | ReplicateRejected(error: Thrown)
    | ReplicateRan(output: RunOutput, download: ImageFetch, probe: Probe)

  /** `executeReplicateGeneration` after the request is built. */
  function ReplicateGeneration(task: GenerationTask, reply: ReplicateReply, parse: string -> JsonParse): (o: Outcome)
    ensures reply.ReplicateRejected? ==> o == ClassifyReplicate(reply.error, task.provider, parse)
    ensures reply.ReplicateRan? && (ImageUrl(reply.output).None? || ImageUrl(reply.output).value == "") ==>
      o == Failure(SimpleError("No image in Replicate response"))
    ensures o.Success? ==> reply.ReplicateRan? && reply.download.FetchResponse? && reply.download.ok
    ensures o.Success? ==>
      o.result == ImageResult(reply.download.blob, Dimensions(reply.probe).0, Dimensions(reply.probe).1, Metadata(None))
    ensures (reply.ReplicateRan? && ImageUrl(reply.output).Some? && ImageUrl(reply.output).value != "" &&
             reply.download.FetchResponse? && !reply.download.ok) ==>
      o == Failure(SimpleError("Failed to fetch generated image: " + IntToString(reply.download.status)))
    ensures (reply.ReplicateRan? && ImageUrl(reply.output).Some? && ImageUrl(reply.output).value != "" &&
             reply.download.FetchRejected?) ==>
      o == Failure(reply.download.error)
    ensures !o.RateLimited? || reply.ReplicateRejected?
  {
    match reply
    case ReplicateRejected(e) => ClassifyReplicate(e, task.provider, parse)
    case ReplicateRan(output, download, probe) =>
      var url := ImageUrl(output);
      if url.None? || url.value == "" then Failure(SimpleError("No image in Replicate response"))
      else
        match download
        case FetchRejected(e) => Failure(e)
        case FetchResponse(ok, status, blob) =>
          if !ok then Failure(SimpleError("Failed to fetch generated image: " + IntToString(status)))
          else
            var dims := Dimensions(probe);
            Success(ImageResult(blob, dims.0, dims.1, Metadata(None)))
  }

  // ---------------------------------------------------------------------------
  // Dispatch

  /** What the providers would do for one attempt; only the task's provider is consulted. */
  datatype AttemptReply = AttemptReply(google: GoogleReply, replicate: ReplicateReply)

  function NoKeyError(p: Provider): Thrown
  {
    SimpleError("No API key for " + ProviderName(p))
  }

  /** `executeGeneration(task, apiKeys)` */
  function ExecuteGeneration(task: GenerationTask, keys: ApiKeys, reply: AttemptReply, parse: string -> JsonParse): (o: Outcome)
    ensures !HasKey(keys, task.provider) ==> o == Failure(NoKeyError(task.provider))
    ensures HasKey(keys, task.provider) && task.provider == OpenAI ==>
      o == Failure(SimpleError("Provider openai not implemented"))
    ensures HasKey(keys, task.provider) && task.provider == Google ==> o == GoogleGeneration(task, reply.google)
    ensures HasKey(keys, task.provider) && task.provider == Replicate ==>
      o == ReplicateGeneration(task, reply.replicate, parse)
  {
    if !HasKey(keys, task.provider) then Failure(NoKeyError(task.provider))
    else
      match task.provider
      case Google => GoogleGeneration(task, reply.google)
      case Replicate => ReplicateGeneration(task, reply.replicate, parse)
      case OpenAI => Failure(SimpleError("Provider openai not implemented"))
  }

  /** One attempt, with the Google chunk loop run as a loop; it settles as
      `ExecuteGeneration` says. */
  method Execute(task: GenerationTask, keys: ApiKeys, reply: AttemptReply, parse: string -> JsonParse) returns (o: Outcome)
    ensures o == ExecuteGeneration(task, keys, reply, parse)
  {
    if !HasKey(keys, task.provider) {
      return Failure(NoKeyError(task.provider));
    }
    if task.provider == Google {
      match reply.google
      case GoogleRejected(e) =>
        o := ClassifyGoogle(e, task.provider);
      case GoogleStream(chunks, streamError, probe) =>
        if streamError.Some? {
          return Failure(streamError.value);
        }
        var imageBlob, modelVersion := ScanChunks(chunks);
        if imageBlob.None? {
          return Failure(SimpleError("No image in response"));
        }
        var dims := Dimensions(probe);
        o := Success(ImageResult(imageBlob.value, dims.0, dims.1, Metadata(modelVersion)));
    } else if task.provider == Replicate {
      o := ReplicateGeneration(task, reply.replicate, parse);
    } else {
      o := Failure(SimpleError("Provider openai not implemented"));
    }
  }
}
