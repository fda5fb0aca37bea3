/**
  The three embedding providers of backend/services/llm_client.py.

  Network and SDK calls are parameters: `post` gives the outcome of one HTTP
  POST to the Ollama daemon, `create` the outcome of the Gemini SDK's
  `embeddings.create`, and `sha256` the SHA-256 digest (FIPS 180-4) of a
  text's UTF-8 encoding. Environment variables are constructor arguments.
 */
module LlmClient {
  import opened Wrappers
  import opened Vectors
  import opened Json

  // ---------------------------------------------------------------------------
  // Shared: the `data` list normalisation
  // ---------------------------------------------------------------------------

  /** A dict item with an `embedding` key. */
  predicate HasEmbedding(item: Json) {
    item.Obj? && "embedding" in item.fields
  }

  /** `[item["embedding"] for item in items if isinstance(item, dict) and "embedding" in item]`. */
  function DataEmbeddings(items: seq<Json>): (r: seq<Json>)
    ensures |r| <= |items|
  {
    if items == [] then []
    else
      var last := items[|items| - 1];
      DataEmbeddings(items[..|items| - 1]) + (if HasEmbedding(last) then [last.fields["embedding"]] else [])
  }

  /** Collecting the embeddings of two lists one after the other is collecting them of the concatenation. */
  lemma {:induction false} DataEmbeddingsAppend(a: seq<Json>, b: seq<Json>)
    ensures DataEmbeddings(a + b) == DataEmbeddings(a) + DataEmbeddings(b)
    decreases |b|
  {
    if b == [] {
      assert a + b == a;
    } else {
      var b' := b[..|b| - 1];
      assert (a + b)[..|a + b| - 1] == a + b';
      assert (a + b)[|a + b| - 1] == b[|b| - 1];
      DataEmbeddingsAppend(a, b');
    }
  }

  /** The collection is empty exactly when no item is a dict with an `embedding` key. */
  lemma {:induction false} DataEmbeddingsEmpty(items: seq<Json>)
    ensures DataEmbeddings(items) == [] <==> forall i :: 0 <= i < |items| ==> !HasEmbedding(items[i])
  {
    if items != [] {
      var init := items[..|items| - 1];
      DataEmbeddingsEmpty(init);
      assert forall i :: 0 <= i < |init| ==> init[i] == items[i];
    }
  }

  /** Items that all carry an embedding yield all their embeddings, in order. */
  lemma {:induction false} DataEmbeddingsAll(items: seq<Json>)
    requires forall i :: 0 <= i < |items| ==> HasEmbedding(items[i])
    ensures |DataEmbeddings(items)| == |items|
    ensures forall i :: 0 <= i < |items| ==> HasEmbedding(items[i]) && DataEmbeddings(items)[i] == items[i].fields["embedding"]
  {
    if items != [] {
      var init := items[..|items| - 1];
      DataEmbeddingsAll(init);
    }
  }

  /** The loop at llm_client.py:61-64: builds the list by appending. */
  method CollectDataEmbeddings(items: seq<Json>) returns (embeddings: seq<Json>)
    ensures embeddings == DataEmbeddings(items)
  {
    embeddings := [];
    for k := 0 to |items|
      invariant embeddings == DataEmbeddings(items[..k])
    {
      var item := items[k];
      assert items[..k + 1][..k] == items[..k];
      if item.Obj? && "embedding" in item.fields {
        embeddings := embeddings + [item.fields["embedding"]];
      }
    }
    assert items[..|items|] == items;
  }

  // ---------------------------------------------------------------------------
  // OllamaClient
  // ---------------------------------------------------------------------------

  const DefaultOllamaHost: string := "http://localhost:11434"
  const DefaultOllamaModel: string := "default"

  /** The JSON body of one POST: `{"model": model, "texts": texts}` sent to `url`. */
  datatype PostRequest = PostRequest(url: string, model: string, texts: seq<string>)

  /** What one POST gives: a response (status and decoded body, `None` if it is not JSON) or a transport exception. */
  datatype HttpOutcome =
    | Response(status: int, body: Option<Json>)
    | TransportFailure(detail: string)

  /** A non-status exception, which the loop keeps as `last_exc`. */
  datatype OllamaFailure =
    | Transport(detail: string)
    | InvalidJson(url: string)
    | UnexpectedShape(url: string, keys: set<string>)
    | NotAnObject(url: string)

  /** The `RuntimeError` raised when every candidate failed, with the last non-status exception if any. */
  datatype OllamaError = OllamaExhausted(lastError: Option<OllamaFailure>)

  /** The fate of one candidate. */
  datatype Attempt =
    | Embeddings(value: Json)      // returned from the loop
    | Skipped                      // 404 or an HTTP status error: `continue`
    | Failed(failure: OllamaFailure) // any other exception: recorded as `last_exc`

  /** `/embed`, `/embeddings`, `/api/embed`, `/api/embeddings`, in that order. */
  function Candidates(host: string): (urls: seq<string>)
    ensures |urls| == 4
  {
    [host + "/embed", host + "/embeddings", host + "/api/embed", host + "/api/embeddings"]
  }

  /** httpx's `raise_for_status` raises for every status outside 2xx. */
  predicate IsSuccess(status: int) {
    200 <= status < 300
  }

  /**
    llm_client.py:55-68: an `embeddings` key wins and is returned as it is; otherwise
    a `data` list gives its dict items' `embedding` values if there is at
    least one; anything else raises. A body that is not a JSON object makes
    the key tests or `data.keys()` raise, which the loop treats the same way.
   */
  function ShapeOf(url: string, data: Json): (r: Result<Json, OllamaFailure>)
  {
    match data
    case Obj(m) =>
      if "embeddings" in m then Ok(m["embeddings"])
      else if "data" in m && m["data"].Arr? && DataEmbeddings(m["data"].items) != [] then
        Ok(Arr(DataEmbeddings(m["data"].items)))
      else Err(UnexpectedShape(url, m.Keys))
    case _ => Err(NotAnObject(url))
  }

  /**
    A body is well-shaped exactly when it is an object with an `embeddings`
    key, which wins, or with a `data` list holding at least one dict item with
    an `embedding` key, whose values are then returned in order.
   */
  lemma ShapeOfOk(url: string, data: Json)
    ensures ShapeOf(url, data).Ok? <==>
              data.Obj? && ("embeddings" in data.fields ||
                ("data" in data.fields && data.fields["data"].Arr? &&
                 exists i :: 0 <= i < |data.fields["data"].items| && HasEmbedding(data.fields["data"].items[i])))
    ensures data.Obj? && "embeddings" in data.fields ==> ShapeOf(url, data) == Ok(data.fields["embeddings"])
    ensures ShapeOf(url, data).Ok? && "embeddings" !in data.fields ==>
              ShapeOf(url, data).value == Arr(DataEmbeddings(data.fields["data"].items))
    ensures ShapeOf(url, data).Err? && data.Obj? ==> ShapeOf(url, data).error == UnexpectedShape(url, data.fields.Keys)
  {
    if data.Obj? && "data" in data.fields && data.fields["data"].Arr? {
      DataEmbeddingsEmpty(data.fields["data"].items);
    }
  }

  /** llm_client.py:49-74 for one candidate. */
  function Classify(url: string, outcome: HttpOutcome): (a: Attempt) {
    match outcome
    case TransportFailure(detail) => Failed(Transport(detail))
    case Response(status, body) =>
      if status == 404 then Skipped
      else if !IsSuccess(status) then Skipped
      else if body.None? then Failed(InvalidJson(url))
      else match ShapeOf(url, body.value)
        case Ok(e) => Embeddings(e)
        case Err(f) => Failed(f)
  }

  /** The value of `last_exc` after the given attempts: the last failure, if any. */
  function LastFailure(attempts: seq<Attempt>): (last: Option<OllamaFailure>) {
    if attempts == [] then None
    else if attempts[|attempts| - 1].Failed? then Some(attempts[|attempts| - 1].failure)
    else LastFailure(attempts[..|attempts| - 1])
  }

  /** `last_exc` is unset exactly when no attempt raised a non-status exception. */
  lemma {:induction false} LastFailureNone(attempts: seq<Attempt>)
    ensures LastFailure(attempts).None? <==> forall k :: 0 <= k < |attempts| ==> !attempts[k].Failed?
  {
    if attempts != [] {
      var init := attempts[..|attempts| - 1];
      LastFailureNone(init);
      assert forall k :: 0 <= k < |init| ==> init[k] == attempts[k];
    }
  }

  /** When set, `last_exc` is the failure of the latest attempt that failed, and every later attempt was skipped. */
  lemma {:induction false} LastFailureIsLatest(attempts: seq<Attempt>)
    requires LastFailure(attempts).Some?
    ensures exists k :: 0 <= k < |attempts| && attempts[k] == Failed(LastFailure(attempts).value) &&
              forall j :: k < j < |attempts| ==> !attempts[j].Failed?
  {
    var n := |attempts|;
    if !attempts[n - 1].Failed? {
      var init := attempts[..n - 1];
      LastFailureIsLatest(init);
      var k :| 0 <= k < |init| && init[k] == Failed(LastFailure(init).value) &&
               forall j :: k < j < |init| ==> !init[j].Failed?;
      assert attempts[k] == init[k];
      assert forall j :: k < j < n ==> !attempts[j].Failed? by {
        forall j | k < j < n ensures !attempts[j].Failed? {
          if j < n - 1 { assert attempts[j] == init[j]; }
        }
      }
    } else {
      assert attempts[n - 1] == Failed(LastFailure(attempts).value);
    }
  }

  /** llm_client.py:55-68 as the method runs them, building the `data` list by appending. */
  method NormalizeOllamaResponse(url: string, data: Json) returns (r: Result<Json, OllamaFailure>)
    ensures r == ShapeOf(url, data)
  {
    if !data.Obj? {
      return Err(NotAnObject(url));
    }
    var m := data.fields;
    if "embeddings" in m {
      return Ok(m["embeddings"]);
    }
    if "data" in m && m["data"].Arr? {
      var embeddings := CollectDataEmbeddings(m["data"].items);
      if embeddings != [] {
        return Ok(Arr(embeddings));
      }
    }
    return Err(UnexpectedShape(url, m.Keys));
  }

  class OllamaClient {
    const host: string
    const model: string

    /** `OLLAMA_HOST` and `OLLAMA_MODEL`, with their defaults when unset. */
    constructor (hostEnv: Option<string>, modelEnv: Option<string>)
      ensures host == hostEnv.GetOr(DefaultOllamaHost)
      ensures model == modelEnv.GetOr(DefaultOllamaModel)
    {
      host := hostEnv.GetOr(DefaultOllamaHost);
      model := modelEnv.GetOr(DefaultOllamaModel);
    }

    /**
      `embed_texts`: POSTs the same body to the candidates in order, each at
      most once, and stops at the first well-shaped response. `sent` lists the
      requests made. A 404, a status error, a bad shape and any other
      exception all move on; when all four fail the error carries the last
      non-status exception, or none if only status errors occurred.
     */
    method EmbedTexts(texts: seq<string>, post: PostRequest -> HttpOutcome)
      returns (result: Result<Json, OllamaError>, sent: seq<PostRequest>)
      ensures 1 <= |sent| <= 4
      ensures forall k :: 0 <= k < |sent| ==> sent[k] == PostRequest(Candidates(host)[k], model, texts)
      ensures forall k :: 0 <= k < |sent| - 1 ==> !Classify(sent[k].url, post(sent[k])).Embeddings?
      ensures result.Ok? ==> Classify(sent[|sent| - 1].url, post(sent[|sent| - 1])) == Embeddings(result.value)
      ensures result.Err? ==>
                |sent| == 4 && !Classify(sent[3].url, post(sent[3])).Embeddings? &&
                result.error == OllamaExhausted(LastFailure(seq(4, k requires 0 <= k < 4 => Classify(sent[k].url, post(sent[k])))))
    {
      var candidates := Candidates(host);
      var lastExc: Option<OllamaFailure> := None;
      ghost var attempts: seq<Attempt> := [];
      sent := [];
      for k := 0 to |candidates|
        invariant |sent| == k == |attempts|
        invariant forall j :: 0 <= j < k ==> sent[j] == PostRequest(candidates[j], model, texts)
        invariant forall j :: 0 <= j < k ==> attempts[j] == Classify(sent[j].url, post(sent[j]))
        invariant forall j :: 0 <= j < k ==> !attempts[j].Embeddings?
        invariant lastExc == LastFailure(attempts)
      {
        var url := candidates[k];
        var request := PostRequest(url, model, texts);
        var outcome := post(request);
        sent := sent + [request];
        attempts := attempts + [Classify(url, outcome)];
        assert attempts[..k] == attempts[..|attempts| - 1];
        match outcome {
          case TransportFailure(detail) =>
            lastExc := Some(Transport(detail));
          case Response(status, body) =>
            if status == 404 {
              continue;
            }
            if !IsSuccess(status) {
              continue;
            }
            if body.None? {
              lastExc := Some(InvalidJson(url));
            } else {
              var shaped := NormalizeOllamaResponse(url, body.value);
              if shaped.Ok? {
                result := Ok(shaped.value);
                return;
              }
              lastExc := Some(shaped.error);
            }
        }
      }
      assert attempts == seq(4, k requires 0 <= k < 4 => Classify(sent[k].url, post(sent[k])));
      result := Err(OllamaExhausted(lastExc));
    }
  }

  // ---------------------------------------------------------------------------
  // GeminiClient
  // ---------------------------------------------------------------------------

  const DefaultGeminiModel: string := "textembedding-gecko-001"

  /** An element of `resp.data`: a dict, or an object that may have an `embedding` attribute. */
  datatype SdkItem =
    | DictItem(fields: map<string, Json>)
    | ObjectItem(embedding: Option<Json>)

  /** The SDK's response: a dict, or an object that may have a `data` attribute. */
  datatype SdkResponse =
    | DictResponse(fields: map<string, Json>)
    | ObjectResponse(data: Option<seq<SdkItem>>)

  /** What `genai.embeddings.create(...)` does: return a response or raise. */
  datatype SdkOutcome = Returned(resp: SdkResponse) | Raised(detail: string)

  /** Why a request that reached the SDK failed. */
  datatype GeminiFailure = SdkRaised(detail: string) | NoEmbeddings

  /** Each is a `RuntimeError`; the first two are raised before the SDK is called. */
  datatype GeminiError =
    | MissingApiKey
    | SdkNotInstalled
    | RequestFailed(cause: GeminiFailure)

  /** The embedding of one `resp.data` item, if it has one (dict key first, then attribute). */
  function ItemEmbedding(item: SdkItem): Option<Json> {
    match item
    case DictItem(fields) => if "embedding" in fields then Some(fields["embedding"]) else None
    case ObjectItem(e) => e
  }

  /** The embeddings collected from `resp.data`, in order. */
  function SdkEmbeddings(items: seq<SdkItem>): (r: seq<Json>)
    ensures |r| <= |items|
  {
    if items == [] then []
    else
      var last := ItemEmbedding(items[|items| - 1]);
      SdkEmbeddings(items[..|items| - 1]) + (if last.Some? then [last.value] else [])
  }

  /** The collection is empty exactly when no item has an embedding. */
  lemma {:induction false} SdkEmbeddingsEmpty(items: seq<SdkItem>)
    ensures SdkEmbeddings(items) == [] <==> forall i :: 0 <= i < |items| ==> ItemEmbedding(items[i]).None?
  {
    if items != [] {
      var init := items[..|items| - 1];
      SdkEmbeddingsEmpty(init);
      assert forall i :: 0 <= i < |init| ==> init[i] == items[i];
    }
  }

  /**
    llm_client.py:120-133: the `data` embeddings if there are any; otherwise the
    `embeddings` entry of a dict response; an empty or falsy result is an error.
   */
  function GeminiNormalize(resp: SdkResponse): (r: Result<Json, GeminiFailure>)
    ensures r.Ok? ==> Truthy(r.value)
    ensures r.Err? ==> r.error == NoEmbeddings
  {
    var collected := if resp.ObjectResponse? && resp.data.Some? then SdkEmbeddings(resp.data.value) else [];
    if collected != [] then Ok(Arr(collected))
    else if resp.DictResponse? && "embeddings" in resp.fields && Truthy(resp.fields["embeddings"]) then
      Ok(resp.fields["embeddings"])
    else Err(NoEmbeddings)
  }

  /** A response object whose `data` holds at least one embedding yields exactly those, in order. */
  lemma GeminiDataWins(items: seq<SdkItem>)
    requires exists i :: 0 <= i < |items| && ItemEmbedding(items[i]).Some?
    ensures GeminiNormalize(ObjectResponse(Some(items))) == Ok(Arr(SdkEmbeddings(items)))
  {
    SdkEmbeddingsEmpty(items);
  }

  /**
    A dict response has no `data` attribute: its `embeddings` entry is the
    result when present and truthy, otherwise it is the "no embeddings" error.
   */
  lemma GeminiDictResponse(fields: map<string, Json>)
    ensures GeminiNormalize(DictResponse(fields)) ==
              if "embeddings" in fields && Truthy(fields["embeddings"]) then Ok(fields["embeddings"]) else Err(NoEmbeddings)
  {}

  /** A response object without `data`, or whose items carry no embedding, is an error. */
  lemma GeminiObjectWithoutEmbeddings(data: Option<seq<SdkItem>>)
    requires data.Some? ==> forall i :: 0 <= i < |data.value| ==> ItemEmbedding(data.value[i]).None?
    ensures GeminiNormalize(ObjectResponse(data)) == Err(NoEmbeddings)
  {
    if data.Some? {
      SdkEmbeddingsEmpty(data.value);
    }
  }

  class GeminiClient {
    const apiKey: Option<string>
    const model: string

    /** `GEMINI_API_KEY` and `GEMINI_MODEL`, with the model's default when unset. */
    constructor (apiKeyEnv: Option<string>, modelEnv: Option<string>)
      ensures apiKey == apiKeyEnv
      ensures model == modelEnv.GetOr(DefaultGeminiModel)
    {
      apiKey := apiKeyEnv;
      model := modelEnv.GetOr(DefaultGeminiModel);
    }

    /** `not self.api_key`: unset or empty. */
    predicate MissingKey() {
      apiKey.None? || apiKey.value == ""
    }

    /**
      `embed_texts`: a missing key is reported first, then a missing SDK;
      only then is the SDK called, and every failure from there on is a
      `RequestFailed` error, including a response without embeddings.
     */
    method EmbedTexts(texts: seq<string>, hasGenai: bool, create: (string, seq<string>) -> SdkOutcome)
      returns (r: Result<Json, GeminiError>)
      ensures MissingKey() ==> r == Err(MissingApiKey)
      ensures !MissingKey() && !hasGenai ==> r == Err(SdkNotInstalled)
      ensures !MissingKey() && hasGenai ==>
                match create(model, texts)
                case Raised(detail) => r == Err(RequestFailed(SdkRaised(detail)))
                case Returned(resp) =>
                  match GeminiNormalize(resp)
                  case Ok(e) => r == Ok(e)
                  case Err(f) => r == Err(RequestFailed(f))
      ensures r.Ok? ==> Truthy(r.value)
    {
      if apiKey.None? || apiKey.value == "" {
        return Err(MissingApiKey);
      }
      if !hasGenai {
        return Err(SdkNotInstalled);
      }
      var outcome := create(model, texts);
      if outcome.Raised? {
        return Err(RequestFailed(SdkRaised(outcome.detail)));
      }
      var resp := outcome.resp;
      var embeddings: seq<Json> := [];
      if resp.ObjectResponse? && resp.data.Some? {
        var items := resp.data.value;
        for k := 0 to |items|
          invariant embeddings == SdkEmbeddings(items[..k])
        {
          assert items[..k + 1][..k] == items[..k];
          var item := items[k];
          if item.DictItem? && "embedding" in item.fields {
            embeddings := embeddings + [item.fields["embedding"]];
          } else if item.ObjectItem? && item.embedding.Some? {
            embeddings := embeddings + [item.embedding.value];
          }
        }
        assert items[..|items|] == items;
      }
      var result := Arr(embeddings);
      if embeddings == [] && resp.DictResponse? && "embeddings" in resp.fields {
        result := resp.fields["embeddings"];
      }
      if !Truthy(result) {
        return Err(RequestFailed(NoEmbeddings));
      }
      return Ok(result);
    }
  }

  // ---------------------------------------------------------------------------
  // LocalFallbackClient
  // ---------------------------------------------------------------------------

  type byte = x: int | 0 <= x < 256

  /** A SHA-256 digest: 32 bytes. */
  type Digest = s: seq<byte> | |s| == 32 witness seq(32, _ => 0)

  const DefaultDim: int := 64

  /** `(v / 255.0) * 2 - 1`: maps a byte linearly onto [-1, 1]. */
  function Rescale(v: byte): real {
    (v as real / 255.0) * 2.0 - 1.0
  }

  /** Number of entries the `while len(vals) < dim` loop produces. */
  function Length(dim: int): nat {
    if dim < 0 then 0 else dim
  }

  /** The fallback vector of a text with digest `h`: entry `i` is byte `i mod 32`, rescaled. */
  function FallbackVector(h: Digest, dim: int): (v: Vector)
    ensures |v| == Length(dim)
  {
    seq(Length(dim), i requires 0 <= i < Length(dim) => Rescale(h[i % 32]))
  }

  /** One fallback vector per text, in order. */
  function FallbackEmbeddings(texts: seq<string>, dim: int, sha256: string -> Digest): (vs: seq<Vector>)
    ensures |vs| == |texts|
    ensures Uniform(vs, Length(dim))
    ensures |texts| > 0 ==> WellFormedBatch(vs)
  {
    seq(|texts|, k requires 0 <= k < |texts| => FallbackVector(sha256(texts[k]), dim))
  }

  /** Every value is `(b / 255) * 2 - 1` for a digest byte `b`, hence in [-1, 1]. */
  lemma FallbackValues(h: Digest, dim: int, i: nat)
    requires i < Length(dim)
    ensures FallbackVector(h, dim)[i] == Rescale(h[i % 32])
    ensures -1.0 <= FallbackVector(h, dim)[i] <= 1.0
  {}

  /** Past the 32nd entry the vector repeats with period 32. */
  lemma FallbackPeriodic(h: Digest, dim: int, i: nat)
    requires i + 32 < Length(dim)
    ensures FallbackVector(h, dim)[i + 32] == FallbackVector(h, dim)[i]
  {
    assert (i + 32) % 32 == i % 32;
  }

  /** The fallback vector is determined by its first 32 entries (or fewer, for a short `dim`), the digest's bytes. */
  lemma FallbackPrefixIsDigest(h: Digest, dim: int)
    ensures FallbackVector(h, dim)[..if Length(dim) < 32 then Length(dim) else 32]
         == seq(if Length(dim) < 32 then Length(dim) else 32, i requires 0 <= i < 32 => Rescale(h[i]))
  {}

  class LocalFallbackClient {
    const dim: int

    /** `dim` as given, or `DefaultDim` when the argument is omitted. */
    constructor (dimArg: Option<int>)
      ensures dim == dimArg.GetOr(DefaultDim)
    {
      dim := dimArg.GetOr(DefaultDim);
    }

    /**
      `embed_texts`: never fails; one vector of `dim` entries per text, in
      input order, a function of the text alone.
     */
    method EmbedTexts(texts: seq<string>, sha256: string -> Digest) returns (embeddings: seq<Vector>)
      ensures |embeddings| == |texts|
      ensures forall k :: 0 <= k < |texts| ==> |embeddings[k]| == Length(dim)
      ensures forall k, i :: 0 <= k < |texts| && 0 <= i < Length(dim) ==>
                embeddings[k][i] == Rescale(sha256(texts[k])[i % 32])
      ensures embeddings == FallbackEmbeddings(texts, dim, sha256)
    {
      embeddings := [];
      for k := 0 to |texts|
        invariant |embeddings| == k
        invariant forall j :: 0 <= j < k ==> embeddings[j] == FallbackVector(sha256(texts[j]), dim)
      {
        var h := sha256(texts[k]);
        var vals: seq<byte> := [];
        var i := 0;
        while |vals| < dim
          invariant i == |vals| <= Length(dim)
          invariant forall j :: 0 <= j < i ==> vals[j] == h[j % 32]
          decreases dim - |vals|
        {
          vals := vals + [h[i % |h|]];
          i := i + 1;
        }
        var arr := seq(|vals|, j requires 0 <= j < |vals| => Rescale(vals[j]));
        embeddings := embeddings + [arr];
      }
    }
  }
}
