/**
  `match` (backend/api/matchmaking.py): obtains embeddings for a profile's
  skills from the first provider that does not raise (Ollama, then Gemini,
  then the local fallback), appends their mean to the store under the
  profile's id, and searches the store with the same embeddings.

  The two remote providers' outcomes for this request are parameters; the
  module-level store and fallback client are passed in.
 */
module Matchmaking {
  import opened Wrappers
  import opened Vectors
  import opened Json
  import opened VectorStore
  import opened LlmClient

  /** The request body: `{id, skills}`. */
  datatype UserProfile = UserProfile(id: string, skills: seq<string>)

  datatype Provider = Ollama | Gemini | LocalFallback

  /** The response body: `{"matches": results}`. */
  datatype MatchResponse = MatchResponse(matches: seq<(string, real)>)

  /** `search(embeddings, top_k=5)`. */
  const MatchTopK: nat := 5

  /**
    The nested try/except: Ollama's embeddings if it did not raise, else
    Gemini's if it did not raise, else the local fallback's. The whole batch
    comes from the provider chosen.
   */
  function ChooseEmbeddings(ollama: Result<Json, OllamaError>, gemini: Result<Json, GeminiError>, local: seq<Vector>)
    : (c: (Provider, Json))
    ensures c.0 == Ollama <==> ollama.Ok?
    ensures c.0 == Gemini <==> ollama.Err? && gemini.Ok?
    ensures c.0 == LocalFallback <==> ollama.Err? && gemini.Err?
    ensures c.0 == Ollama ==> c.1 == ollama.value
    ensures c.0 == Gemini ==> c.1 == gemini.value
    ensures c.0 == LocalFallback ==> AsBatch(c.1) == Some(local)
  {
    if ollama.Ok? then (Ollama, ollama.value)
    else if gemini.Ok? then (Gemini, gemini.value)
    else
      AsBatchFromBatch(local);
      (LocalFallback, FromBatch(local))
  }

  /**
    Why a request fails once the embeddings are in hand: the store's vectors
    cannot be stacked with the query (`np.stack` or the product raises).
   */
  datatype MatchError = DimensionMismatch

  /**
    What `upsert` needs of the chosen embeddings: numpy can average them,
    that is, a non-empty list of numeric lists of one length.
   */
  predicate Averageable(e: Json) {
    var b := AsBatch(e);
    b.Some? && WellFormedBatch(b.value)
  }

  /**
    When both remote providers fail, a request with at least one skill
    always reaches the store with vectors of the fallback's dimension; the
    fallback itself never fails.
   */
  lemma FallbackRequestAverageable(ollama: Result<Json, OllamaError>, gemini: Result<Json, GeminiError>,
                                   skills: seq<string>, dim: int, sha256: string -> Digest)
    requires ollama.Err? && gemini.Err?
    requires |skills| > 0
    ensures var e := ChooseEmbeddings(ollama, gemini, FallbackEmbeddings(skills, dim, sha256)).1;
            Averageable(e) && |AsBatch(e).value[0]| == Length(dim)
  {
    var local := FallbackEmbeddings(skills, dim, sha256);
    assert |local[0]| == Length(dim);
  }

  /** On the fallback path every entry of the stored mean lies in [-1, 1]. */
  lemma FallbackMeanInRange(skills: seq<string>, dim: int, sha256: string -> Digest)
    requires |skills| > 0
    ensures var m := Mean(FallbackEmbeddings(skills, dim, sha256));
            |m| == Length(dim) && forall j :: 0 <= j < |m| ==> -1.0 <= m[j] <= 1.0
  {
    var vs := FallbackEmbeddings(skills, dim, sha256);
    var m := Mean(vs);
    forall j | 0 <= j < |m| ensures -1.0 <= m[j] <= 1.0 {
      forall i | 0 <= i < |vs| ensures -1.0 <= vs[i][j] <= 1.0 {
        FallbackValues(sha256(skills[i]), dim, j);
      }
      MeanBounds(vs, j, -1.0, 1.0);
    }
  }

  /** The embeddings of the provider chosen for this request. */
  method Embed(profile: UserProfile, ollama: Result<Json, OllamaError>, gemini: Result<Json, GeminiError>,
               fallback: LocalFallbackClient, sha256: string -> Digest)
    returns (embeddings: Json, used: Provider)
    ensures (used, embeddings) == ChooseEmbeddings(ollama, gemini, FallbackEmbeddings(profile.skills, fallback.dim, sha256))
  {
    if ollama.Ok? {
      embeddings, used := ollama.value, Ollama;
    } else if gemini.Ok? {
      embeddings, used := gemini.value, Gemini;
    } else {
      var local := fallback.EmbedTexts(profile.skills, sha256);
      embeddings, used := FromBatch(local), LocalFallback;
    }
  }

  /**
    One request, as the handler runs it. The providers are tried in order,
    each only if the previous one raised. The store gains exactly one entry,
    under `profile.id`, before the search, whether or not the search then
    succeeds. The search succeeds exactly when every earlier entry has the
    new embeddings' dimension; it then returns between one and five matches,
    including the profile's own entry when the store held fewer than five
    entries before. When it fails, the store keeps the new entry and no later
    search can succeed.
   */
  method Match(profile: UserProfile, store: InMemoryVectorStore,
               ollama: Result<Json, OllamaError>, gemini: Result<Json, GeminiError>,
               fallback: LocalFallbackClient, sha256: string -> Digest, sim: (Vector, Vector) -> real)
    returns (response: Result<MatchResponse, MatchError>, used: Provider)
    requires store.Valid()
    requires Averageable(ChooseEmbeddings(ollama, gemini, FallbackEmbeddings(profile.skills, fallback.dim, sha256)).1)
    modifies store
    ensures store.Valid()
    ensures var c := ChooseEmbeddings(ollama, gemini, FallbackEmbeddings(profile.skills, fallback.dim, sha256));
            var batch := AsBatch(c.1).value;
            && used == c.0
            && store.ids == old(store.ids) + [profile.id]
            && store.vecs == old(store.vecs) + [Mean(batch)]
            && (response.Ok? <==> Uniform(old(store.vecs), |batch[0]|))
            && (response.Ok? ==> store.Searchable(batch) && response.value.matches == store.Search(batch, MatchTopK, sim))
    ensures response.Ok? ==> 1 <= |response.value.matches| <= MatchTopK
    ensures response.Ok? && |old(store.ids)| < MatchTopK ==> profile.id in Identifiers(response.value.matches)
    ensures response.Err? ==> !Homogeneous(store.vecs) && forall v :: !store.Searchable(v)
  {
    var embeddings;
    embeddings, used := Embed(profile, ollama, gemini, fallback, sha256);
    var batch := AsBatch(embeddings).value;
    store.Upsert(profile.id, batch);
    if store.Searchable(batch) {
      var results := store.Search(batch, MatchTopK, sim);
      response := Ok(MatchResponse(results));
      assert Uniform(old(store.vecs), |batch[0]|) by {
        assert forall i :: 0 <= i < |old(store.vecs)| ==> store.vecs[i] == old(store.vecs)[i];
      }
      if |old(store.ids)| < MatchTopK {
        SearchReturnsEveryEntry(store, batch, MatchTopK, sim);
        assert store.ids[|store.ids| - 1] == profile.id;
      }
    } else {
      response := Err(DimensionMismatch);
      var n := |store.vecs|;
      assert |store.vecs[n - 1]| == |batch[0]|;
      var i :| 0 <= i < n && |store.vecs[i]| != |batch[0]|;
      MixedStoreUnsearchable(store, i, n - 1);
    }
  }

  /**
    A request that fails as a whole: the dimension is checked before the
    store is touched, so a failed request leaves the store exactly as it
    was, and a store whose entries share one dimension keeps that property.
    On success it behaves as `Match`.
   */
  method MatchAtomic(profile: UserProfile, store: InMemoryVectorStore,
                     ollama: Result<Json, OllamaError>, gemini: Result<Json, GeminiError>,
                     fallback: LocalFallbackClient, sha256: string -> Digest, sim: (Vector, Vector) -> real)
    returns (response: Result<MatchResponse, MatchError>, used: Provider)
    requires store.Valid()
    requires Averageable(ChooseEmbeddings(ollama, gemini, FallbackEmbeddings(profile.skills, fallback.dim, sha256)).1)
    modifies store
    ensures store.Valid()
    ensures var c := ChooseEmbeddings(ollama, gemini, FallbackEmbeddings(profile.skills, fallback.dim, sha256));
            var batch := AsBatch(c.1).value;
            && used == c.0
            && (response.Ok? <==> Uniform(old(store.vecs), |batch[0]|))
            && (response.Ok? ==>
                  && store.ids == old(store.ids) + [profile.id]
                  && store.vecs == old(store.vecs) + [Mean(batch)]
                  && store.Searchable(batch)
                  && response.value.matches == store.Search(batch, MatchTopK, sim))
    ensures response.Err? ==> store.ids == old(store.ids) && store.vecs == old(store.vecs)
    ensures Homogeneous(old(store.vecs)) ==> Homogeneous(store.vecs)
    ensures response.Ok? ==> 1 <= |response.value.matches| <= MatchTopK
    ensures response.Ok? && |old(store.ids)| < MatchTopK ==> profile.id in Identifiers(response.value.matches)
  {
    var embeddings;
    embeddings, used := Embed(profile, ollama, gemini, fallback, sha256);
    var batch := AsBatch(embeddings).value;
    if !Uniform(store.vecs, |batch[0]|) {
      response := Err(DimensionMismatch);
      return;
    }
    store.Upsert(profile.id, batch);
    assert Uniform(store.vecs, |batch[0]|);
    var results := store.Search(batch, MatchTopK, sim);
    response := Ok(MatchResponse(results));
    if |old(store.ids)| < MatchTopK {
      SearchReturnsEveryEntry(store, batch, MatchTopK, sim);
      assert store.ids[|store.ids| - 1] == profile.id;
    }
  }

  /**
    A request served by Ollama with 2-entry vectors, then one served by the
    64-entry local fallback: as the handler is written, the second request
    fails after appending its entry, and the store can never be searched
    again.
   */
  method MixedDimensionScenario(sha256: string -> Digest, sim: (Vector, Vector) -> real)
    returns (first: Result<MatchResponse, MatchError>, second: Result<MatchResponse, MatchError>, store: InMemoryVectorStore)
    ensures first.Ok? && second.Err?
    ensures store.ids == ["u1", "u2"]
    ensures forall v :: !store.Searchable(v)
  {
    store := new InMemoryVectorStore();
    var fallback := new LocalFallbackClient(None);
    AsBatchFromBatch([[1.0, 0.0]]);
    var used: Provider;
    first, used := Match(UserProfile("u1", ["go"]), store, Ok(FromBatch([[1.0, 0.0]])), Err(MissingApiKey), fallback, sha256, sim);
    FallbackRequestAverageable(Err(OllamaExhausted(None)), Err(MissingApiKey), ["python"], fallback.dim, sha256);
    second, used := Match(UserProfile("u2", ["python"]), store, Err(OllamaExhausted(None)), Err(MissingApiKey), fallback, sha256, sim);
  }

  /** The same two requests with `MatchAtomic`: the second fails and the store is as the first left it. */
  method MixedDimensionAtomicScenario(sha256: string -> Digest, sim: (Vector, Vector) -> real)
    returns (first: Result<MatchResponse, MatchError>, second: Result<MatchResponse, MatchError>, store: InMemoryVectorStore)
    ensures first.Ok? && second.Err?
    ensures store.ids == ["u1"] && store.vecs == [[1.0, 0.0]]
    ensures store.Searchable([[1.0, 0.0]])
  {
    store := new InMemoryVectorStore();
    var fallback := new LocalFallbackClient(None);
    AsBatchFromBatch([[1.0, 0.0]]);
    MeanOfCopies([[1.0, 0.0]], [1.0, 0.0]);
    var used: Provider;
    first, used := MatchAtomic(UserProfile("u1", ["go"]), store, Ok(FromBatch([[1.0, 0.0]])), Err(MissingApiKey), fallback, sha256, sim);
    FallbackRequestAverageable(Err(OllamaExhausted(None)), Err(MissingApiKey), ["python"], fallback.dim, sha256);
    second, used := MatchAtomic(UserProfile("u2", ["python"]), store, Err(OllamaExhausted(None)), Err(MissingApiKey), fallback, sha256, sim);
  }
}
