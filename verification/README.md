# Skill-matching core, modelled in Dafny

This project models the core of a small skill-matching backend. The backend
turns a profile's skill strings into embedding vectors and appends their mean
to an in-memory vector store. It then returns the profile's nearest neighbours
by similarity. The modelled parts are:

- **Vector store** (`VectorStore`, `Vectors`). `InMemoryVectorStore` is a class
  with two parallel sequences, `ids` and `vecs`. `Upsert` appends the mean of a
  batch; it never replaces an entry. `Search` is a function of the store: it
  scores every entry against the mean of the query batch and returns the
  `top_k` best, best first. The mean is computed over exact `real`s. The
  similarity score is the function parameter `sim`.
- **Embedding providers** (`LlmClient`, `Json`).
  - The Ollama client tries four candidate endpoints in order. Each POST's
    outcome comes from the function parameter `post`. The client normalises
    the two response shapes and remembers the last non-status error.
  - The Gemini client checks its API key, then whether its SDK is present.
    Only then does it call the SDK, whose outcome comes from the parameter
    `create`. It normalises the response and wraps every failure as one error.
  - The local fallback stretches a 32-byte SHA-256 digest (FIPS 180-4) to
    `dim` entries and rescales each byte onto [-1, 1]. The digest comes from
    the parameter `sha256`.
- **Match orchestration** (`Matchmaking`). This is the Ollama → Gemini → local
  fallback chain, followed by one append to the store and one top-5 search.
- **Ranking** (`Ranking`, `Sorting`). A stable descending sort on
  `confidence`, where a missing value counts as 0. The same generic insertion
  sort also serves as the store's argsort. The argsort's contract promises
  nothing about the order of ties, because numpy's default sort is not stable.
- **Skill parsing** (`SkillParsing`). The frontend expression
  `skills.split(",").map(s => s.trim()).filter(Boolean)`, with JavaScript's
  definition of whitespace.

The model follows the code:

- `upsert` appends, so duplicate ids accumulate (`UpsertTwice`).
- Ties in `search` have no fixed order.
- A negative `top_k` is not modelled.
- `match` appends the new entry before it searches, so a request whose
  search fails still leaves its entry in the store (see "## Findings").

## Model

| member | source | states |
|---|---|---|
| `VectorStore.InMemoryVectorStore.constructor` | backend/services/vector_store.py:6-8 | a new store is empty and its two lists have equal length |
| `VectorStore.InMemoryVectorStore.Upsert` | backend/services/vector_store.py:10-15 | appends exactly one id and the batch's mean at the end; earlier entries are unchanged; the lists stay equal in length |
| `VectorStore.UpsertTwice` | backend/services/vector_store.py:14-15 | upserting one id twice adds two entries under that id, with equal vectors; nothing is replaced |
| `Vectors.Mean` | backend/services/vector_store.py:12-13 | the stored vector has the batch's dimension; entry j times the batch size is the sum of column j |
| `Vectors.MeanOfCopies` | backend/services/vector_store.py:12-13 | the mean of a batch of identical vectors is that vector |
| `Vectors.MeanBounds` | backend/services/vector_store.py:12-13 | for each column j, any lower and upper bounds on the batch's entries in column j also bound entry j of the mean |
| `Json.AsBatch` | backend/services/vector_store.py:12 | the model reads a batch exactly when the value is a list of lists of numbers |
| `Json.AsBatchFromBatch` | backend/services/vector_store.py:12 | encoding a batch as JSON and converting it back gives the same batch |
| `Json.FromBatchAsBatch` | backend/services/vector_store.py:12 | a value that converts to a batch is exactly that batch's encoding |
| `VectorStore.TopK` | backend/services/vector_store.py:27 | returns min(top_k, n) distinct in-range positions in non-increasing score order; no left-out position outscores a chosen one; when top_k >= n every position is returned; tie order is unspecified |
| `VectorStore.InMemoryVectorStore.Search` | backend/services/vector_store.py:17-28 | `[]` on an empty store for any query; otherwise min(top_k, n) pairs of stored id and score, taken at `TopK`'s positions, scores non-increasing; it reads the store and cannot change it |
| `VectorStore.SearchReturnsEveryEntry` | backend/services/vector_store.py:27-28 | when `top_k` is at least the number of entries, every stored id is among the results |
| `VectorStore.TopKOfTwo` | backend/services/vector_store.py:27 | of two scores, the position of the higher one comes first |
| `VectorStore.SearchTwoEntries` | backend/services/vector_store.py:17-28 | a store holding u1=[1,0] and u2=[0,1], searched with [[1,0]] and top_k=2, returns u1 then u2 with their scores whenever u1 scores higher |
| `VectorStore.SearchEmptyStore` | backend/services/vector_store.py:18-19 | a fresh store answers every search with `[]` |
| `VectorStore.SingleEntryScenario` | backend/services/vector_store.py:10-28 | upsert u1 with [[1,0],[1,0]] and search [[1,0]] with top_k=1: the result is exactly u1 with its score |
| `VectorStore.TwoEntryScenario` | backend/services/vector_store.py:10-28 | with u1=[1,0] and u2=[0,1], search [[1,0]] with top_k=2: u1 comes before u2 whenever u1 scores higher |
| `Sorting.SortDesc` | backend/app/model/ranking.py:2 | the output is a permutation of the input in non-increasing key order |
| `Sorting.SortDescStable` | backend/app/model/ranking.py:2 | for every key value, the elements with that key keep their input order |
| `Sorting.SortDescOfDescending` | backend/app/model/ranking.py:2 | a list already in descending order is returned unchanged |
| `Sorting.SortDescIdempotent` | backend/app/model/ranking.py:2 | sorting twice equals sorting once |
| `Ranking.RankMatches` | backend/app/model/ranking.py:2 | a permutation of the records (same multiset) in non-increasing confidence order |
| `Ranking.RankMatchesStable` | backend/app/model/ranking.py:2 | records with equal confidence keep their input order |
| `Ranking.MissingConfidenceRanksAsZero` | backend/app/model/ranking.py:2 | a record without confidence sits after every positive key and before every negative one, in input order among the key-0 records |
| `Ranking.RankMatchesIdempotent` | backend/app/model/ranking.py:2 | ranking a ranked list changes nothing |
| `Ranking.RankMatchesOfRanked` | backend/app/model/ranking.py:2 | a list already in descending confidence order is returned unchanged |
| `Ranking.RankMatchesExample` | backend/app/model/ranking.py:2 | [a 0.2, b missing, c 0.9] ranks as [c, a, b] |
| `Ranking.RankThree` | backend/app/model/ranking.py:2 | three records a, b, c with conf(b) <= conf(a) < conf(c) rank as [c, a, b] |
| `LlmClient.DataEmbeddingsAppend` | backend/services/llm_client.py:61-64 | collecting over a concatenation is the concatenation of the collections, so input order is kept |
| `LlmClient.DataEmbeddingsEmpty` | backend/services/llm_client.py:61-65 | the `data` collection is empty exactly when no item is a dict with an `embedding` key |
| `LlmClient.DataEmbeddingsAll` | backend/services/llm_client.py:61-64 | when every item has an embedding, all of them are returned, in order |
| `LlmClient.CollectDataEmbeddings` | backend/services/llm_client.py:61-64 | the append loop builds exactly the `data` collection |
| `LlmClient.Candidates` | backend/services/llm_client.py:39-44 | there are four candidate endpoints |
| `LlmClient.ShapeOfOk` | backend/services/llm_client.py:55-68 | a body is accepted exactly when it has an `embeddings` key (which wins, returned as-is) or a `data` list with at least one dict item holding `embedding`; any other object is an unexpected-shape error carrying its keys |
| `LlmClient.NormalizeOllamaResponse` | backend/services/llm_client.py:55-68 | the append-based normalisation computes the shape function |
| `LlmClient.LastFailureNone` | backend/services/llm_client.py:72-76 | `last_exc` stays unset exactly when no attempt raised a non-status exception |
| `LlmClient.LastFailureIsLatest` | backend/services/llm_client.py:72-76 | when set, `last_exc` is the latest failure, and every later attempt was a status skip |
| `LlmClient.OllamaClient.constructor` | backend/services/llm_client.py:27-29 | host and model come from the environment, or default to localhost:11434 and "default" |
| `LlmClient.OllamaClient.EmbedTexts` | backend/services/llm_client.py:31-76 | POSTs the same body to the candidates in order, each at most once. It stops at the first well-shaped response and returns its embeddings. 404s, status errors, shape errors and other errors all move on. After four failures it raises, carrying the last non-status error (none if there was none) |
| `LlmClient.SdkEmbeddingsEmpty` | backend/services/llm_client.py:121-127 | the SDK `data` collection is empty exactly when no item has an embedding |
| `LlmClient.GeminiNormalize` | backend/services/llm_client.py:120-133 | a successful result is always truthy (non-empty); every rejection is the "no embeddings" error |
| `LlmClient.GeminiDataWins` | backend/services/llm_client.py:121-127 | a response whose `data` holds an embedding yields exactly the collected embeddings |
| `LlmClient.GeminiDictResponse` | backend/services/llm_client.py:129-132 | a dict response yields its `embeddings` entry when that is present and truthy, and the "no embeddings" error otherwise |
| `LlmClient.GeminiObjectWithoutEmbeddings` | backend/services/llm_client.py:121-132 | a response object without usable `data` is the "no embeddings" error |
| `LlmClient.GeminiClient.constructor` | backend/services/llm_client.py:88-90 | the key comes from the environment; the model comes from the environment or defaults to textembedding-gecko-001 |
| `LlmClient.GeminiClient.EmbedTexts` | backend/services/llm_client.py:107-135 | a missing key is reported first, then a missing SDK. Otherwise the SDK's exception or the normalisation's failure is wrapped as a request failure. Any success is truthy |
| `LlmClient.FallbackVector` | backend/services/llm_client.py:156-162 | every fallback vector has exactly `dim` entries |
| `LlmClient.FallbackEmbeddings` | backend/services/llm_client.py:152-164 | one vector per text, all of one length; for a non-empty input the result is a well-formed batch |
| `LlmClient.FallbackValues` | backend/services/llm_client.py:159-162 | entry i is (b/255)*2-1 for digest byte b = h[i mod 32], so it lies in [-1, 1] |
| `LlmClient.FallbackPeriodic` | backend/services/llm_client.py:158-160 | beyond 32 entries the vector repeats with period 32 |
| `LlmClient.FallbackPrefixIsDigest` | backend/services/llm_client.py:158-162 | the first min(dim, 32) entries are the digest's bytes, rescaled, in order |
| `LlmClient.LocalFallbackClient.constructor` | backend/services/llm_client.py:146-147 | keeps the requested dimension, or 64 when none is given |
| `LlmClient.LocalFallbackClient.EmbedTexts` | backend/services/llm_client.py:149-164 | never fails. It returns one vector per text, in input order. Each vector has `dim` entries, and entry i is byte i mod 32 of the text's digest, rescaled. Equal texts give equal vectors; an empty input gives an empty output |
| `Matchmaking.ChooseEmbeddings` | backend/api/matchmaking.py:24-32 | Ollama is used exactly when it succeeded. Gemini is used exactly when Ollama raised and Gemini succeeded. The fallback is used exactly when both raised. The embeddings are entirely the chosen provider's |
| `Matchmaking.FallbackRequestAverageable` | backend/api/matchmaking.py:31-34 | when both remote providers fail, a request with at least one skill reaches the store with a well-formed batch of the fallback's dimension |
| `Matchmaking.FallbackMeanInRange` | backend/api/matchmaking.py:31-34 | on the fallback path every entry of the stored mean lies in [-1, 1] |
| `Matchmaking.Embed` | backend/api/matchmaking.py:24-32 | the embeddings are those of the provider `ChooseEmbeddings` picks; the fallback is run only when both remote providers raised |
| `Matchmaking.Match` | backend/api/matchmaking.py:22-39 | appends exactly one entry under `profile.id` before searching, on every path. The search succeeds exactly when every earlier entry has the new embeddings' dimension; the response is then the store's top-5 search with the same embeddings, 1 to 5 matches, including the profile's own entry when the store held fewer than 5 entries. On failure the store keeps the new entry, is no longer homogeneous, and no later search can succeed |
| `VectorStore.MixedStoreUnsearchable` | backend/services/vector_store.py:21 | once two stored vectors differ in length, no query is searchable |
| `Matchmaking.MixedDimensionScenario` | backend/api/matchmaking.py:22-39 | a request served by Ollama with 2-entry vectors, then one served by the 64-entry fallback: the second fails, both ids are stored, and the store can no longer be searched |
| `Matchmaking.MatchAtomic` | backend/api/matchmaking.py:22-39 | the corrected handler: the dimension check comes before the append, so a failed request leaves the store unchanged and a homogeneous store stays homogeneous; on success it behaves as `Match` |
| `Matchmaking.MixedDimensionAtomicScenario` | backend/api/matchmaking.py:22-39 | the same two requests with the corrected handler: the second fails and the store still holds only u1 and stays searchable |
| `SkillParsing.Split` | frontend/src/App.jsx:11 | split yields at least one piece, and no piece contains the separator |
| `SkillParsing.SplitLength` | frontend/src/App.jsx:11 | split yields one more piece than there are commas |
| `SkillParsing.TrimStart` | frontend/src/App.jsx:11 | removes exactly a whitespace prefix; the result is a suffix of the input and does not start with whitespace |
| `SkillParsing.TrimEnd` | frontend/src/App.jsx:11 | removes exactly a whitespace suffix; the result is a prefix of the input and does not end with whitespace |
| `SkillParsing.TrimSlice` | frontend/src/App.jsx:11 | `trim` returns the slice of the input left after cutting a whitespace-only prefix and a whitespace-only suffix |
| `SkillParsing.ParseSkillsAreSkills` | frontend/src/App.jsx:11 | every skill is non-empty, contains no comma, and neither starts nor ends with whitespace |
| `SkillParsing.ParseSkillsCount` | frontend/src/App.jsx:11 | there are at most commas + 1 skills |
| `SkillParsing.ParseSkillsOfBlanks` | frontend/src/App.jsx:11 | input made only of commas and whitespace gives no skills |
| `SkillParsing.ParseSkillsConcat` | frontend/src/App.jsx:11 | the skills of a + "," + b are the skills of a followed by those of b, so skills keep their pieces' order |
| `SkillParsing.JoinSplit` | frontend/src/App.jsx:11 | joining the split pieces with the separator gives the text back |
| `SkillParsing.SplitJoin` | frontend/src/App.jsx:11 | splitting a join of separator-free pieces gives the pieces back |
| `SkillParsing.ParseSkillsRoundTrip` | frontend/src/App.jsx:11 | when every piece is already trimmed and non-empty, the skills are exactly the pieces, and joining them with "," gives the input back |
| `SkillParsing.ParseSkillsOfJoin` | frontend/src/App.jsx:11 | joining trimmed, non-empty, comma-free skills with "," and parsing the result gives them back |

## Left out

- Cosine similarity, norms, `sqrt` and the `1e-12` epsilon (backend/services/vector_store.py:23-26) are IEEE floating-point arithmetic. The score is the parameter `sim`. The model therefore does not show that a zero stored vector scores nan (0/0), since the epsilon guards only the query's norm.
- `InMemoryVectorStore.Upsert` and `Search` take a ragged or empty batch, or stored vectors whose dimension differs from the query's, as preconditions (`WellFormedBatch`, `Searchable`). numpy would raise or produce nan there. `Matchmaking.Match` models the mixed-dimension search failure as an error value.
- `Matchmaking.Match` requires the chosen embeddings to be a non-empty batch of one length (`Averageable`). A blank skills field makes the request's skill list `[]`. The fallback then returns `[]`, and `upsert` appends numpy's 0-d nan mean, after which every search raises. A ragged batch from a remote provider makes `np.array` raise before anything is appended. Neither case is modelled, because a stored nan scalar is not a vector.
- `VectorStore.InMemoryVectorStore.Search`: `top_k` is a `nat`. Python's slicing of a negative `top_k` (dropping entries from the end) is not modelled.
- `VectorStore.TopK` fixes one order among tied scores, namely input order, but its contract deliberately promises no tie order. numpy's default argsort is not stable.
- SHA-256 internals and UTF-8 encoding are not modelled. The digest is the parameter `sha256`, which returns 32 bytes.
- httpx POSTs, the 30-second timeout, JSON decoding, the Gemini SDK's `configure`/`init` and `embeddings.create` calls, `load_dotenv` and the environment reads are I/O. Each is a parameter or constructor argument: `post`, `create`, `hasGenai`, and the environment values.
- `LlmClient.OllamaClient.EmbedTexts`: a 404 and any other non-2xx status are one outcome (`Skipped`), since the loop treats both alike. A body that is not a JSON object is one failure kind (`NotAnObject`), standing for the TypeError or AttributeError that the key tests or `data.keys()` would raise. Exception messages are kept as structured values, not formatted strings.
- `LlmClient.GeminiClient.EmbedTexts`: `resp.data` is always modelled as a list. A non-iterable `data` attribute, which Python would turn into a request failure, is not modelled.
- async/await and concurrent requests sharing the module-level store and clients are not modelled. One sequential request is modelled, with the store and clients passed in.
- `Matchmaking.Match` takes the two remote providers' outcomes as values rather than running their clients. The local fallback is run. `LlmClient` models the remote clients on their own.
- Authentication, Mongo CRUD, app wiring and the pydantic schemas (backend/app/) are outside the core. The frontend's React state, rendering and axios POST are outside it too; only the line-11 payload expression is modelled.
- `Json.AsBatch` accepts only numbers as entries. numpy reads JSON booleans as 1 and 0, so a list of lists that holds booleans is a batch to the source but not to the model.
- `Ranking.ConfidenceOf`: a confidence is a number or missing. Values of mixed types, or an explicit `None`, would make Python raise `TypeError`; these are not modelled.
- `SkillParsing.Split`: JavaScript strings are UTF-16, while Dafny strings are sequences of Unicode scalar values. Every character that `trim` removes, and the comma, is a single code unit, so the results agree.

## Findings

| source | as written | input that shows it | evidently intended | confidence | as-written member | corrected member |
|---|---|---|---|---|---|---|
| backend/api/matchmaking.py:34-37 | the entry is appended by `upsert` before `search` runs; `search` raises in `np.stack` when stored vectors differ in length | a request served by Ollama with 2-entry vectors, then one served by the 64-entry local fallback: the second request fails after its entry was appended, and every later search raises | a request either succeeds as a whole or fails without changing the store | not executed; high that the second request fails, medium that atomicity was intended | `Matchmaking.MixedDimensionScenario` | `Matchmaking.MatchAtomic` |
