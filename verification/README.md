# Cognee memory service — Dafny model

The service is a small HTTP façade over a third-party semantic-memory library
(Cognee). It forwards evidence text to the library, triggers the library's
indexing step ("cognify"), and relays search results back as JSON. The only
part with real decision logic is the **search-result normaliser** of the
memory client: the library's search returns loosely typed records in one of
three shapes, and the client turns the first `top_k` of them into scored,
truncated snippets with positional ids, plus an optional graph fragment (node
names and edges) built from a second, graph-oriented search.

The model is pure and functional:

- `Wrappers`: `Option`, `Result`, and `Call`, which is what a library call did
  (returned a value, or raised an exception with a message).
- `Collections`: Python's `s[:k]` slice, for any integer `k`, plus duplicate-freedom.
- `Decimal`: `str(i)` for naturals and the parser that undoes it. Positional ids rest on it.
- `Schemas`: the request and response shapes, with their field constraints as
  validity predicates and checked constructors. The constructors apply the
  declared defaults and reject out-of-range values.
- `Normalizer`: the raw record shapes (`RawResult`), per-record extraction,
  truncation, clamping, ids, the graph fragment, and the whole search.
- `CogneeClient`: the client state (the initialised flag and the evidence-id
  map), and initialise, ingest, cognify, search and health check. Each
  operation returns the next state together with a value or an exception message.
- `Routes`: the four HTTP handlers. They cover the metadata merge, the mapping
  of client answers to responses, and the mapping of client exceptions to
  status fields or HTTP 500 errors.

Two details of the code that the model follows:

- The `else str(result)` at cognee_client.py:183 sits behind the
  `hasattr(result, "payload")` test that line 181 has just passed. It is
  unreachable, so it is not modelled.
- Mapping names are added without `str()` (line 213); only attribute names
  go through `str()` (line 210). In the model every name is already a string.

## Model

| member | source | states |
|---|---|---|
| Collections.SliceTo | apps/cognee_service/cognee_client.py:174 | `s[:k]` is a prefix of `s` of length min(|s|, k) for k ≥ 0; a negative k drops the last -k elements, as Python does |
| Decimal.NatToString | apps/cognee_service/cognee_client.py:192 | the decimal form of the position in `result_{i}` is non-empty, all digits, and has no leading zero |
| Decimal.ParseNatToString | apps/cognee_service/cognee_client.py:192 | reading the decimal form back gives the number: the rendering loses nothing |
| Decimal.NatToStringInjective | apps/cognee_service/cognee_client.py:192 | distinct positions render differently |
| Schemas.NewHealthResponse | apps/cognee_service/schemas.py:16-19 | health status defaults to "ok" and is accepted exactly when it is "ok" or "error"; the message is optional |
| Schemas.NewIngestRequest | apps/cognee_service/schemas.py:34-41 | an ingest request needs every field, and its content type is one of text, log, screenshot_ocr or transcript |
| Schemas.NewCognifyResponse | apps/cognee_service/schemas.py:53-56 | cognify status defaults to "completed" and is accepted exactly when it is "completed" or "error" |
| Schemas.NewSearchRequest | apps/cognee_service/schemas.py:63-66 | the query is required; topK defaults to 5 and is accepted exactly when 1 ≤ topK ≤ 50 |
| Schemas.NewSearchItem | apps/cognee_service/schemas.py:69-74 | a search item is accepted exactly when its score lies in [0.0, 1.0] |
| Schemas.NewGraphEdge | apps/cognee_service/schemas.py:77-82 | an edge is accepted exactly when from, to and relation are present; an absent weight stays absent |
| Schemas.NewGraphContext | apps/cognee_service/schemas.py:88-91 | nodes and edges each default to the empty list |
| Schemas.NewSearchResponse | apps/cognee_service/schemas.py:94-99 | items default to the empty list and graph_context to None; the response is accepted exactly when every item's score is valid |
| Normalizer.Clamp | apps/cognee_service/cognee_client.py:194 | the clamped score lies in [0,1], a score already in [0,1] passes unchanged, and scores below 0 or above 1 go to 0 or 1 |
| Normalizer.NormalizeItem | apps/cognee_service/cognee_client.py:174-196 | item i has id `result_i`; its snippet is a prefix of the record's text of length min(len, 500); its score is in [0,1], equals the raw score when that is in range, and is exactly 0 below range and 1 above; its metadata is the record's |
| Normalizer.EdgeOf | apps/cognee_service/cognee_client.py:214-220 | a graph record yields an edge exactly when it is a mapping with both `source` and `target`, and the edge runs from source to target |
| Normalizer.CollectNodes | apps/cognee_service/cognee_client.py:207-213 | the node list is duplicate-free, and its elements are exactly the names seen before plus the names the records contribute |
| Normalizer.CollectEdges | apps/cognee_service/cognee_client.py:214-220 | there are never more edges than graph records |
| Normalizer.CollectEdgesAppend | apps/cognee_service/cognee_client.py:208-220 | edges are collected record by record in record order with duplicates kept: the edges of a concatenation are the edges of its parts |
| Normalizer.CollectEdgesSingle | apps/cognee_service/cognee_client.py:214-220 | a single record contributes exactly its own edge, if it has one |
| Normalizer.CollectEdgesSound | apps/cognee_service/cognee_client.py:214-220 | every edge is the edge of some graph record |
| Normalizer.CollectEdgesComplete | apps/cognee_service/cognee_client.py:214-220 | every record with both `source` and `target` contributes its edge |
| Normalizer.NamesExactly | apps/cognee_service/cognee_client.py:207-213 | a name is a node exactly when some graph record carries it, as a `name` attribute or a `name` key |
| Normalizer.BuildGraph | apps/cognee_service/cognee_client.py:205-233 | the fragment is absent exactly when the records give no name and no edge; a present fragment has distinct nodes that are exactly the contributed names, and its edges are the collected edges |
| Normalizer.BuildGraphAbsent | apps/cognee_service/cognee_client.py:233 | the graph fragment is None exactly when no graph record contributes a node or an edge |
| Normalizer.GraphLoop | apps/cognee_service/cognee_client.py:207-222 | the client's loop, with a set of seen names and an edge list appended in record order, computes the declared node set and edge list |
| Normalizer.Search | apps/cognee_service/cognee_client.py:161-234 | a failed search gives no items and no graph; otherwise there are min(n, top_k) items in upstream order, item i being record i normalised, each with id `result_i`, a score in [0,1] and a snippet of at most 500 characters; a failed graph search gives no graph, and a successful one gives the fragment of its first top_k records |
| Normalizer.ResultIdRoundTrip | apps/cognee_service/cognee_client.py:192 | the position can be read back from `result_i` |
| Normalizer.ResultIdsDistinct | apps/cognee_service/cognee_client.py:192 | different positions get different ids |
| Normalizer.SearchIdsDistinct | apps/cognee_service/cognee_client.py:174-196 | no two items of one search share an id |
| Normalizer.FallbackScoreClamps | apps/cognee_service/cognee_client.py:179-194 | a record without its own score at position i scores 1.0 − 0.1·i, which is kept for i ≤ 10 and clamps to 0 for i ≥ 10 |
| Normalizer.OwnScoreWins | apps/cognee_service/cognee_client.py:179-184 | a record with its own score gets that score at any position |
| Normalizer.ExtractionTable | apps/cognee_service/cognee_client.py:177-189 | a mapping's snippet comes from `text`, else `content`, else its string form; a payload object's from the payload; anything else's from its string form; metadata comes only from a mapping's `metadata` key, else {} |
| Normalizer.ClampIdempotent | apps/cognee_service/cognee_client.py:194 | clamping twice is clamping once |
| Normalizer.EdgeDefaults | apps/cognee_service/cognee_client.py:218-219 | an edge's relation defaults to "related_to" and its weight to 0.5; given values are kept |
| Normalizer.GraphFailureKeepsItems | apps/cognee_service/cognee_client.py:199-225 | a failed graph search leaves the items exactly as they would otherwise be |
| Normalizer.OnlyFirstTopKMatter | apps/cognee_service/cognee_client.py:174-208 | two upstream answers that agree on their first top_k records give the same output |
| Normalizer.LongTextExample | apps/cognee_service/cognee_client.py:193-194 | a 600-character text scored 0.9 gives a 500-character snippet scored 0.9 |
| Normalizer.ScoreExamples | apps/cognee_service/cognee_client.py:179-194 | an unscored record at position 2 scores 0.8; scores 5.7 and −2.0 clamp to 1.0 and 0.0 |
| Normalizer.EdgeExample | apps/cognee_service/cognee_client.py:214-222 | the graph record {source: X, target: Y} gives the edge X → Y, "related_to", 0.5 and no nodes |
| CogneeClient.Initialize | apps/cognee_service/cognee_client.py:64-85 | an initialised client is left alone whatever the setup would do; otherwise a successful setup sets the flag and a failing one raises and changes nothing |
| CogneeClient.InitializeIdempotent | apps/cognee_service/cognee_client.py:66-67 | initialising again after a successful initialisation is a no-op |
| CogneeClient.EnrichedContent | apps/cognee_service/cognee_client.py:110 | the enriched text is the header `[type] [source: s]`, where s is the metadata's source or "unknown", immediately followed by one line break and then the content, with nothing else |
| CogneeClient.EnrichedContentBody | apps/cognee_service/cognee_client.py:110 | with a single-line content type and source, everything after the first line break is exactly the content |
| CogneeClient.CogneeIdRoundTrip | apps/cognee_service/cognee_client.py:121 | the evidence id can be read back from `cognee_` + evidence id |
| CogneeClient.Ingest | apps/cognee_service/cognee_client.py:87-125 | ingest hands the library's add the enriched text and the `evidence_` dataset; it succeeds exactly when initialisation and that add succeed, then returns `cognee_` + evidence id and records exactly that mapping; on failure it records nothing and passes on the failing step's message; recorded mappings stay consistent |
| CogneeClient.Cognify | apps/cognee_service/cognee_client.py:127-140 | cognify succeeds exactly when initialisation and the library's indexing succeed; a failure passes on the message of the step that raised; the client state is the one initialisation leaves |
| CogneeClient.CognifyKeepsState | apps/cognee_service/cognee_client.py:127-140 | after a successful cognify, cognifying again leaves the client state, and the evidence map, unchanged |
| CogneeClient.ClientSearch | apps/cognee_service/cognee_client.py:142-159 | only initialisation can make a search raise, and it then passes on initialisation's message; otherwise the result is the normalised search |
| CogneeClient.HealthCheck | apps/cognee_service/cognee_client.py:236-243 | the health check never raises, and reports true exactly when initialisation succeeds |
| CogneeClient.HealthyStaysHealthy | apps/cognee_service/cognee_client.py:236-243 | once healthy, the client stays healthy whatever later setups would do |
| Routes.HealthResponseOf | apps/cognee_service/main.py:97-100 | true maps to status "ok" without a message; false to "error" with "Cognee initialization failed"; both are valid |
| Routes.HealthRoute | apps/cognee_service/main.py:86-100 | the health endpoint always answers validly: "ok" with no message exactly when initialisation succeeds, else "error" with "Cognee initialization failed"; the client is left as initialisation leaves it |
| Routes.MergeMetadata | apps/cognee_service/main.py:128-133 | the merged metadata has source, timestamp and the extra keys; extra entries win on a clash, and source and timestamp survive when extra lacks them |
| Routes.IngestAddRequest | apps/cognee_service/main.py:128-141 | the request the ingest handler hands to the library carries the content enriched with the merged metadata, and the `evidence_` dataset |
| Routes.IngestContentReadsBack | apps/cognee_service/main.py:128-141 | with a single-line content type and merged source, the evidence content reads back from the text handed to the library |
| Routes.IngestRoute | apps/cognee_service/main.py:107-148 | ingest hands the library the enriched request; when the client succeeds it answers `cognee_` + evidence id and the evidence map gains exactly that entry; otherwise it fails with 500 "Ingest failed: " + the raised message and the map is unchanged; the initialised flag is the one initialisation leaves |
| Routes.IngestUsesMergedSource | apps/cognee_service/main.py:128-141 | when extra overrides `source`, the text the ingest handler hands to the library names extra's source |
| Routes.CognifyRoute | apps/cognee_service/main.py:155-179 | cognify never answers with an HTTP error: "completed" without a message on success, "error" with the exception message on failure; the client is left as initialisation leaves it |
| Routes.ToSearchResponse | apps/cognee_service/main.py:209-234 | the response has the same number of items in the same order, with id, snippet, score and metadata copied one-to-one; the graph is None exactly when the client's is, and otherwise nodes are copied and each edge maps from, to, relation and weight one-to-one |
| Routes.SearchRoute | apps/cognee_service/main.py:186-241 | the search endpoint fails only when initialisation fails, with 500 "Search failed: " + its message; otherwise the response is the converted normalised search, valid, empty when the library search failed, and with min(n, topK) ≤ 50 items for a valid request; the client is left as initialisation leaves it |
| Routes.SearchResponseValidates | apps/cognee_service/main.py:209-237 | every response built from a client search passes the response schema's validation |

## Left out

- The library calls (`cognee.add`, `cognee.cognify`, `cognee.search`, `cognee.config`) are foreign code. Each is a `Call` parameter, the records it returned or the message it raised; `cognee.add` is a function from the request handed to it to such an outcome. The query text only reaches these calls, so it is not modelled.
- Initialisation's configuration work is one `setup` outcome. That work is reading `OPENAI_API_KEY`, resolving and creating the data directory, and setting `ENABLE_BACKEND_ACCESS_CONTROL`. The client's `data_dir` is not modelled.
- async/await, logging, the process-wide singleton `get_cognee_client`, and FastAPI routing, CORS, lifespan and uvicorn startup are not modelled. The client state is passed explicitly instead of through the singleton.
- Scores are `real`. The fallback 1.0 − 0.1·i is exact here but not in IEEE doubles, so no bit-exact float claim is made. NaN is not modelled.
- Python's `str()` of a record, a payload or a dict is an opaque string carried in the record. Metadata values are likewise opaque strings.
- Record fields are typed, and `None` means the key is absent. Explicit nulls and ill-typed values are outside the model. In the source they behave in three ways:
  - Some raise inside the snippet loop, such as a null `text` or a non-numeric `score`. The outer handler then returns the items built so far and no graph.
  - An unhashable `name` raises inside the graph loop. The edges appended so far survive, with no nodes.
  - Others pass the loops. Examples are a null `source`, `target`, `relation` or mapping `name`, a non-string mapping `name`, and a null `metadata`. A null `metadata` reaches the response as `None`. The others make the `GraphEdge` or `GraphContext` construction fail at main.py:223-233, and the handler answers 500 "Search failed: …" after a successful initialisation.
- Normalizer.CollectNodes: Python's `list(seen_nodes)` has a hash-dependent order. The model emits names in first-seen order. Contracts speak only of membership and distinctness, which hold for every order.
- Routes.SearchRoute: the handler's `except` branch also covers a schema validation error while the response is built. For the typed records modelled here, Routes.SearchResponseValidates proves that such an error cannot happen, so the model has no separate path for it. In the source it does happen for inputs outside the model: the null or ill-typed graph fields above, and a NaN score, which passes the clamp at cognee_client.py:194 but fails the check at schemas.py:73. These answer 500 "Search failed: …".
- Pydantic coercions (ints to floats, aliases such as `from`/`from_node`) and the trivially valid `IngestResponse` and `IngestMetadata` shapes have no predicates of their own.
- Idempotence of re-indexing, as seen through later search results, is a property of the library and cannot be stated here.
