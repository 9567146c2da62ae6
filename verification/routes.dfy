/** The HTTP handlers of the service (apps/cognee_service/main.py): each
    handler calls the memory client and turns its answer into the response
    shape, or into an HTTP error carrying the client's exception message. */
module Routes {
  import opened Wrappers
  import opened Collections
  import opened Schemas
  import opened Normalizer
  import opened CogneeClient

  /** An HTTP error response: a status code and a detail message. */
  datatype HttpError = HttpError(statusCode: int, detail: string)

  /** The client state after a handler, with its response or HTTP error. */
  datatype Reply<+T> = Reply(client: Client, response: Result<T, HttpError>)

  const InternalServerError := 500
  const HealthFailureMessage := "Cognee initialization failed"

  // ---------------------------------------------------------------------------
  // Health
  // ---------------------------------------------------------------------------

  /** The health response for a health-check answer. */
  function HealthResponseOf(healthy: bool): (h: HealthResponse)
    ensures ValidHealthResponse(h)
    ensures h.status == StatusOk <==> healthy
    ensures h.message.None? <==> healthy
    ensures !healthy ==> h.message == Some(HealthFailureMessage)
  {
    if healthy then HealthResponse(StatusOk, None)
    else HealthResponse(StatusError, Some(HealthFailureMessage))
  }

  /** `GET /health`: never fails. */
  function HealthRoute(c: Client, setup: Call<()>): (r: Reply<HealthResponse>)
    ensures r.response.Success? && ValidHealthResponse(r.response.value)
    ensures r.response.value.status == StatusOk <==> c.initialized || setup.Returned?
    ensures r.response.value == HealthResponseOf(c.initialized || setup.Returned?)
    ensures r.client == Initialize(c, setup).client
  {
    var checked := HealthCheck(c, setup);
    Reply(checked.client, Success(HealthResponseOf(checked.result.value)))
  }

  // ---------------------------------------------------------------------------
  // Ingest
  // ---------------------------------------------------------------------------

  /** The metadata handed to the client: `source` and `timestamp`, then the
      `extra` entries, which win on a clash. */
  function MergeMetadata(m: IngestMetadata): (r: Metadata)
    ensures r.Keys == {"source", "timestamp"} + (if m.extra.Some? then m.extra.value.Keys else {})
    ensures m.extra.Some? ==> forall k :: k in m.extra.value ==> r[k] == m.extra.value[k]
    ensures (m.extra.None? || "source" !in m.extra.value) ==> r["source"] == m.source
    ensures (m.extra.None? || "timestamp" !in m.extra.value) ==> r["timestamp"] == m.timestamp
  {
    var base := map["source" := m.source, "timestamp" := m.timestamp];
    if m.extra.Some? then base + m.extra.value else base
  }

  /** The request `POST /ingest` hands to the library's `add`: the text
      enriched with the merged metadata, and the evidence's dataset. */
  function IngestAddRequest(req: IngestRequest): (a: AddRequest)
    ensures a.text == EnrichedContent(req.contentType, MergeMetadata(req.metadata), req.content)
    ensures a.datasetName == DatasetName(req.evidenceId)
  {
    AddRequestFor(req.evidenceId, req.content, req.contentType, MergeMetadata(req.metadata))
  }

  /** The evidence content can be read back from the text handed to the
      library whenever the content type and the merged source are single-line. */
  lemma IngestContentReadsBack(req: IngestRequest)
    ensures '\n' !in req.contentType && '\n' !in SourceOf(MergeMetadata(req.metadata)) ==>
      AfterFirstNewline(IngestAddRequest(req).text) == req.content
  {
    if '\n' !in req.contentType && '\n' !in SourceOf(MergeMetadata(req.metadata)) {
      EnrichedContentBody(req.contentType, MergeMetadata(req.metadata), req.content);
    }
  }

  /** `POST /ingest`: any exception from the client becomes a 500 error whose
      detail is "Ingest failed: " and the exception's message. `add` is the
      library's `add`, applied to the request the handler hands it. */
  function IngestRoute(c: Client, setup: Call<()>, req: IngestRequest, add: AddRequest -> Call<()>): (r: Reply<IngestResponse>)
    ensures r.response.Success? <==> Initialize(c, setup).result.Success? && add(IngestAddRequest(req)).Returned?
    ensures r.response.Success? ==> r.response.value.cogneeId == CogneeId(req.evidenceId)
    ensures r.response.Success? ==> req.evidenceId in r.client.evidenceMap && r.client.evidenceMap[req.evidenceId] == r.response.value.cogneeId
    ensures r.response.Failure? ==> r.response.error == HttpError(InternalServerError, "Ingest failed: " +
      (if Initialize(c, setup).result.Failure? then setup.message else add(IngestAddRequest(req)).message))
    ensures r.response.Failure? ==> r.client.evidenceMap == c.evidenceMap
    ensures r.response.Success? ==> r.client.evidenceMap == c.evidenceMap[req.evidenceId := CogneeId(req.evidenceId)]
    ensures r.client.initialized == Initialize(c, setup).client.initialized
  {
    var ingested := Ingest(c, setup, req.evidenceId, req.content, req.contentType, MergeMetadata(req.metadata), add);
    match ingested.result
    case Success(id) => Reply(ingested.client, Success(IngestResponse(id)))
    case Failure(message) => Reply(ingested.client, Failure(HttpError(InternalServerError, "Ingest failed: " + message)))
  }

  /** The text handed to the library names the source from `extra` when
      `extra` overrides it. */
  lemma IngestUsesMergedSource(req: IngestRequest)
    requires req.metadata.extra.Some? && "source" in req.metadata.extra.value
    ensures IngestAddRequest(req).text
      == EnrichedContent(req.contentType, map["source" := req.metadata.extra.value["source"]], req.content)
  {
  }

  // ---------------------------------------------------------------------------
  // Cognify
  // ---------------------------------------------------------------------------

  /** `POST /cognify`: never an HTTP error; a failure is reported as status
      "error" with the exception's message. */
  function CognifyRoute(c: Client, setup: Call<()>, run: Call<()>): (r: Reply<CognifyResponse>)
    ensures r.response.Success? && ValidCognifyResponse(r.response.value)
    ensures r.response.value.status == StatusCompleted <==> Cognify(c, setup, run).result.Success?
    ensures r.response.value.status == StatusCompleted ==> r.response.value.message.None?
    ensures r.response.value.status == StatusError ==> r.response.value.message == Some(Cognify(c, setup, run).result.error)
    ensures r.client == Initialize(c, setup).client
  {
    var done := Cognify(c, setup, run);
    match done.result
    case Success(_) => Reply(done.client, Success(CognifyResponse(StatusCompleted, None)))
    case Failure(message) => Reply(done.client, Success(CognifyResponse(StatusError, Some(message))))
  }

  // ---------------------------------------------------------------------------
  // Search
  // ---------------------------------------------------------------------------

  function ToSearchItem(item: Item): SearchItem {
    SearchItem(item.cogneeId, item.snippet, item.score, Some(item.metadata))
  }

  function ToGraphEdge(e: Edge): GraphEdge {
    GraphEdge(e.from, e.to, e.relation, Some(e.weight))
  }

  function ToGraphContext(g: Graph): GraphContext {
    GraphContext(g.nodes, seq(|g.edges|, i requires 0 <= i < |g.edges| => ToGraphEdge(g.edges[i])))
  }

  /** The response for a client search output: the items one-to-one in the
      same order, and the graph context only when the client produced one. */
  function ToSearchResponse(out: SearchOutput): (r: SearchResponse)
    ensures |r.items| == |out.items|
    ensures forall i :: 0 <= i < |r.items| ==>
      && r.items[i].cogneeId == out.items[i].cogneeId
      && r.items[i].snippet == out.items[i].snippet
      && r.items[i].score == out.items[i].score
      && r.items[i].metadata == Some(out.items[i].metadata)
    ensures r.graphContext.None? <==> out.graphContext.None?
    ensures r.graphContext.Some? ==>
      && r.graphContext.value.nodes == out.graphContext.value.nodes
      && |r.graphContext.value.edges| == |out.graphContext.value.edges|
      && forall i :: 0 <= i < |r.graphContext.value.edges| ==>
           r.graphContext.value.edges[i] == GraphEdge(out.graphContext.value.edges[i].from, out.graphContext.value.edges[i].to,
                                                      out.graphContext.value.edges[i].relation, Some(out.graphContext.value.edges[i].weight))
  {
    var items := seq(|out.items|, i requires 0 <= i < |out.items| => ToSearchItem(out.items[i]));
    var context := match out.graphContext
      case None => None
      case Some(g) => Some(ToGraphContext(g));
    SearchResponse(items, context)
  }

  /** `POST /search`: only a failed initialisation becomes an error (a 500
      whose detail is "Search failed: " and the message); failures of the
      library searches give an empty or graph-less response. */
  function SearchRoute(c: Client, setup: Call<()>, req: SearchRequest, primary: Call<seq<RawResult>>, graph: Call<seq<RawResult>>): (r: Reply<SearchResponse>)
    ensures r.response.Success? <==> Initialize(c, setup).result.Success?
    ensures r.response.Success? ==> ValidSearchResponse(r.response.value)
    ensures r.response.Success? && ValidSearchRequest(req) && primary.Returned? ==>
      |r.response.value.items| == Min(|primary.value|, req.topK) <= MaxTopK
    ensures r.response.Success? ==> r.response.value == ToSearchResponse(Search(primary, graph, req.topK))
    ensures r.response.Success? && primary.Raised? ==> r.response.value == SearchResponse([], None)
    ensures r.response.Failure? ==> r.response.error == HttpError(InternalServerError, "Search failed: " + setup.message)
    ensures r.client == Initialize(c, setup).client
  {
    var searched := ClientSearch(c, setup, primary, graph, req.topK);
    match searched.result
    case Failure(message) => Reply(searched.client, Failure(HttpError(InternalServerError, "Search failed: " + message)))
    case Success(out) => Reply(searched.client, Success(ToSearchResponse(out)))
  }

  /** Every client search output passes the response schema's validation, so
      building the response never fails. */
  lemma SearchResponseValidates(primary: Call<seq<RawResult>>, graph: Call<seq<RawResult>>, topK: int)
    ensures var r := ToSearchResponse(Search(primary, graph, topK));
      NewSearchResponse(Some(r.items), Some(r.graphContext)) == Success(r)
  {
  }
}
