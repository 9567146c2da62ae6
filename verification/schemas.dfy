/** The request and response shapes of the service's HTTP contract
    (apps/cognee_service/schemas.py), with the field constraints the schema
    library enforces written as validity predicates, and the construction of
    each shape from possibly missing fields written as a checked constructor
    that applies the declared defaults and rejects what the constraints rule out. */
module Schemas {
  import opened Wrappers

  /** A free-form metadata object; values are kept as their string forms. */
  type Metadata = map<string, string>

  /** Which field failed validation. */
  datatype ValidationError = ValidationError(field: string)

  // ---------------------------------------------------------------------------
  // Health check
  // ---------------------------------------------------------------------------

  datatype HealthResponse = HealthResponse(status: string, message: Option<string>)

  const StatusOk := "ok"
  const StatusError := "error"

  predicate ValidHealthResponse(h: HealthResponse) {
    h.status == StatusOk || h.status == StatusError
  }

  /** `HealthResponse(...)`: the status defaults to "ok" and must be "ok" or "error". */
  function NewHealthResponse(status: Option<string>, message: Option<string>): (r: Result<HealthResponse, ValidationError>)
    ensures r.Success? <==> status.None? || status.value in {StatusOk, StatusError}
    ensures r.Success? ==> ValidHealthResponse(r.value) && r.value.message == message
    ensures r.Success? && status.None? ==> r.value.status == StatusOk
    ensures r.Success? && status.Some? ==> r.value.status == status.value
  {
    var s := status.GetOr(StatusOk);
    if s == StatusOk || s == StatusError then Success(HealthResponse(s, message))
    else Failure(ValidationError("status"))
  }

  // ---------------------------------------------------------------------------
  // Ingest
  // ---------------------------------------------------------------------------

  datatype IngestMetadata = IngestMetadata(source: string, timestamp: string, extra: Option<Metadata>)

  datatype IngestRequest = IngestRequest(evidenceId: string, content: string, contentType: string, metadata: IngestMetadata)

  datatype IngestResponse = IngestResponse(cogneeId: string)

  /** The four kinds of evidence the service accepts. */
  predicate ValidContentType(t: string) {
    t == "text" || t == "log" || t == "screenshot_ocr" || t == "transcript"
  }

  predicate ValidIngestRequest(r: IngestRequest) {
    ValidContentType(r.contentType)
  }

  /** `IngestRequest(...)`: every field is required, and the content type is
      one of the four kinds. */
  function NewIngestRequest(evidenceId: Option<string>, content: Option<string>, contentType: Option<string>, metadata: Option<IngestMetadata>): (r: Result<IngestRequest, ValidationError>)
    ensures r.Success? <==> evidenceId.Some? && content.Some? && contentType.Some? && metadata.Some? && ValidContentType(contentType.value)
    ensures r.Success? ==> ValidIngestRequest(r.value)
    ensures r.Success? ==> r.value == IngestRequest(evidenceId.value, content.value, contentType.value, metadata.value)
  {
    if evidenceId.None? then Failure(ValidationError("evidence_id"))
    else if content.None? then Failure(ValidationError("content"))
    else if contentType.None? || !ValidContentType(contentType.value) then Failure(ValidationError("content_type"))
    else if metadata.None? then Failure(ValidationError("metadata"))
    else Success(IngestRequest(evidenceId.value, content.value, contentType.value, metadata.value))
  }

  // ---------------------------------------------------------------------------
  // Cognify
  // ---------------------------------------------------------------------------

  datatype CognifyResponse = CognifyResponse(status: string, message: Option<string>)

  const StatusCompleted := "completed"

  predicate ValidCognifyResponse(c: CognifyResponse) {
    c.status == StatusCompleted || c.status == StatusError
  }

  /** `CognifyResponse(...)`: the status defaults to "completed" and must be
      "completed" or "error". */
  function NewCognifyResponse(status: Option<string>, message: Option<string>): (r: Result<CognifyResponse, ValidationError>)
    ensures r.Success? <==> status.None? || status.value in {StatusCompleted, StatusError}
    ensures r.Success? ==> ValidCognifyResponse(r.value) && r.value.message == message
    ensures r.Success? && status.None? ==> r.value.status == StatusCompleted
    ensures r.Success? && status.Some? ==> r.value.status == status.value
  {
    var s := status.GetOr(StatusCompleted);
    if s == StatusCompleted || s == StatusError then Success(CognifyResponse(s, message))
    else Failure(ValidationError("status"))
  }

  // ---------------------------------------------------------------------------
  // Search
  // ---------------------------------------------------------------------------

  datatype SearchRequest = SearchRequest(query: string, topK: int)

  const DefaultTopK := 5
  const MinTopK := 1
  const MaxTopK := 50

  predicate ValidSearchRequest(r: SearchRequest) {
    MinTopK <= r.topK <= MaxTopK
  }

  /** `SearchRequest(...)`: the query is required; `topK` defaults to 5 and
      must lie in [1, 50]. */
  function NewSearchRequest(query: Option<string>, topK: Option<int>): (r: Result<SearchRequest, ValidationError>)
    ensures r.Success? <==> query.Some? && (topK.None? || MinTopK <= topK.value <= MaxTopK)
    ensures r.Success? ==> ValidSearchRequest(r.value) && r.value.query == query.value
    ensures r.Success? && topK.None? ==> r.value.topK == DefaultTopK
    ensures r.Success? && topK.Some? ==> r.value.topK == topK.value
  {
    if query.None? then Failure(ValidationError("query"))
    else
      var k := topK.GetOr(DefaultTopK);
      if MinTopK <= k <= MaxTopK then Success(SearchRequest(query.value, k))
      else Failure(ValidationError("topK"))
  }

  datatype SearchItem = SearchItem(cogneeId: string, snippet: string, score: real, metadata: Option<Metadata>)

  predicate ValidScore(x: real) {
    0.0 <= x <= 1.0
  }

  predicate ValidSearchItem(i: SearchItem) {
    ValidScore(i.score)
  }

  /** `SearchItem(...)`: the score must lie in [0.0, 1.0]; metadata is optional. */
  function NewSearchItem(cogneeId: string, snippet: string, score: real, metadata: Option<Metadata>): (r: Result<SearchItem, ValidationError>)
    ensures r.Success? <==> ValidScore(score)
    ensures r.Success? ==> ValidSearchItem(r.value)
    ensures r.Success? ==> r.value == SearchItem(cogneeId, snippet, score, metadata)
  {
    if ValidScore(score) then Success(SearchItem(cogneeId, snippet, score, metadata))
    else Failure(ValidationError("score"))
  }

  datatype GraphEdge = GraphEdge(fromNode: string, toNode: string, relation: string, weight: Option<real>)

  /** `GraphEdge(...)`: `from`, `to` and `relation` are required; `weight` is
      optional and stays absent when not given. */
  function NewGraphEdge(fromNode: Option<string>, toNode: Option<string>, relation: Option<string>, weight: Option<real>): (r: Result<GraphEdge, ValidationError>)
    ensures r.Success? <==> fromNode.Some? && toNode.Some? && relation.Some?
    ensures r.Success? ==> r.value == GraphEdge(fromNode.value, toNode.value, relation.value, weight)
  {
    if fromNode.None? then Failure(ValidationError("from"))
    else if toNode.None? then Failure(ValidationError("to"))
    else if relation.None? then Failure(ValidationError("relation"))
    else Success(GraphEdge(fromNode.value, toNode.value, relation.value, weight))
  }

  datatype GraphContext = GraphContext(nodes: seq<string>, edges: seq<GraphEdge>)

  /** `GraphContext(...)`: nodes and edges each default to an empty list. */
  function NewGraphContext(nodes: Option<seq<string>>, edges: Option<seq<GraphEdge>>): (g: GraphContext)
    ensures nodes.None? ==> g.nodes == []
    ensures edges.None? ==> g.edges == []
    ensures nodes.Some? ==> g.nodes == nodes.value
    ensures edges.Some? ==> g.edges == edges.value
  {
    GraphContext(nodes.GetOr([]), edges.GetOr([]))
  }

  datatype SearchResponse = SearchResponse(items: seq<SearchItem>, graphContext: Option<GraphContext>)

  predicate ValidSearchResponse(r: SearchResponse) {
    forall i :: 0 <= i < |r.items| ==> ValidSearchItem(r.items[i])
  }

  /** `SearchResponse(...)`: items default to an empty list and the graph
      context to `None`; an omitted field is the outer `None`. */
  function NewSearchResponse(items: Option<seq<SearchItem>>, graphContext: Option<Option<GraphContext>>): (r: Result<SearchResponse, ValidationError>)
    ensures r.Success? <==> items.None? || forall i :: 0 <= i < |items.value| ==> ValidSearchItem(items.value[i])
    ensures r.Success? ==> ValidSearchResponse(r.value)
    ensures r.Success? && items.None? ==> r.value.items == []
    ensures r.Success? && items.Some? ==> r.value.items == items.value
    ensures r.Success? && graphContext.None? ==> r.value.graphContext == None
    ensures r.Success? && graphContext.Some? ==> r.value.graphContext == graphContext.value
  {
    var response := SearchResponse(items.GetOr([]), graphContext.GetOr(None));
    if ValidSearchResponse(response) then Success(response) else Failure(ValidationError("items"))
  }
}
