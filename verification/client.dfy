/** The memory client (`CogneeClient`): a lazily initialised wrapper that
    ingests evidence, runs the library's indexing step, searches and reports
    its health. Every library call is a `Call` parameter, and every operation
    returns the client's next state together with its value or the message of
    the exception it let through. */
module CogneeClient {
  import opened Wrappers
  import opened Schemas
  import opened Normalizer

  /** The client's state: whether it has been initialised, and the evidence
      ids it has ingested with the ids it handed out for them. */
  datatype Client = Client(initialized: bool, evidenceMap: map<string, string>)

  /** The client state after an operation, with the operation's value or the
      message of the exception it raised. */
  datatype Step<+T> = Step(client: Client, result: Result<T, string>)

  const CogneeIdPrefix := "cognee_"
  const DatasetPrefix := "evidence_"
  const UnknownSource := "unknown"

  /** Every recorded mapping sends an evidence id to its derived id. */
  predicate MapConsistent(c: Client) {
    forall e :: e in c.evidenceMap ==> c.evidenceMap[e] == CogneeId(e)
  }

  // ---------------------------------------------------------------------------
  // Initialisation
  // ---------------------------------------------------------------------------

  /** Configures the library once. `setup` is the outcome of the configuration
      work (directory creation, library configuration); it is attempted only
      while the client is not yet initialised. */
  function Initialize(c: Client, setup: Call<()>): (s: Step<()>)
    ensures c.initialized ==> s == Step(c, Success(()))
    ensures s.result.Success? <==> c.initialized || setup.Returned?
    ensures s.result.Success? ==> s.client == c.(initialized := true)
    ensures s.result.Failure? ==> s.client == c && s.result.error == setup.message
  {
    if c.initialized then Step(c, Success(()))
    else match setup
      case Returned(_) => Step(c.(initialized := true), Success(()))
      case Raised(message) => Step(c, Failure(message))
  }

  /** Initialising an initialised client does nothing, whatever the setup would do. */
  lemma InitializeIdempotent(c: Client, first: Call<()>, second: Call<()>)
    requires Initialize(c, first).result.Success?
    ensures Initialize(Initialize(c, first).client, second) == Initialize(c, first)
    ensures Initialize(Initialize(c, first).client, second).client == Initialize(c, first).client
  {
  }

  // ---------------------------------------------------------------------------
  // Ingest
  // ---------------------------------------------------------------------------

  /** The id handed out for an evidence id. */
  function CogneeId(evidenceId: string): string {
    CogneeIdPrefix + evidenceId
  }

  /** Recovers the evidence id from a handed-out id. */
  function EvidenceIdOf(cogneeId: string): Option<string> {
    var p := |CogneeIdPrefix|;
    if |cogneeId| >= p && cogneeId[..p] == CogneeIdPrefix then Some(cogneeId[p..]) else None
  }

  /** The dataset an evidence item is added to. */
  function DatasetName(evidenceId: string): string {
    DatasetPrefix + evidenceId
  }

  /** The `source` entry of the metadata, or "unknown". */
  function SourceOf(metadata: Metadata): string {
    if "source" in metadata then metadata["source"] else UnknownSource
  }

  /** The first line of the enriched content: the content type and source. */
  function EnrichmentHeader(contentType: string, metadata: Metadata): string {
    "[" + contentType + "] [source: " + SourceOf(metadata) + "]"
  }

  /** The text handed to the library: the header line, then the content. */
  function EnrichedContent(contentType: string, metadata: Metadata, content: string): (e: string)
    ensures EnrichmentHeader(contentType, metadata) <= e
    ensures |e| == |EnrichmentHeader(contentType, metadata)| + 1 + |content|
    ensures e[|EnrichmentHeader(contentType, metadata)|] == '\n'
    ensures e[|e| - |content|..] == content
  {
    EnrichmentHeader(contentType, metadata) + "\n" + content
  }

  /** Everything after the first line break. */
  function AfterFirstNewline(s: string): string
    decreases |s|
  {
    if |s| == 0 then []
    else if s[0] == '\n' then s[1..]
    else AfterFirstNewline(s[1..])
  }

  lemma {:induction false} AfterFirstNewlineSkipsHeader(header: string, body: string)
    requires '\n' !in header
    ensures AfterFirstNewline(header + "\n" + body) == body
    decreases |header|
  {
    var s := header + "\n" + body;
    if |header| == 0 {
      assert s == ['\n'] + body;
    } else {
      assert s[0] == header[0];
      assert s[1..] == header[1..] + "\n" + body;
      AfterFirstNewlineSkipsHeader(header[1..], body);
    }
  }

  /** The content can be read back from the enriched text whenever the content
      type and source are single-line. */
  lemma EnrichedContentBody(contentType: string, metadata: Metadata, content: string)
    requires '\n' !in contentType && '\n' !in SourceOf(metadata)
    ensures AfterFirstNewline(EnrichedContent(contentType, metadata, content)) == content
  {
    var header := EnrichmentHeader(contentType, metadata);
    assert header == "[" + contentType + "] [source: " + SourceOf(metadata) + "]";
    assert '\n' !in header;
    AfterFirstNewlineSkipsHeader(header, content);
  }

  /** A handed-out id reads back as its evidence id, so distinct evidence ids
      get distinct ids. */
  lemma CogneeIdRoundTrip(evidenceId: string)
    ensures EvidenceIdOf(CogneeId(evidenceId)) == Some(evidenceId)
  {
  }

  /** What is handed to the library's `add`: the enriched text and the dataset name. */
  datatype AddRequest = AddRequest(text: string, datasetName: string)

  function AddRequestFor(evidenceId: string, content: string, contentType: string, metadata: Metadata): AddRequest {
    AddRequest(EnrichedContent(contentType, metadata, content), DatasetName(evidenceId))
  }

  /** Ingests one evidence item. `add` is the library's `add`: what it does
      with the request it is handed. On success the derived id is returned
      and recorded; an exception from initialisation or from `add` is passed
      on with its message and nothing is recorded. */
  function Ingest(c: Client, setup: Call<()>, evidenceId: string, content: string, contentType: string, metadata: Metadata, add: AddRequest -> Call<()>): (s: Step<string>)
    ensures s.result.Success? <==>
      Initialize(c, setup).result.Success? && add(AddRequestFor(evidenceId, content, contentType, metadata)).Returned?
    ensures s.result.Success? ==> s.result.value == CogneeId(evidenceId)
    ensures s.result.Success? ==> s.client.evidenceMap == c.evidenceMap[evidenceId := CogneeId(evidenceId)]
    ensures s.result.Failure? ==> s.client.evidenceMap == c.evidenceMap
    ensures s.result.Failure? ==>
      s.result.error == (if Initialize(c, setup).result.Failure? then setup.message
                         else add(AddRequestFor(evidenceId, content, contentType, metadata)).message)
    ensures s.client.initialized == Initialize(c, setup).client.initialized
    ensures MapConsistent(c) ==> MapConsistent(s.client)
  {
    var init := Initialize(c, setup);
    match init.result
    case Failure(message) => Step(init.client, Failure(message))
    case Success(_) =>
      match add(AddRequestFor(evidenceId, content, contentType, metadata))
      case Raised(message) => Step(init.client, Failure(message))
      case Returned(_) =>
        var id := CogneeId(evidenceId);
        Step(init.client.(evidenceMap := init.client.evidenceMap[evidenceId := id]), Success(id))
  }

  // ---------------------------------------------------------------------------
  // Cognify
  // ---------------------------------------------------------------------------

  /** Runs the library's indexing step; `run` is its outcome. */
  function Cognify(c: Client, setup: Call<()>, run: Call<()>): (s: Step<()>)
    ensures s.result.Success? <==> Initialize(c, setup).result.Success? && run.Returned?
    ensures s.result.Failure? ==>
      s.result.error == (if Initialize(c, setup).result.Failure? then setup.message else run.message)
    ensures s.client == Initialize(c, setup).client
  {
    var init := Initialize(c, setup);
    match init.result
    case Failure(message) => Step(init.client, Failure(message))
    case Success(_) =>
      match run
      case Raised(message) => Step(init.client, Failure(message))
      case Returned(_) => Step(init.client, Success(()))
  }

  /** Indexing leaves the client's state as initialisation left it, so running
      it again after a success changes nothing in the client. */
  lemma CognifyKeepsState(c: Client, setup: Call<()>, run: Call<()>, setup2: Call<()>, run2: Call<()>)
    requires Cognify(c, setup, run).result.Success?
    ensures Cognify(Cognify(c, setup, run).client, setup2, run2).client == Cognify(c, setup, run).client
    ensures Cognify(Cognify(c, setup, run).client, setup2, run2).client.evidenceMap == c.evidenceMap
  {
  }

  // ---------------------------------------------------------------------------
  // Search and health
  // ---------------------------------------------------------------------------

  /** Searches after initialising. Only initialisation can raise; failures of
      the two library searches are absorbed by `Normalizer.Search`. */
  function ClientSearch(c: Client, setup: Call<()>, primary: Call<seq<RawResult>>, graph: Call<seq<RawResult>>, topK: int): (s: Step<SearchOutput>)
    ensures s.result.Success? <==> Initialize(c, setup).result.Success?
    ensures s.result.Success? ==> s.result.value == Search(primary, graph, topK)
    ensures s.result.Failure? ==> s.result.error == setup.message
    ensures s.client == Initialize(c, setup).client
  {
    var init := Initialize(c, setup);
    match init.result
    case Failure(message) => Step(init.client, Failure(message))
    case Success(_) => Step(init.client, Success(Search(primary, graph, topK)))
  }

  /** Whether initialisation succeeds; never raises. */
  function HealthCheck(c: Client, setup: Call<()>): (s: Step<bool>)
    ensures s.result.Success?
    ensures s.result.value <==> c.initialized || setup.Returned?
    ensures s.client == Initialize(c, setup).client
  {
    var init := Initialize(c, setup);
    Step(init.client, Success(init.result.Success?))
  }

  /** Once initialised, the client stays healthy and later setup outcomes are
      irrelevant. */
  lemma HealthyStaysHealthy(c: Client, first: Call<()>, second: Call<()>)
    requires HealthCheck(c, first).result.value
    ensures HealthCheck(HealthCheck(c, first).client, second).result.value
  {
  }
}
