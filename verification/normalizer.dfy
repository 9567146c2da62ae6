/** The search-result normaliser of the memory client: it turns the loosely
    typed records the memory library's search returns into a bounded, ordered
    list of scored snippets, plus an optional graph fragment built from a
    second, graph-oriented search. */
module Normalizer {
  import opened Wrappers
  import opened Collections
  import opened Schemas
  import Decimal

  // ---------------------------------------------------------------------------
  // Raw upstream records
  // ---------------------------------------------------------------------------

  /** A string-keyed record. Each field is `None` when its key is absent;
      `repr` is the record's own string form. */
  datatype Mapping = Mapping(
    text: Option<string>,
    content: Option<string>,
    score: Option<real>,
    metadata: Option<Metadata>,
    name: Option<string>,
    source: Option<string>,
    target: Option<string>,
    relation: Option<string>,
    weight: Option<real>,
    repr: string)

  /** One record as the memory library returns it, in one of three shapes:
      a mapping; an object with a `payload` attribute (carried as its string
      form) and possibly a `score` and a `name` attribute; or any other object,
      of which only a possible `name` attribute and its string form are used. */
  datatype RawResult =
    | Dict(fields: Mapping)
    | PayloadNode(payload: string, score: Option<real>, name: Option<string>)
    | Opaque(name: Option<string>, repr: string)

  // ---------------------------------------------------------------------------
  // Normalised output
  // ---------------------------------------------------------------------------

  datatype Item = Item(cogneeId: string, snippet: string, score: real, metadata: Metadata)

  datatype Edge = Edge(from: string, to: string, relation: string, weight: real)

  datatype Graph = Graph(nodes: seq<string>, edges: seq<Edge>)

  datatype SearchOutput = SearchOutput(items: seq<Item>, graphContext: Option<Graph>)

  /** Longest snippet kept, in characters. */
  const SnippetLimit := 500
  /** How much the positional fallback score drops per position. */
  const FallbackStep: real := 0.1
  const DefaultRelation := "related_to"
  const DefaultWeight: real := 0.5
  const ResultIdPrefix := "result_"

  // ---------------------------------------------------------------------------
  // Per-record extraction
  // ---------------------------------------------------------------------------

  /** The positional id of the item at 0-based position `i`. */
  function ResultId(i: nat): string {
    ResultIdPrefix + Decimal.NatToString(i)
  }

  /** Recovers the position from a positional id. */
  function ParseResultId(id: string): Option<nat> {
    var p := |ResultIdPrefix|;
    if |id| > p && id[..p] == ResultIdPrefix && Decimal.AllDigits(id[p..])
    then Some(Decimal.ParseDigits(id[p..]))
    else None
  }

  /** The score of a record at position `i` that carries none. */
  function FallbackScore(i: nat): real {
    1.0 - (i as real) * FallbackStep
  }

  /** `min(max(x, 0.0), 1.0)`. */
  function Clamp(x: real): (r: real)
    ensures ValidScore(r)
    ensures ValidScore(x) ==> r == x
    ensures x < 0.0 ==> r == 0.0
    ensures x > 1.0 ==> r == 1.0
  {
    var atLeastZero := if x < 0.0 then 0.0 else x;
    if atLeastZero > 1.0 then 1.0 else atLeastZero
  }

  /** The text a record offers before truncation: a mapping's `text`, else its
      `content`, else its own string form; an object's payload; the string
      form of anything else. */
  function RawSnippet(r: RawResult): string {
    match r
    case Dict(m) => m.text.GetOr(m.content.GetOr(m.repr))
    case PayloadNode(payload, _, _) => payload
    case Opaque(_, repr) => repr
  }

  /** Whether the record carries a score of its own. */
  predicate HasScore(r: RawResult) {
    match r
    case Dict(m) => m.score.Some?
    case PayloadNode(_, score, _) => score.Some?
    case Opaque(_, _) => false
  }

  /** The score a record at position `i` offers before clamping. */
  function RawScore(r: RawResult, i: nat): real {
    match r
    case Dict(m) => m.score.GetOr(FallbackScore(i))
    case PayloadNode(_, score, _) => score.GetOr(FallbackScore(i))
    case Opaque(_, _) => FallbackScore(i)
  }

  /** The metadata of a record: a mapping's `metadata`, else empty. */
  function RawMetadata(r: RawResult): Metadata {
    match r
    case Dict(m) => m.metadata.GetOr(map[])
    case PayloadNode(_, _, _) => map[]
    case Opaque(_, _) => map[]
  }

  /** The item made from the record at position `i`. */
  function NormalizeItem(r: RawResult, i: nat): (item: Item)
    ensures item.cogneeId == ResultId(i)
    ensures item.snippet <= RawSnippet(r)
    ensures |item.snippet| == Min(|RawSnippet(r)|, SnippetLimit)
    ensures ValidScore(item.score)
    ensures ValidScore(RawScore(r, i)) ==> item.score == RawScore(r, i)
    ensures RawScore(r, i) < 0.0 ==> item.score == 0.0
    ensures RawScore(r, i) > 1.0 ==> item.score == 1.0
    ensures item.metadata == RawMetadata(r)
  {
    Item(ResultId(i), SliceTo(RawSnippet(r), SnippetLimit), Clamp(RawScore(r, i)), RawMetadata(r))
  }

  /** The items made from the records of `window`, position by position. */
  function NormalizeItems(window: seq<RawResult>): seq<Item> {
    seq(|window|, i requires 0 <= i < |window| => NormalizeItem(window[i], i))
  }

  // ---------------------------------------------------------------------------
  // Graph fragment
  // ---------------------------------------------------------------------------

  /** The node name a graph record contributes: an object's `name` attribute,
      or else a mapping's `name` key. */
  function NodeName(r: RawResult): Option<string> {
    match r
    case Dict(m) => m.name
    case PayloadNode(_, _, name) => name
    case Opaque(name, _) => name
  }

  /** The edge a graph record contributes. */
  function EdgeOf(r: RawResult): (e: Option<Edge>)
    ensures e.Some? <==> r.Dict? && r.fields.source.Some? && r.fields.target.Some?
    ensures e.Some? ==> e.value.from == r.fields.source.value && e.value.to == r.fields.target.value
  {
    match r
    case Dict(m) =>
      if m.source.Some? && m.target.Some? then
        Some(Edge(m.source.value, m.target.value, m.relation.GetOr(DefaultRelation), m.weight.GetOr(DefaultWeight)))
      else None
    case PayloadNode(_, _, _) => None
    case Opaque(_, _) => None
  }

  /** The set of names the records of `rs` contribute. */
  function Names(rs: seq<RawResult>): set<string> {
    if |rs| == 0 then {}
    else
      var head := if NodeName(rs[0]).Some? then {NodeName(rs[0]).value} else {};
      head + Names(rs[1..])
  }

  /** Adds the names of `rs` to `seen` in first-seen order, skipping a name
      already present; this is the `seen_nodes` set turned into a list. */
  function CollectNodes(seen: seq<string>, rs: seq<RawResult>): (nodes: seq<string>)
    requires NoDuplicates(seen)
    ensures NoDuplicates(nodes)
    ensures seen <= nodes
    ensures Elements(nodes) == Elements(seen) + Names(rs)
    decreases |rs|
  {
    if |rs| == 0 then seen
    else
      var name := NodeName(rs[0]);
      var seen' := if name.Some? && name.value !in seen then seen + [name.value] else seen;
      CollectNodes(seen', rs[1..])
  }

  /** The edges of `rs`, in record order. */
  function CollectEdges(rs: seq<RawResult>): (edges: seq<Edge>)
    ensures |edges| <= |rs|
  {
    if |rs| == 0 then []
    else
      var head := match EdgeOf(rs[0]) case Some(e) => [e] case None => [];
      head + CollectEdges(rs[1..])
  }

  /** Edges are collected record by record: the edges of a concatenation are
      the edges of its parts, in order, duplicates kept. */
  lemma {:induction false} CollectEdgesAppend(a: seq<RawResult>, b: seq<RawResult>)
    ensures CollectEdges(a + b) == CollectEdges(a) + CollectEdges(b)
    decreases |a|
  {
    if |a| == 0 {
      assert a + b == b;
    } else {
      var head := match EdgeOf(a[0]) case Some(e) => [e] case None => [];
      assert (a + b)[0] == a[0];
      assert (a + b)[1..] == a[1..] + b;
      assert CollectEdges(a + b) == head + CollectEdges(a[1..] + b);
      assert CollectEdges(a) == head + CollectEdges(a[1..]);
      CollectEdgesAppend(a[1..], b);
      assert head + (CollectEdges(a[1..]) + CollectEdges(b)) == (head + CollectEdges(a[1..])) + CollectEdges(b);
    }
  }

  /** A single record contributes exactly its own edge, if it has one. */
  lemma CollectEdgesSingle(r: RawResult)
    ensures CollectEdges([r]) == (if EdgeOf(r).Some? then [EdgeOf(r).value] else [])
  {
  }

  /** Every edge comes from a mapping record with both a `source` and a `target` key. */
  lemma {:induction false} CollectEdgesSound(rs: seq<RawResult>, e: Edge)
    requires e in CollectEdges(rs)
    ensures exists j :: 0 <= j < |rs| && EdgeOf(rs[j]) == Some(e)
    decreases |rs|
  {
    if EdgeOf(rs[0]) != Some(e) {
      CollectEdgesSound(rs[1..], e);
      var j :| 0 <= j < |rs[1..]| && EdgeOf(rs[1..][j]) == Some(e);
      assert EdgeOf(rs[j + 1]) == Some(e);
    }
  }

  /** The graph fragment of the graph records in `window`, or `None` when
      they yield neither a node nor an edge. */
  function BuildGraph(window: seq<RawResult>): (g: Option<Graph>)
    ensures g.Some? ==> |g.value.nodes| > 0 || |g.value.edges| > 0
    ensures g.Some? ==> NoDuplicates(g.value.nodes) && Elements(g.value.nodes) == Names(window)
    ensures g.Some? ==> g.value.edges == CollectEdges(window)
    ensures g.None? <==> Names(window) == {} && CollectEdges(window) == []
  {
    var nodes := CollectNodes([], window);
    var edges := CollectEdges(window);
    assert |nodes| > 0 ==> nodes[0] in Elements(nodes);
    if |nodes| > 0 || |edges| > 0 then Some(Graph(nodes, edges)) else None
  }

  /** The graph loop as the client runs it: names go into a set, edges are
      appended in record order. It computes what `Names` and `CollectEdges`
      define. */
  method GraphLoop(window: seq<RawResult>) returns (seenNodes: set<string>, edges: seq<Edge>)
    ensures seenNodes == Names(window)
    ensures edges == CollectEdges(window)
  {
    seenNodes := {};
    edges := [];
    var i := 0;
    while i < |window|
      invariant 0 <= i <= |window|
      invariant seenNodes + Names(window[i..]) == Names(window)
      invariant edges + CollectEdges(window[i..]) == CollectEdges(window)
    {
      var rest := window[i..];
      assert rest[0] == window[i] && rest[1..] == window[i + 1..];
      assert Names(rest) == (if NodeName(window[i]).Some? then {NodeName(window[i]).value} else {}) + Names(window[i + 1..]);
      ghost var head := if EdgeOf(window[i]).Some? then [EdgeOf(window[i]).value] else [];
      ghost var before := edges;
      assert CollectEdges(rest) == head + CollectEdges(window[i + 1..]);
      match window[i] {
        case Dict(m) =>
          if m.name.Some? {
            seenNodes := seenNodes + {m.name.value};
          }
          if m.source.Some? && m.target.Some? {
            edges := edges + [Edge(m.source.value, m.target.value, m.relation.GetOr(DefaultRelation), m.weight.GetOr(DefaultWeight))];
          }
        case PayloadNode(_, _, name) =>
          if name.Some? {
            seenNodes := seenNodes + {name.value};
          }
        case Opaque(name, _) =>
          if name.Some? {
            seenNodes := seenNodes + {name.value};
          }
      }
      assert edges == before + head;
      assert before + CollectEdges(rest) == edges + CollectEdges(window[i + 1..]);
      i := i + 1;
    }
    assert window[|window|..] == [];
  }

  // ---------------------------------------------------------------------------
  // The whole search
  // ---------------------------------------------------------------------------

  /** The normalised search. `primary` is what the snippet search returned,
      `graph` what the graph search returned; both are cut to the first
      `topK` records (Python slicing). A failed snippet search gives no items
      and no graph (the graph search is then never made); a failed graph
      search gives no graph but keeps the items. */
  function Search(primary: Call<seq<RawResult>>, graph: Call<seq<RawResult>>, topK: int): (out: SearchOutput)
    ensures primary.Raised? ==> out == SearchOutput([], None)
    ensures primary.Returned? && 0 <= topK ==> |out.items| == Min(|primary.value|, topK)
    ensures primary.Returned? ==> |out.items| <= |primary.value|
    ensures primary.Returned? ==>
      forall i :: 0 <= i < |out.items| ==> out.items[i] == NormalizeItem(primary.value[i], i)
    ensures forall i :: 0 <= i < |out.items| ==>
      out.items[i].cogneeId == ResultId(i) && ValidScore(out.items[i].score) && |out.items[i].snippet| <= SnippetLimit
    ensures graph.Raised? ==> out.graphContext.None?
    ensures out.graphContext.Some? ==> |out.graphContext.value.nodes| > 0 || |out.graphContext.value.edges| > 0
    ensures out.graphContext.Some? ==> NoDuplicates(out.graphContext.value.nodes)
    ensures out.graphContext.Some? ==> graph.Returned? && Elements(out.graphContext.value.nodes) == Names(SliceTo(graph.value, topK))
    ensures primary.Returned? && graph.Returned? ==> out.graphContext == BuildGraph(SliceTo(graph.value, topK))
  {
    match primary
    case Raised(_) => SearchOutput([], None)
    case Returned(results) =>
      var items := NormalizeItems(SliceTo(results, topK));
      var context := match graph
        case Raised(_) => None
        case Returned(graphResults) => BuildGraph(SliceTo(graphResults, topK));
      SearchOutput(items, context)
  }

  // ---------------------------------------------------------------------------
  // Properties
  // ---------------------------------------------------------------------------

  /** A positional id reads back as its position. */
  lemma ResultIdRoundTrip(i: nat)
    ensures ParseResultId(ResultId(i)) == Some(i)
  {
    var id := ResultId(i);
    var p := |ResultIdPrefix|;
    assert id[..p] == ResultIdPrefix;
    assert id[p..] == Decimal.NatToString(i);
    Decimal.ParseNatToString(i);
  }

  /** Items at different positions never share an id. */
  lemma ResultIdsDistinct(i: nat, j: nat)
    requires i != j
    ensures ResultId(i) != ResultId(j)
  {
    ResultIdRoundTrip(i);
    ResultIdRoundTrip(j);
  }

  /** Every id in a search output is unique. */
  lemma SearchIdsDistinct(primary: Call<seq<RawResult>>, graph: Call<seq<RawResult>>, topK: int)
    ensures var items := Search(primary, graph, topK).items;
      forall i, j :: 0 <= i < j < |items| ==> items[i].cogneeId != items[j].cogneeId
  {
    var items := Search(primary, graph, topK).items;
    forall i, j | 0 <= i < j < |items| ensures items[i].cogneeId != items[j].cogneeId {
      ResultIdsDistinct(i, j);
    }
  }

  /** A record without a score of its own gets `1.0 - 0.1 * i`, which clamps
      to zero from position 10 on and is kept as is before that. */
  lemma FallbackScoreClamps(r: RawResult, i: nat)
    requires !HasScore(r)
    ensures RawScore(r, i) == FallbackScore(i)
    ensures i >= 10 ==> NormalizeItem(r, i).score == 0.0
    ensures i <= 10 ==> NormalizeItem(r, i).score == 1.0 - (i as real) / 10.0
  {
  }

  /** A record with a score of its own is scored by it, at every position. */
  lemma OwnScoreWins(r: RawResult, i: nat, j: nat)
    requires HasScore(r)
    ensures RawScore(r, i) == RawScore(r, j)
    ensures NormalizeItem(r, i).score == NormalizeItem(r, j).score
  {
  }

  /** Where each field of an item comes from: a mapping's snippet is its
      `text`, else its `content`, else its string form, and its metadata is
      its `metadata` or empty; objects never carry metadata. */
  lemma ExtractionTable(r: RawResult, i: nat)
    ensures r.Dict? && r.fields.text.Some? ==> NormalizeItem(r, i).snippet <= r.fields.text.value
    ensures r.Dict? && r.fields.text.None? && r.fields.content.Some? ==> NormalizeItem(r, i).snippet <= r.fields.content.value
    ensures r.Dict? && r.fields.text.None? && r.fields.content.None? ==> NormalizeItem(r, i).snippet <= r.fields.repr
    ensures r.PayloadNode? ==> NormalizeItem(r, i).snippet <= r.payload
    ensures r.Opaque? ==> NormalizeItem(r, i).snippet <= r.repr
    ensures r.Dict? && r.fields.metadata.Some? ==> NormalizeItem(r, i).metadata == r.fields.metadata.value
    ensures !(r.Dict? && r.fields.metadata.Some?) ==> NormalizeItem(r, i).metadata == map[]
  {
  }

  /** Clamping a clamped score changes nothing. */
  lemma ClampIdempotent(x: real)
    ensures Clamp(Clamp(x)) == Clamp(x)
  {
  }

  /** A name is a node exactly when some graph record contributes it. */
  lemma {:induction false} NamesExactly(rs: seq<RawResult>, x: string)
    ensures x in Names(rs) <==> exists j :: 0 <= j < |rs| && NodeName(rs[j]) == Some(x)
    decreases |rs|
  {
    if |rs| > 0 {
      NamesExactly(rs[1..], x);
      if exists j :: 0 <= j < |rs[1..]| && NodeName(rs[1..][j]) == Some(x) {
        var j :| 0 <= j < |rs[1..]| && NodeName(rs[1..][j]) == Some(x);
        assert NodeName(rs[j + 1]) == Some(x);
      }
      if exists j :: 0 <= j < |rs| && NodeName(rs[j]) == Some(x) {
        var j :| 0 <= j < |rs| && NodeName(rs[j]) == Some(x);
        if j > 0 {
          assert NodeName(rs[1..][j - 1]) == Some(x);
        }
      }
    }
  }

  /** Every record with both a `source` and a `target` key contributes its edge. */
  lemma {:induction false} CollectEdgesComplete(rs: seq<RawResult>, j: nat)
    requires j < |rs| && EdgeOf(rs[j]).Some?
    ensures EdgeOf(rs[j]).value in CollectEdges(rs)
    decreases |rs|
  {
    if j > 0 {
      assert rs[1..][j - 1] == rs[j];
      CollectEdgesComplete(rs[1..], j - 1);
    }
  }

  /** The graph fragment is absent exactly when no graph record contributes a
      node or an edge. */
  lemma BuildGraphAbsent(window: seq<RawResult>)
    ensures BuildGraph(window).None? <==>
      (forall j :: 0 <= j < |window| ==> NodeName(window[j]).None? && EdgeOf(window[j]).None?)
  {
    var nodes := CollectNodes([], window);
    var edges := CollectEdges(window);
    forall j | 0 <= j < |window| && NodeName(window[j]).Some? ensures |nodes| > 0 {
      NamesExactly(window, NodeName(window[j]).value);
      assert NodeName(window[j]).value in Elements(nodes);
    }
    forall j | 0 <= j < |window| && EdgeOf(window[j]).Some? ensures |edges| > 0 {
      CollectEdgesComplete(window, j);
    }
    if |nodes| > 0 {
      assert nodes[0] in Elements(nodes);
      NamesExactly(window, nodes[0]);
    } else if |edges| > 0 {
      CollectEdgesSound(window, edges[0]);
    }
  }

  /** An edge defaults to relation "related_to" and weight 0.5. */
  lemma EdgeDefaults(m: Mapping)
    requires m.source.Some? && m.target.Some?
    ensures m.relation.None? ==> EdgeOf(Dict(m)).value.relation == "related_to"
    ensures m.relation.Some? ==> EdgeOf(Dict(m)).value.relation == m.relation.value
    ensures m.weight.None? ==> EdgeOf(Dict(m)).value.weight == 0.5
    ensures m.weight.Some? ==> EdgeOf(Dict(m)).value.weight == m.weight.value
  {
  }

  /** A failed graph search leaves the items exactly as a successful one would. */
  lemma GraphFailureKeepsItems(primary: Call<seq<RawResult>>, graph: Call<seq<RawResult>>, message: string, topK: int)
    ensures Search(primary, Raised(message), topK).items == Search(primary, graph, topK).items
  {
  }

  /** Only the first `topK` records of either search are looked at. */
  lemma OnlyFirstTopKMatter(p1: seq<RawResult>, p2: seq<RawResult>, g1: seq<RawResult>, g2: seq<RawResult>, topK: nat)
    requires topK <= |p1| && topK <= |p2| && p1[..topK] == p2[..topK]
    requires topK <= |g1| && topK <= |g2| && g1[..topK] == g2[..topK]
    ensures Search(Returned(p1), Returned(g1), topK) == Search(Returned(p2), Returned(g2), topK)
  {
    SliceToLooksOnlyAtPrefix(p1, p2, topK);
    SliceToLooksOnlyAtPrefix(g1, g2, topK);
  }

  // ---------------------------------------------------------------------------
  // Worked examples
  // ---------------------------------------------------------------------------

  function Record(text: Option<string>, score: Option<real>, source: Option<string>, target: Option<string>): RawResult {
    Dict(Mapping(text, None, score, None, None, source, target, None, None, "{...}"))
  }

  /** A 600-character text scored 0.9 gives a 500-character snippet scored 0.9. */
  lemma LongTextExample()
    ensures var item := NormalizeItem(Record(Some(seq(600, _ => 'A')), Some(0.9), None, None), 0);
      |item.snippet| == 500 && item.score == 0.9
  {
  }

  /** An unscored mapping at position 2 scores 0.8; scores 5.7 and -2.0 clamp to 1.0 and 0.0. */
  lemma ScoreExamples()
    ensures NormalizeItem(Record(Some("x"), None, None, None), 2).score == 0.8
    ensures NormalizeItem(Record(Some("x"), Some(5.7), None, None), 0).score == 1.0
    ensures NormalizeItem(Record(Some("x"), Some(-2.0), None, None), 0).score == 0.0
  {
  }

  /** `{"source": "X", "target": "Y"}` gives the edge X -> Y "related_to" 0.5. */
  lemma EdgeExample()
    ensures BuildGraph([Record(None, None, Some("X"), Some("Y"))]) == Some(Graph([], [Edge("X", "Y", "related_to", 0.5)]))
  {
    var rs := [Record(None, None, Some("X"), Some("Y"))];
    assert rs[1..] == [];
    assert CollectNodes([], rs) == [];
    assert CollectEdges(rs) == [Edge("X", "Y", "related_to", 0.5)];
  }
}
