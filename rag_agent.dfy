/**
 * The query Lambda: the `search_knowledge_base` tool embeds a query, runs a
 * k-nearest-neighbour search and renders the hits as one labelled context
 * string; the handler hands the user's query to the agent that uses the tool.
 */
module RagAgent {
  import opened Common
  import opened Services

  const IndexName := "rag-index"
  const DefaultK: nat := 3
  const EndpointMissing := "Error: OPENSEARCH_ENDPOINT not configured."
  const NoResults := "No relevant code found."
  const BlockHeader := "--- File: "

  // --------------------------------------------------------- search_vectors

  /** The hit list `search_vectors` returns: none on a non-200 status, none when `hits.hits` is missing. */
  function HitsOf(r: SearchReply): (hits: seq<Hit>)
    ensures r.status != 200 ==> hits == []
  {
    if r.status != 200 then [] else r.hits.GetOr([])
  }

  method SearchVectors(opensearch: SearchIndex, indexName: string, vector: Vector, endpoint: string, k: nat)
    returns (hits: seq<Hit>)
    modifies opensearch
    ensures opensearch.searches == old(opensearch.searches) + [SearchRequest(indexName, vector, endpoint, k)]
    ensures opensearch.puts == old(opensearch.puts)
    ensures hits == HitsOf(opensearch.searchReply(|old(opensearch.searches)|, SearchRequest(indexName, vector, endpoint, k)))
  {
    var response := opensearch.Search(SearchRequest(indexName, vector, endpoint, k));
    if response.status != 200 {
      return [];
    }
    hits := response.hits.GetOr([]);
  }

  // -------------------------------------------------------------- rendering

  /** `hit["_source"]["metadata"]["path"]`, or `unknown` when any level is missing. */
  function HitPath(h: Hit): (path: string)
    ensures (h.source.None? || h.source.value.metadata.None? || h.source.value.metadata.value.path.None?)
            ==> path == "unknown"
  {
    match h.source
    case None => "unknown"
    case Some(src) =>
      match src.metadata
      case None => "unknown"
      case Some(m) => m.path.GetOr("unknown")
  }

  /** `hit["_source"]["text"]`, or the empty string when missing. */
  function HitText(h: Hit): (text: string)
    ensures (h.source.None? || h.source.value.text.None?) ==> text == ""
  {
    match h.source
    case None => ""
    case Some(src) => src.text.GetOr("")
  }

  /** The labelled block of one hit. */
  function Block(h: Hit): string {
    BlockHeader + HitPath(h) + " ---\n" + HitText(h) + "\n\n"
  }

  /** The block of each hit, in hit order. */
  function BlockList(hits: seq<Hit>): seq<string> {
    seq(|hits|, i requires 0 <= i < |hits| => Block(hits[i]))
  }

  /** The text the rendering loop accumulates. */
  function Blocks(hits: seq<Hit>): string {
    Concat(BlockList(hits))
  }

  /** What the tool returns for a hit list, once the endpoint is configured. */
  function Context(hits: seq<Hit>): string {
    if hits == [] then NoResults else Blocks(hits)
  }

  /** The total length of the rendered paths and texts. */
  function FieldLengths(hits: seq<Hit>): nat {
    if hits == [] then 0
    else FieldLengths(hits[..|hits| - 1]) + |HitPath(hits[|hits| - 1])| + |HitText(hits[|hits| - 1])|
  }

  /** The rendering loop of `search_knowledge_base`, with its no-hits sentinel. */
  method RenderHits(hits: seq<Hit>) returns (context: string)
    ensures context == Context(hits)
  {
    if hits == [] {
      return NoResults;
    }
    ghost var blocks := BlockList(hits);
    context := "";
    for i := 0 to |hits|
      invariant context == Concat(blocks[..i])
    {
      var path := HitPath(hits[i]);
      var text := HitText(hits[i]);
      context := context + (BlockHeader + path + " ---\n" + text + "\n\n");
      ConcatPrefix(blocks, i);
    }
    assert blocks[..|hits|] == blocks;
  }

  lemma BlockListTake(hits: seq<Hit>, k: nat)
    requires k <= |hits|
    ensures BlockList(hits[..k]) == BlockList(hits)[..k]
  {
  }

  lemma BlockListDrop(hits: seq<Hit>, k: nat)
    requires k <= |hits|
    ensures BlockList(hits[k..]) == BlockList(hits)[k..]
  {
  }

  /** Hit `k`'s block sits between the blocks of the hits before and after it: no hit is dropped or moved. */
  lemma BlocksAt(hits: seq<Hit>, k: nat)
    requires k < |hits|
    ensures Blocks(hits) == Blocks(hits[..k]) + Block(hits[k]) + Blocks(hits[k + 1..])
  {
    ConcatAt(BlockList(hits), k);
    BlockListTake(hits, k);
    BlockListDrop(hits, k + 1);
  }

  /** A block is its 17 characters of framing around the rendered path and text. */
  lemma BlockLength(h: Hit)
    ensures |Block(h)| == 17 + |HitPath(h)| + |HitText(h)|
  {
    assert |BlockHeader| == 10 && |" ---\n"| == 5 && |"\n\n"| == 2;
  }

  /** The rendered text is as long as all blocks together: 17 characters per hit plus the fields. */
  lemma {:induction false} BlocksLength(hits: seq<Hit>)
    ensures |Blocks(hits)| == 17 * |hits| + FieldLengths(hits)
    decreases |hits|
  {
    if hits != [] {
      var n := |hits| - 1;
      BlocksAt(hits, n);
      assert hits[n + 1..] == [];
      BlocksLength(hits[..n]);
      BlockLength(hits[n]);
    }
  }

  /** Every block opens with `--- File: `. */
  lemma BlockStartsWithHeader(h: Hit)
    ensures BlockHeader <= Block(h)
  {
    var tail := HitPath(h) + " ---\n" + HitText(h) + "\n\n";
    assert Block(h) == BlockHeader + tail;
    PrefixOfAppend(BlockHeader, tail);
  }

  lemma BlocksFirst(hits: seq<Hit>)
    requires hits != []
    ensures Blocks(hits) == Block(hits[0]) + Blocks(hits[1..])
  {
    var lists := BlockList(hits);
    ConcatSplit(lists, 1);
    assert lists[..1][..0] == [];
    assert Concat(lists[..1]) == lists[0];
    BlockListDrop(hits, 1);
  }

  /** With at least one hit the context opens with the first hit's block, so with `--- File: `. */
  lemma ContextStartsWithFirstBlock(hits: seq<Hit>)
    requires hits != []
    ensures Block(hits[0]) <= Context(hits)
    ensures BlockHeader <= Context(hits)
  {
    var first, rest := Block(hits[0]), Blocks(hits[1..]);
    BlocksFirst(hits);
    PrefixOfAppend(first, rest);
    BlockStartsWithHeader(hits[0]);
  }

  /** A failed search looks to the agent exactly like a search without hits. */
  lemma FailedSearchGivesNoResults(r: SearchReply)
    requires r.status != 200
    ensures Context(HitsOf(r)) == NoResults
  {
  }

  /** The context is the no-results sentinel exactly when there is no hit. */
  lemma ContextIsSentinelIff(hits: seq<Hit>)
    ensures Context(hits) == NoResults <==> hits == []
  {
    if hits != [] {
      ContextStartsWithFirstBlock(hits);
      assert BlockHeader[0] == '-' && NoResults[0] == 'N';
    }
  }

  // -------------------------------------------------- search_knowledge_base

  /**
   * `search_knowledge_base(query)`, with the `OPENSEARCH_ENDPOINT` variable as
   * `endpoint`. Without an endpoint it answers the configuration error and makes
   * no call; otherwise it embeds the query once, searches once for three
   * neighbours and renders what the search returned.
   */
  method SearchKnowledgeBase(query: string, endpoint: Option<string>, bedrock: EmbeddingModel, opensearch: SearchIndex)
    returns (context: string)
    modifies bedrock, opensearch
    ensures !Present(endpoint) ==> context == EndpointMissing && unchanged(bedrock) && unchanged(opensearch)
    ensures Present(endpoint) ==>
      var req := SearchRequest(IndexName, bedrock.reply(|old(bedrock.inputs)|, query), endpoint.value, DefaultK);
      && bedrock.inputs == old(bedrock.inputs) + [query]
      && opensearch.searches == old(opensearch.searches) + [req]
      && opensearch.puts == old(opensearch.puts)
      && context == Context(HitsOf(opensearch.searchReply(|old(opensearch.searches)|, req)))
  {
    if !Present(endpoint) {
      return EndpointMissing;
    }
    var queryVector := bedrock.GetEmbedding(query);
    var hits := SearchVectors(opensearch, IndexName, queryVector, endpoint.value, DefaultK);
    context := RenderHits(hits);
  }

  // ---------------------------------------------------------------- handler

  /** The `body` of the API Gateway event, and the `query` field of its decoded JSON. */
  datatype QueryEvent = QueryEvent(body: Option<string>)
  datatype QueryBody = QueryBody(query: Option<string>)

  datatype ResponseBody = Message(message: string) | Answer(answer: string, query: string)
  datatype Response = Response(statusCode: int, body: ResponseBody)

  /**
   * `handler`. `parse` stands for `json.loads` of the body (default `{}`). A
   * missing or empty query answers 400 without constructing or asking an agent;
   * otherwise the agent is asked once and its answer, or the message of the
   * exception it raised, makes up the response.
   */
  method Handle(event: QueryEvent, parse: string -> QueryBody, agent: AgentRuntime) returns (resp: Response)
    modifies agent
    ensures var query := parse(event.body.GetOr("{}")).query;
      && (!Present(query) ==> resp == Response(400, Message("Missing query")) && unchanged(agent))
      && (Present(query) ==>
            && agent.questions == old(agent.questions) + [query.value]
            && match agent.reply(|old(agent.questions)|, query.value)
               case Answered(text) => resp == Response(200, Answer(text, query.value))
               case Raised(msg) => resp == Response(500, Message("Internal error: " + msg)))
  {
    var body := parse(event.body.GetOr("{}"));
    var userQuery := body.query;
    if !Present(userQuery) {
      return Response(400, Message("Missing query"));
    }
    var result := agent.Ask(userQuery.value);
    match result
    case Answered(text) =>
      resp := Response(200, Answer(text, userQuery.value));
    case Raised(msg) =>
      resp := Response(500, Message("Internal error: " + msg));
  }
}
