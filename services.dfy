/**
 * The external collaborators the handlers call over the network: the GitHub
 * contents API, the Bedrock embedding model, the OpenSearch collection, the Step
 * Functions state machine and the Strands agent. Each is a class that records
 * every request it receives, in order, and answers with an uninterpreted reply
 * function of the call's position and the request, so any scripted behaviour
 * of the remote service can be described by choosing that function.
 */
module Services {
  import opened Common

  /** An embedding vector; the handlers only pass it through. */
  datatype Vector = Vector(components: seq<real>)

  // ---------------------------------------------------------------- GitHub

  /** A GET of `/repos/{repo}/contents/{path}` with `Authorization: token {pat}`. */
  datatype FetchRequest = FetchRequest(url: string, authorization: string)

  /** The HTTP status and, for a 200, the base64-decoded `content` field. */
  datatype FetchReply = FetchReply(status: int, content: string)

  class SourceHost {
    var requests: seq<FetchRequest>
    const reply: (nat, FetchRequest) -> FetchReply

    constructor (reply: (nat, FetchRequest) -> FetchReply)
      ensures requests == [] && this.reply == reply
    {
      requests := [];
      this.reply := reply;
    }

    method Get(req: FetchRequest) returns (r: FetchReply)
      modifies this
      ensures requests == old(requests) + [req]
      ensures r == reply(|old(requests)|, req)
    {
      r := reply(|requests|, req);
      requests := requests + [req];
    }
  }

  // --------------------------------------------------------------- Bedrock

  /** The Titan text-embedding model behind `bedrock.invoke_model`. */
  class EmbeddingModel {
    var inputs: seq<string>
    const reply: (nat, string) -> Vector

    constructor (reply: (nat, string) -> Vector)
      ensures inputs == [] && this.reply == reply
    {
      inputs := [];
      this.reply := reply;
    }

    /** `get_embedding(text)`: one model invocation with `inputText`, returning its `embedding`. */
    method GetEmbedding(text: string) returns (v: Vector)
      modifies this
      ensures inputs == old(inputs) + [text]
      ensures v == reply(|old(inputs)|, text)
    {
      v := reply(|inputs|, text);
      inputs := inputs + [text];
    }
  }

  // ------------------------------------------------------------ OpenSearch

  /** The `metadata` object stored with every indexed chunk. */
  datatype ChunkMetadata = ChunkMetadata(
    path: Option<string>, repository: Option<string>, commitSha: Option<string>, chunkIndex: nat)

  /** A signed PUT of `{endpoint}/{indexName}/_doc/{docId}` with the vector, text and metadata. */
  datatype IndexRequest = IndexRequest(
    indexName: string, docId: string, vector: Vector, text: string,
    metadata: ChunkMetadata, endpoint: Option<string>)

  /** A signed POST of a k-nearest-neighbour query to `{endpoint}/{indexName}/_search`. */
  datatype SearchRequest = SearchRequest(indexName: string, vector: Vector, endpoint: string, k: nat)

  /** The `path` field of a hit's stored metadata, when there is one. */
  datatype HitMetadata = HitMetadata(path: Option<string>)

  /** A hit's `_source`: its optional `metadata` and `text` fields. */
  datatype HitSource = HitSource(metadata: Option<HitMetadata>, text: Option<string>)

  datatype Hit = Hit(source: Option<HitSource>)

  /** The HTTP status and the decoded `hits.hits` list, absent when either level is missing. */
  datatype SearchReply = SearchReply(status: int, hits: Option<seq<Hit>>)

  class SearchIndex {
    var puts: seq<IndexRequest>
    var searches: seq<SearchRequest>
    const putReply: (nat, IndexRequest) -> int
    const searchReply: (nat, SearchRequest) -> SearchReply

    constructor (putReply: (nat, IndexRequest) -> int, searchReply: (nat, SearchRequest) -> SearchReply)
      ensures puts == [] && searches == []
      ensures this.putReply == putReply && this.searchReply == searchReply
    {
      puts, searches := [], [];
      this.putReply, this.searchReply := putReply, searchReply;
    }

    /** `index_document(...)`: one PUT; returns the HTTP status. */
    method IndexDocument(req: IndexRequest) returns (status: int)
      modifies this
      ensures puts == old(puts) + [req] && searches == old(searches)
      ensures status == putReply(|old(puts)|, req)
    {
      status := putReply(|puts|, req);
      puts := puts + [req];
    }

    method Search(req: SearchRequest) returns (r: SearchReply)
      modifies this
      ensures searches == old(searches) + [req] && puts == old(puts)
      ensures r == searchReply(|old(searches)|, req)
    {
      r := searchReply(|searches|, req);
      searches := searches + [req];
    }
  }

  // -------------------------------------------------------- Step Functions

  /** `start_execution(stateMachineArn=arn, input=...)`; the input is kept structured, not as JSON text. */
  datatype StartRequest<Input> = StartRequest(stateMachineArn: string, input: Input)

  class Workflow<Input> {
    var started: seq<StartRequest<Input>>
    /** The `executionArn` of the reply. */
    const reply: (nat, StartRequest<Input>) -> string

    constructor (reply: (nat, StartRequest<Input>) -> string)
      ensures started == [] && this.reply == reply
    {
      started := [];
      this.reply := reply;
    }

    method StartExecution(req: StartRequest<Input>) returns (executionArn: string)
      modifies this
      ensures started == old(started) + [req]
      ensures executionArn == reply(|old(started)|, req)
    {
      executionArn := reply(|started|, req);
      started := started + [req];
    }
  }

  // ---------------------------------------------------------------- Agent

  /** What calling the Strands agent yields: its answer, or the text of the exception it raised. */
  datatype AgentResult = Answered(text: string) | Raised(message: string)

  /** The Bedrock-backed agent; it is constructed and asked once per query. */
  class AgentRuntime {
    var questions: seq<string>
    const reply: (nat, string) -> AgentResult

    constructor (reply: (nat, string) -> AgentResult)
      ensures questions == [] && this.reply == reply
    {
      questions := [];
      this.reply := reply;
    }

    method Ask(question: string) returns (r: AgentResult)
      modifies this
      ensures questions == old(questions) + [question]
      ensures r == reply(|old(questions)|, question)
    {
      r := reply(|questions|, question);
      questions := questions + [question];
    }
  }
}
