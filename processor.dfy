/**
 * The per-file ingestion Lambda: fetch one file from GitHub, cut it into
 * overlapping windows, embed each window and PUT it into the OpenSearch index
 * under a document id derived from the commit, the path and the window number.
 */
module Processor {
  import opened Common
  import opened Services

  const DefaultChunkSize: nat := 1000
  const DefaultOverlap: nat := 100
  const IndexName := "rag-index"
  const ContentsApi := "https://api.github.com/repos/"

  function Min(a: int, b: int): int {
    if a <= b then a else b
  }

  /** Python's `s[lo:hi]` for non-negative bounds: both ends clamped to the string. */
  function Slice(s: string, lo: nat, hi: nat): string {
    if lo < hi && lo < |s| then s[lo..Min(hi, |s|)] else []
  }

  // ------------------------------------------------------------- chunk_text

  /** How many of the offsets 0, step, 2*step, ... lie strictly below `len`. */
  function ChunkCount(len: nat, step: nat): nat
    requires step > 0
  {
    (len + step - 1) / step
  }

  lemma ChunkCountIff(len: nat, step: nat, i: nat)
    requires step > 0
    ensures i < ChunkCount(len, step) <==> i * step < len
  {
    var q, r := ChunkCount(len, step), (len + step - 1) % step;
    assert q * step + r == len + step - 1;
    if i < q {
      assert i * step <= (q - 1) * step by { MulLeft(i, q - 1, step); }
    } else {
      assert q * step <= i * step by { MulLeft(q, i, step); }
    }
  }

  lemma MulLeft(a: nat, b: nat, c: nat)
    requires a <= b
    ensures a * c <= b * c
  {
  }

  /** The window `text[start:start+chunkSize]` that iteration `i` of the loop appends. */
  function ChunkAt(text: string, chunkSize: nat, overlap: nat, i: nat): string
    requires overlap < chunkSize
  {
    var start := i * (chunkSize - overlap);
    Slice(text, start, start + chunkSize)
  }

  /** The list `chunk_text(text, chunkSize, overlap)` returns. */
  function Chunks(text: string, chunkSize: nat, overlap: nat): seq<string>
    requires overlap < chunkSize
  {
    seq(ChunkCount(|text|, chunkSize - overlap), i requires 0 <= i => ChunkAt(text, chunkSize, overlap, i))
  }

  /**
   * `chunk_text`: append `text[start:start+chunkSize]` and advance `start` by
   * `chunkSize - overlap` while `start` is below the text's length. The source
   * does not check its parameters; without `overlap < chunkSize` the loop does
   * not terminate on a non-empty text.
   */
  method ChunkText(text: string, chunkSize: int, overlap: int) returns (chunks: seq<string>)
    requires 0 <= overlap < chunkSize
    ensures chunks == Chunks(text, chunkSize, overlap)
  {
    var step := chunkSize - overlap;
    chunks := [];
    var start: nat := 0;
    while start < |text|
      invariant start == |chunks| * step
      invariant |chunks| <= ChunkCount(|text|, step)
      invariant forall j :: 0 <= j < |chunks| ==> chunks[j] == ChunkAt(text, chunkSize, overlap, j)
      decreases |text| - start
    {
      ChunkCountIff(|text|, step, |chunks|);
      var end := start + chunkSize;
      chunks := chunks + [Slice(text, start, end)];
      start := start + step;
    }
    ChunkCountIff(|text|, step, |chunks|);
  }

  /** There is one chunk per multiple of `chunkSize - overlap` strictly below the text's length. */
  lemma ChunkIndexIff(text: string, chunkSize: nat, overlap: nat, i: nat)
    requires overlap < chunkSize
    ensures i < |Chunks(text, chunkSize, overlap)| <==> i * (chunkSize - overlap) < |text|
  {
    ChunkCountIff(|text|, chunkSize - overlap, i);
  }

  /** Chunk `i` is the text from `i * (chunkSize - overlap)`, `chunkSize` long or cut at the text's end. */
  lemma ChunkWindow(text: string, chunkSize: nat, overlap: nat, i: nat)
    requires overlap < chunkSize
    requires i < |Chunks(text, chunkSize, overlap)|
    ensures var start := i * (chunkSize - overlap);
      && start < |text|
      && Chunks(text, chunkSize, overlap)[i] == text[start..Min(start + chunkSize, |text|)]
      && 0 < |Chunks(text, chunkSize, overlap)[i]| <= chunkSize
  {
    ChunkCountIff(|text|, chunkSize - overlap, i);
  }

  /** An empty text yields no chunks, and a non-empty one at least one. */
  lemma NoChunksIffEmpty(text: string, chunkSize: nat, overlap: nat)
    requires overlap < chunkSize
    ensures Chunks(text, chunkSize, overlap) == [] <==> text == []
  {
    ChunkCountIff(|text|, chunkSize - overlap, 0);
  }

  /**
   * A non-empty text yields exactly one chunk, the whole text, if and only if it
   * is no longer than `chunkSize - overlap` (not `chunkSize`: see TrailingChunk).
   */
  lemma SingleChunkIff(text: string, chunkSize: nat, overlap: nat)
    requires overlap < chunkSize
    ensures |Chunks(text, chunkSize, overlap)| == 1 <==> 0 < |text| <= chunkSize - overlap
    ensures 0 < |text| <= chunkSize - overlap ==> Chunks(text, chunkSize, overlap) == [text]
  {
    var step := chunkSize - overlap;
    ChunkCountIff(|text|, step, 0);
    ChunkCountIff(|text|, step, 1);
    if 0 < |text| <= step {
      var cs := Chunks(text, chunkSize, overlap);
      assert 0 * step == 0;
      assert cs[0] == ChunkAt(text, chunkSize, overlap, 0) == Slice(text, 0, chunkSize);
      assert cs[0] == text[0..|text|] == text;
    }
  }

  /** The last chunk runs to the end of the text. */
  lemma LastChunkReachesEnd(text: string, chunkSize: nat, overlap: nat)
    requires overlap < chunkSize
    requires text != []
    ensures var cs := Chunks(text, chunkSize, overlap);
      |cs| > 0 && LastStart(cs, chunkSize - overlap) < |text| && cs[|cs| - 1] == text[LastStart(cs, chunkSize - overlap)..]
  {
    var step, cs := chunkSize - overlap, Chunks(text, chunkSize, overlap);
    NoChunksIffEmpty(text, chunkSize, overlap);
    var last: nat := |cs| - 1;
    var start := last * step;
    assert start + step >= |text| by {
      ChunkIndexIff(text, chunkSize, overlap, last + 1);
      NextStart(last, step);
    }
    ChunkWindow(text, chunkSize, overlap, last);
    assert Min(start + chunkSize, |text|) == |text|;
  }

  /** The offset chunk `|cs| - 1` starts at. */
  function LastStart(cs: seq<string>, step: nat): nat
    requires |cs| > 0
  {
    (|cs| - 1) * step
  }

  lemma NextStart(i: nat, step: nat)
    ensures (i + 1) * step == i * step + step
  {
  }

  /** Every position of the text lies in some chunk, which holds the same character there. */
  lemma ChunksCover(text: string, chunkSize: nat, overlap: nat, p: nat) returns (i: nat)
    requires overlap < chunkSize
    requires p < |text|
    ensures var cs, start := Chunks(text, chunkSize, overlap), i * (chunkSize - overlap);
      && i < |cs|
      && start <= p < start + |cs[i]|
      && cs[i][p - start] == text[p]
  {
    var step := chunkSize - overlap;
    i := p / step;
    var start, r := i * step, p % step;
    assert p == start + r;
    ChunkCountIff(|text|, step, i);
    ChunkWindow(text, chunkSize, overlap, i);
  }

  /**
   * Consecutive chunks overlap: what chunk `i` holds beyond its first
   * `chunkSize - overlap` characters is where chunk `i + 1` begins.
   */
  lemma ConsecutiveChunksOverlap(text: string, chunkSize: nat, overlap: nat, i: nat)
    requires overlap < chunkSize
    requires i + 1 < |Chunks(text, chunkSize, overlap)|
    ensures var cs, step := Chunks(text, chunkSize, overlap), chunkSize - overlap;
      && |cs[i]| >= step
      && cs[i][step..] <= cs[i + 1]
      && |cs[i][step..]| == Min(overlap, |text| - (i + 1) * step)
  {
    var step := chunkSize - overlap;
    var start, next := i * step, (i + 1) * step;
    NextStart(i, step);
    ChunkWindow(text, chunkSize, overlap, i);
    ChunkWindow(text, chunkSize, overlap, i + 1);
  }

  /** With the defaults, a 1050-character text yields `[0,1000)` and `[900,1050)`. */
  lemma DefaultChunksOf1050(text: string)
    requires |text| == 1050
    ensures Chunks(text, DefaultChunkSize, DefaultOverlap) == [text[..1000], text[900..]]
  {
    var cs := Chunks(text, DefaultChunkSize, DefaultOverlap);
    assert ChunkCount(1050, 900) == 2;
    assert cs[0] == ChunkAt(text, 1000, 100, 0) == Slice(text, 0, 1000) == text[..1000];
    assert cs[1] == ChunkAt(text, 1000, 100, 1) == Slice(text, 900, 1900) == text[900..];
  }

  /** With the defaults, an 1850-character text yields three chunks, starting at 0, 900 and 1800. */
  lemma DefaultChunkCountOf1850(text: string)
    requires |text| == 1850
    ensures |Chunks(text, DefaultChunkSize, DefaultOverlap)| == 3
    ensures Chunks(text, DefaultChunkSize, DefaultOverlap)[2] == text[1800..]
  {
    var cs := Chunks(text, DefaultChunkSize, DefaultOverlap);
    assert ChunkCount(1850, 900) == 3;
    assert cs[2] == ChunkAt(text, 1000, 100, 2) == Slice(text, 1800, 2800) == text[1800..];
  }

  /**
   * With the defaults, a text of 901 to 1000 characters yields two chunks: the
   * whole text and again its tail from offset 900, which the first chunk already
   * holds, because the loop stops on the start offset and not on the window's end.
   */
  lemma TrailingChunk(text: string)
    requires DefaultChunkSize - DefaultOverlap < |text| <= DefaultChunkSize
    ensures Chunks(text, DefaultChunkSize, DefaultOverlap) == [text, text[900..]]
  {
    var cs := Chunks(text, DefaultChunkSize, DefaultOverlap);
    assert |cs| == 2 by { ChunkCountIff(|text|, 900, 1); ChunkCountIff(|text|, 900, 2); }
    assert cs[0] == ChunkAt(text, 1000, 100, 0) == Slice(text, 0, 1000) == text[0..|text|] == text;
    assert cs[1] == ChunkAt(text, 1000, 100, 1) == Slice(text, 900, 1900) == text[900..];
  }

  // ------------------------------------------------------------ document id

  /** `f"{sha}-{path}-{i}".replace('/', '-')`. */
  function DocId(sha: string, path: string, i: nat): (id: string)
    ensures '/' !in id
    ensures |id| == |sha| + |path| + 2 + |Decimal(i)|
  {
    ReplaceAll(sha + "-" + path + "-" + Decimal(i), '/', '-')
  }

  /** The id is the normalised `sha-path-` prefix followed by the chunk number. */
  lemma DocIdSplit(sha: string, path: string, i: nat)
    ensures DocId(sha, path, i) == ReplaceAll(sha + "-" + path + "-", '/', '-') + Decimal(i)
  {
    ReplaceAllAppend(sha + "-" + path + "-", Decimal(i), '/', '-');
    ReplaceAllAbsent(Decimal(i), '/', '-');
  }

  /** Different chunks of the same file at the same commit get different ids. */
  lemma DocIdsDistinct(sha: string, path: string, i: nat, j: nat)
    requires i != j
    ensures DocId(sha, path, i) != DocId(sha, path, j)
  {
    var prefix := ReplaceAll(sha + "-" + path + "-", '/', '-');
    DocIdSplit(sha, path, i);
    DocIdSplit(sha, path, j);
    if DocId(sha, path, i) == DocId(sha, path, j) {
      assert Decimal(i) == DocId(sha, path, i)[|prefix|..];
      assert Decimal(j) == DocId(sha, path, j)[|prefix|..];
      DecimalInjective(i, j);
    }
  }

  /** Ids do not tell `/` from `-`: the paths `a/b` and `a-b` share every id. */
  lemma DocIdIgnoresSeparators(sha: string, path: string, i: nat)
    ensures DocId(sha, path, i) == DocId(sha, ReplaceAll(path, '/', '-'), i)
  {
    var p' := ReplaceAll(path, '/', '-');
    var head, tail := sha + "-", "-" + Decimal(i);
    assert sha + "-" + path + "-" + Decimal(i) == (head + path) + tail;
    assert sha + "-" + p' + "-" + Decimal(i) == (head + p') + tail;
    ReplaceAllAppend(head + path, tail, '/', '-');
    ReplaceAllAppend(head, path, '/', '-');
    ReplaceAllAppend(head + p', tail, '/', '-');
    ReplaceAllAppend(head, p', '/', '-');
    ReplaceAllAbsent(p', '/', '-');
  }

  // ---------------------------------------------------------------- handler

  /** The fields the handler reads from its event; `status` is not among them. */
  datatype ChunkEvent = ChunkEvent(path: Option<string>, repository: Option<string>, commitSha: Option<string>)

  datatype Response = Response(statusCode: int, body: string)

  /** The request `get_github_content(repo, path, pat)` sends. */
  function FetchFor(repo: Option<string>, path: Option<string>, pat: string): FetchRequest {
    FetchRequest(ContentsApi + PyStr(repo) + "/contents/" + PyStr(path), "token " + pat)
  }

  /** What `get_github_content` makes of the reply: the content for a 200, otherwise None. */
  function Fetched(r: FetchReply): (content: Option<string>)
    ensures content.Some? <==> r.status == 200
  {
    if r.status != 200 then None else Some(r.content)
  }

  method GetGithubContent(github: SourceHost, repo: Option<string>, path: Option<string>, pat: string)
    returns (content: Option<string>)
    modifies github
    ensures github.requests == old(github.requests) + [FetchFor(repo, path, pat)]
    ensures content == Fetched(github.reply(|old(github.requests)|, FetchFor(repo, path, pat)))
  {
    var response := github.Get(FetchFor(repo, path, pat));
    if response.status != 200 {
      return None;
    }
    content := Some(response.content);
  }

  /** The PUT issued for chunk `i`. */
  function IndexRequestFor(event: ChunkEvent, endpoint: Option<string>, i: nat, chunk: string, vector: Vector)
    : IndexRequest
  {
    IndexRequest(IndexName, DocId(PyStr(event.commitSha), PyStr(event.path), i), vector, chunk,
                 ChunkMetadata(event.path, event.repository, event.commitSha, i), endpoint)
  }

  /** The PUTs for all chunks, in chunk order, given the embedding of each. */
  function IndexPlan(event: ChunkEvent, endpoint: Option<string>, chunks: seq<string>, vectors: seq<Vector>)
    : seq<IndexRequest>
    requires |vectors| == |chunks|
  {
    seq(|chunks|, i requires 0 <= i < |chunks| => IndexRequestFor(event, endpoint, i, chunks[i], vectors[i]))
  }

  /** The vectors the model returns for `texts`, asked one after the other from call number `base`. */
  function Embeddings(reply: (nat, string) -> Vector, base: nat, texts: seq<string>): (vs: seq<Vector>)
    ensures |vs| == |texts|
  {
    seq(|texts|, i requires 0 <= i < |texts| => reply(base + i, texts[i]))
  }

  /**
   * Request `i` of the plan carries chunk `i`, its vector and the metadata
   * `{path, repository, commit_sha, chunk_index: i}`, goes to `rag-index`
   * under an id without `/`, and no two requests share an id.
   */
  lemma IndexPlanShape(event: ChunkEvent, endpoint: Option<string>, chunks: seq<string>, vectors: seq<Vector>)
    requires |vectors| == |chunks|
    ensures var plan := IndexPlan(event, endpoint, chunks, vectors);
      && |plan| == |chunks|
      && (forall i :: 0 <= i < |plan| ==>
            && plan[i].indexName == IndexName
            && plan[i].text == chunks[i]
            && plan[i].vector == vectors[i]
            && plan[i].metadata == ChunkMetadata(event.path, event.repository, event.commitSha, i)
            && plan[i].endpoint == endpoint
            && '/' !in plan[i].docId)
      && (forall i, j :: 0 <= i < j < |plan| ==> plan[i].docId != plan[j].docId)
  {
    var plan := IndexPlan(event, endpoint, chunks, vectors);
    forall i, j | 0 <= i < j < |plan| ensures plan[i].docId != plan[j].docId {
      DocIdsDistinct(PyStr(event.commitSha), PyStr(event.path), i, j);
    }
  }

  lemma IndexPlanSnoc(event: ChunkEvent, endpoint: Option<string>, reply: (nat, string) -> Vector,
                      base: nat, chunks: seq<string>, i: nat)
    requires i < |chunks|
    ensures IndexPlan(event, endpoint, chunks[..i + 1], Embeddings(reply, base, chunks[..i + 1]))
         == IndexPlan(event, endpoint, chunks[..i], Embeddings(reply, base, chunks[..i]))
            + [IndexRequestFor(event, endpoint, i, chunks[i], reply(base + i, chunks[i]))]
  {
  }

  /**
   * The `for i, chunk in enumerate(chunks)` loop of `handler`: every chunk is
   * embedded and then PUT under its id and metadata, in chunk order, whatever
   * statuses the PUTs return.
   */
  method IndexChunks(event: ChunkEvent, endpoint: Option<string>, chunks: seq<string>,
                     bedrock: EmbeddingModel, opensearch: SearchIndex)
    modifies bedrock, opensearch
    ensures bedrock.inputs == old(bedrock.inputs) + chunks
    ensures opensearch.puts == old(opensearch.puts)
              + IndexPlan(event, endpoint, chunks, Embeddings(bedrock.reply, |old(bedrock.inputs)|, chunks))
    ensures opensearch.searches == old(opensearch.searches)
  {
    ghost var inputs0, puts0 := bedrock.inputs, opensearch.puts;
    for i := 0 to |chunks|
      invariant bedrock.inputs == inputs0 + chunks[..i]
      invariant opensearch.puts
        == puts0 + IndexPlan(event, endpoint, chunks[..i], Embeddings(bedrock.reply, |inputs0|, chunks[..i]))
      invariant opensearch.searches == old(opensearch.searches)
    {
      var embedding := bedrock.GetEmbedding(chunks[i]);
      var docId := DocId(PyStr(event.commitSha), PyStr(event.path), i);
      var metadata := ChunkMetadata(event.path, event.repository, event.commitSha, i);
      var _ := opensearch.IndexDocument(IndexRequest(IndexName, docId, embedding, chunks[i], metadata, endpoint));
      IndexPlanSnoc(event, endpoint, bedrock.reply, |inputs0|, chunks, i);
    }
    assert chunks[..|chunks|] == chunks;
  }

  /**
   * `handler`: a missing token answers 500 before any call; a failed or empty
   * fetch answers 404 before any embedding or indexing; otherwise every chunk
   * is embedded and PUT in order and the answer is 200 with the chunk count,
   * whatever statuses the PUTs returned.
   */
  method Handle(event: ChunkEvent, pat: Option<string>, endpoint: Option<string>,
                github: SourceHost, bedrock: EmbeddingModel, opensearch: SearchIndex)
    returns (resp: Response)
    modifies github, bedrock, opensearch
    ensures !Present(pat) ==>
      && resp == Response(500, "Missing GITHUB_PAT")
      && unchanged(github) && unchanged(bedrock) && unchanged(opensearch)
    ensures Present(pat) ==>
      github.requests == old(github.requests) + [FetchFor(event.repository, event.path, pat.value)]
    ensures Present(pat) ==>
      var content := Fetched(github.reply(|old(github.requests)|, FetchFor(event.repository, event.path, pat.value)));
      && (!Present(content) ==>
            resp == Response(404, "File not found") && unchanged(bedrock) && unchanged(opensearch))
      && (Present(content) ==>
            var chunks := Chunks(content.value, DefaultChunkSize, DefaultOverlap);
            && resp == Response(200, "Processed " + Decimal(|chunks|) + " chunks")
            && bedrock.inputs == old(bedrock.inputs) + chunks
            && opensearch.puts == old(opensearch.puts)
                 + IndexPlan(event, endpoint, chunks, Embeddings(bedrock.reply, |old(bedrock.inputs)|, chunks))
            && opensearch.searches == old(opensearch.searches))
  {
    if !Present(pat) {
      return Response(500, "Missing GITHUB_PAT");
    }
    var content := GetGithubContent(github, event.repository, event.path, pat.value);
    if !Present(content) {
      return Response(404, "File not found");
    }
    var chunks := ChunkText(content.value, DefaultChunkSize, DefaultOverlap);
    IndexChunks(event, endpoint, chunks, bedrock, opensearch);
    resp := Response(200, "Processed " + Decimal(|chunks|) + " chunks");
  }
}
