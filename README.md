# aws-live-rag-sync, modelled in Dafny

aws-live-rag-sync keeps an OpenSearch vector index in step with a GitHub repository. An answering agent can then look up code passages. This project models the sequential logic of its three Lambda handlers and proves properties about that model.

- **Push webhook** (`src/ingestion/webhook_handler.py`).
  - It checks the `X-Hub-Signature-256` header.
  - It flattens the pushed commits into one change record per touched file: added, then modified, then removed, commit by commit.
  - It starts one Step Functions execution for the list.
- **Ingestion processor** (`src/ingestion/processor.py`).
  - It handles one change record.
  - It fetches the file from the GitHub contents API.
  - It cuts the text into overlapping windows with `chunk_text`.
  - It embeds each window and PUTs it into the index under the id `f"{sha}-{path}-{i}".replace('/', '-')`.
- **Query path** (`src/query/rag_agent.py`).
  - The `search_knowledge_base` tool embeds the query, runs a 3-nearest-neighbour search and renders the hits as labelled blocks, with fixed sentinel strings.
  - The handler passes the user's query to the agent.

## Layout

- `common.dfy` (module `Common`) holds the Python semantics the handlers rely on:
  - `Option`, which stands for `dict.get`;
  - truthiness of optional strings;
  - f-string rendering of `None`;
  - `str(n)`;
  - single-character `str.replace`;
  - a generic `Concat` with its lemmas, for the loops that build a list or a string piece by piece.
- `services.dfy` (module `Services`) holds the remote collaborators, one class each: GitHub, the Bedrock embedding model, OpenSearch, Step Functions and the Strands agent.
  - Each class records every request it receives, in order, in a field that its methods extend.
  - Each answers through a reply function of the call's position and the request.
  - Choosing that function describes any behaviour of the remote service, including different answers to repeated identical requests.
- `processor.dfy`, `webhook.dfy` and `rag_agent.dfy` model the three handler files.
  - The loops of the source are `while`/`for` loops here.
  - Each loop is proved against a specification function: `Chunks`, `Flattened`, `Context` and `IndexPlan`.
  - The lemmas state the properties of those functions.

Environment variables (`GITHUB_PAT`, `OPENSEARCH_ENDPOINT`, `STEP_FUNCTION_ARN`) are method parameters. `json.loads` of an event body is a function parameter, `parse`. An absent key is `None`.

## Where the code and the design description differ

The model follows the code.

- **Single chunk.** The design says a text shorter than the chunk size gives exactly one chunk. `chunk_text` stops only when the start offset reaches the text's length. A text of `size - overlap < L <= size` characters (901 to 1000 with the defaults) therefore gives at least two chunks: the whole text, then its tail from offset `size - overlap` (900 with the defaults). It gives exactly two when `L <= 2*(size - overlap)`, which always holds with the defaults. `SingleChunkIff` proves that one chunk arises exactly when `0 < L <= size - overlap`. `TrailingChunk` shows the two-chunk case.
- **Chunk count.** The code gives `ceil(L / (size - overlap))` chunks, one per multiple of `size - overlap` below `L` (`ChunkIndexIff`). The design's count is `ceil(max(L - overlap, 0) / (size - overlap))`. The two differ exactly when a multiple of `size - overlap` lies in `[max(L - overlap, 0), L)`. With the defaults that is `L` in 1..100, 901..1000, 1801..1900, and so on. For example, they agree for `L = 1050` (2 chunks, `DefaultChunksOf1050`), and at `L = 1850` the code gives 3 chunks where the design's count is 2 (`DefaultChunkCountOf1850`).
- **Overlaps.** Chunk `i` and chunk `i + 1` share `min(overlap, L - (i+1)*(size - overlap))` characters (`ConsecutiveChunksOverlap`). This is less than `overlap` whenever the text ends within `overlap` characters of where chunk `i + 1` starts. When `overlap > size - overlap`, that can happen before the last chunk too.
- **Fail-fast.** `chunk_text` has no `InvalidConfiguration` fail-fast. The model's precondition is `0 <= overlap < chunk_size`. Of its two halves, `overlap < chunk_size` is needed: with `overlap >= chunk_size` the loop never ends on a non-empty text. With a positive chunk size, a negative overlap still terminates, with gaps between the chunks. With `chunk_size <= 0` and `overlap < chunk_size`, it takes slices that are empty or that count from the end of the string (`text[0:-3]` for `chunk_size = -3`). The `0 <=` half leaves out both kinds of call. The only caller uses the defaults (`processor.py:105`). The design demands `0 < overlap`, but the code also works with `overlap = 0`.
- **No removal or delete-before-modify.** The processor ignores the record's `status`. It has no removal branch and no delete-before-modify.
- **Statuses and retries.** The processor ignores the status of every PUT and answers 200 with the chunk count. It does not aggregate per-chunk failures and does not retry.

## Model

| member | source | states |
|---|---|---|
| Processor.ChunkText | src/ingestion/processor.py:34-42 | for `0 <= overlap < chunkSize` the loop terminates and returns exactly `Chunks(text, chunkSize, overlap)`: chunk `i` is the clamped slice `text[i*(size-overlap) : i*(size-overlap)+size]`, for every multiple of the step below the length |
| Processor.ChunkCountIff | src/ingestion/processor.py:38-41 | offset number `i` is below the text's length iff `i` is below the chunk count `ceil(len/step)` |
| Processor.ChunkIndexIff | src/ingestion/processor.py:38-41 | the chunks are exactly one per multiple of `chunkSize - overlap` strictly below the text's length |
| Processor.ChunkWindow | src/ingestion/processor.py:38-41 | chunk `i` starts inside the text, equals `text[start..min(start+chunkSize, len)]`, and is non-empty and at most `chunkSize` long |
| Processor.NoChunksIffEmpty | src/ingestion/processor.py:36-38 | the chunk list is empty iff the text is empty |
| Processor.SingleChunkIff | src/ingestion/processor.py:37-42 | exactly one chunk iff `0 < len <= chunkSize - overlap`, and that chunk is the whole text |
| Processor.DefaultChunkCountOf1850 | src/ingestion/processor.py:38-41 | with the defaults, an 1850-character text gives three chunks, the last being `text[1800:]` |
| Processor.TrailingChunk | src/ingestion/processor.py:37-42 | with the defaults, a text of 901 to 1000 characters gives `[text, text[900..]]`, not one chunk |
| Processor.LastChunkReachesEnd | src/ingestion/processor.py:38-41 | for a non-empty text the last chunk runs from its start offset to the end of the text |
| Processor.ChunksCover | src/ingestion/processor.py:38-41 | every position of the text lies in some chunk, which has the same character there |
| Processor.ConsecutiveChunksOverlap | src/ingestion/processor.py:38-41 | chunk `i` holds at least a step of characters; what follows them is a prefix of chunk `i+1`, `min(overlap, len - (i+1)*step)` long |
| Processor.DefaultChunksOf1050 | src/ingestion/processor.py:34-42 | with the defaults, a 1050-character text gives the chunks `[0,1000)` and `[900,1050)` |
| Processor.DocId | src/ingestion/processor.py:109 | the doc id never contains `/` and is as long as `sha`, `path`, two dashes and the decimal index together |
| Processor.DocIdSplit | src/ingestion/processor.py:109 | the id is the normalised `sha-path-` prefix followed by the decimal chunk index |
| Processor.DocIdsDistinct | src/ingestion/processor.py:109 | for fixed sha and path, distinct chunk indices give distinct ids |
| Processor.DocIdIgnoresSeparators | src/ingestion/processor.py:109 | the id does not tell `/` from `-` in the path: `a/b` and `a-b` get the same ids |
| Processor.Fetched | src/ingestion/processor.py:26-32 | the fetch yields content iff the status is 200 |
| Processor.GetGithubContent | src/ingestion/processor.py:17-32 | exactly one GET of `https://api.github.com/repos/{repo}/contents/{path}` with `Authorization: token {pat}`; its content on a 200, otherwise None |
| Processor.IndexPlanShape | src/ingestion/processor.py:107-118 | PUT `i` goes to `rag-index` with chunk `i`, its vector, metadata `{path, repository, commit_sha, chunk_index: i}` and the endpoint, under an id without `/`; no two PUTs share an id |
| Processor.IndexPlanSnoc | src/ingestion/processor.py:107-118 | the PUTs for the first `i+1` chunks are those for the first `i` followed by the PUT for chunk `i` |
| Processor.IndexChunks | src/ingestion/processor.py:107-119 | every chunk is embedded once and PUT once, in chunk order, each PUT carrying the embedding returned for that chunk; no search is made |
| Processor.Handle | src/ingestion/processor.py:82-121 | missing token: 500 and no call. Otherwise one fetch; failed or empty content: 404 and no embedding or PUT. Otherwise the embeddings and PUTs of `IndexChunks` for `Chunks(content, 1000, 100)` and 200 `Processed {n} chunks`, whatever the PUT statuses |
| Services.SourceHost.Get | src/ingestion/processor.py:24 | one request is appended to the log; the reply is the host's answer to that call |
| Services.EmbeddingModel.GetEmbedding | src/ingestion/processor.py:44-57 | one model invocation with the text is logged; the vector is the model's answer to that call |
| Services.SearchIndex.IndexDocument | src/ingestion/processor.py:59-80 | one PUT is logged and no search; the status is the index's answer to that call |
| Services.SearchIndex.Search | src/query/rag_agent.py:33-58 | one search is logged and no PUT; the reply is the index's answer to that call |
| Services.Workflow.StartExecution | src/ingestion/webhook_handler.py:66-69 | one execution start is logged; the ARN is the service's answer to that call |
| Services.AgentRuntime.Ask | src/query/rag_agent.py:124-125 | one question is logged; the result is the agent's answer or the text of the exception it raised |
| Common.Decimal | src/ingestion/processor.py:109 | `str(n)` is a non-empty string of decimal digits, a single digit exactly for `n < 10` |
| Common.DecimalInjective | src/ingestion/processor.py:109 | distinct numbers have distinct decimal renderings |
| Common.ReplaceAll | src/ingestion/processor.py:109 | `s.replace(a, b)` for characters keeps the length, replaces exactly the occurrences of `a` position by position, and leaves no `a` |
| Common.ReplaceAllAppend | src/ingestion/processor.py:109 | replacement distributes over concatenation |
| Common.ReplaceAllAbsent | src/ingestion/processor.py:109 | a string without `a` is unchanged by the replacement |
| Webhook.ValidateSignature | src/ingestion/webhook_handler.py:9-17 | false when the header is absent; true iff the header equals `sha256=` followed by the HMAC hex digest of the body under the secret |
| Webhook.LabelsDistinct | src/ingestion/webhook_handler.py:44-51 | the status strings `added`, `modified` and `removed` are distinct, so a record's status string identifies its kind |
| Webhook.FieldsInjective | src/ingestion/webhook_handler.py:44-51 | the dictionary `{path, status string, commit_sha}` a record stands for determines the record |
| Webhook.Tagged | src/ingestion/webhook_handler.py:43-51 | one record per path, in list order, each with the given status and commit id; as a dictionary, `{path, "added"/"modified"/"removed", commit id}` |
| Webhook.AppendTagged | src/ingestion/webhook_handler.py:43-44 | the loop over one list appends exactly that list's records, in order, after the existing ones |
| Webhook.CollectFiles | src/ingestion/webhook_handler.py:39-51 | the nested loops produce `Flattened(commits)`: commit after commit, added, then modified, then removed records |
| Webhook.FlattenedLength | src/ingestion/webhook_handler.py:42-51 | the list has one record per listed file: the sum over commits of `|added| + |modified| + |removed|` |
| Webhook.NoFilesIff | src/ingestion/webhook_handler.py:42-53 | nothing to process iff no commit lists a file |
| Webhook.FlattenedAt | src/ingestion/webhook_handler.py:42-51 | commit `k`'s records form one block between those of the commits before and after it |
| Webhook.CommitRecordsMembership | src/ingestion/webhook_handler.py:43-51 | a record comes from a commit iff it names the commit's id and one of its files of the record's status |
| Webhook.FlattenedMembership | src/ingestion/webhook_handler.py:42-51 | a record is in the list iff some commit of the payload produced it; no file is lost and none invented |
| Webhook.Handle | src/ingestion/webhook_handler.py:19-74 | bad signature: 401 and no execution; no files: 200 `No files to process` and no execution; otherwise exactly one execution, with the full record list and `repository.full_name`, and 200 with its ARN |
| RagAgent.HitsOf | src/query/rag_agent.py:60-66 | a non-200 search yields no hits; otherwise `hits.hits`, empty if missing |
| RagAgent.SearchVectors | src/query/rag_agent.py:33-66 | exactly one search of the index with the vector, endpoint and `k`, and no PUT; its hits as `HitsOf` says |
| RagAgent.HitPath | src/query/rag_agent.py:93-94 | a hit with no `_source`, `metadata` or `path` renders path `unknown` |
| RagAgent.HitText | src/query/rag_agent.py:93-95 | a hit with no `_source` or `text` renders an empty text |
| RagAgent.RenderHits | src/query/rag_agent.py:88-98 | no hits: `No relevant code found.`; otherwise the concatenation, in hit order, of `--- File: {path} ---\n{text}\n\n` per hit |
| RagAgent.BlocksAt | src/query/rag_agent.py:92-96 | hit `k`'s block sits between the blocks of the hits before and after it: no hit is dropped or moved |
| RagAgent.BlockLength | src/query/rag_agent.py:96 | a block is its path and text with 17 characters of framing |
| RagAgent.BlocksLength | src/query/rag_agent.py:92-98 | the rendered text is as long as all blocks together: 17 per hit plus the paths' and texts' lengths |
| RagAgent.BlockStartsWithHeader | src/query/rag_agent.py:96 | every block opens with `--- File: ` |
| RagAgent.BlocksFirst | src/query/rag_agent.py:92-96 | the rendered text is the first hit's block followed by the blocks of the rest |
| RagAgent.ContextStartsWithFirstBlock | src/query/rag_agent.py:89-98 | with at least one hit the context opens with the first hit's block, so with `--- File: ` |
| RagAgent.FailedSearchGivesNoResults | src/query/rag_agent.py:60-62 | a non-200 search renders as the no-results sentinel |
| RagAgent.ContextIsSentinelIff | src/query/rag_agent.py:89-98 | the context is the no-results sentinel iff there are no hits |
| RagAgent.SearchKnowledgeBase | src/query/rag_agent.py:70-98 | missing endpoint: the configuration error and no embedding or search; otherwise one embedding of the query, one search for 3 neighbours with its vector, and the rendering of what that search returned |
| RagAgent.Handle | src/query/rag_agent.py:100-139 | missing or empty query: 400 `Missing query` and no agent call; otherwise one agent call, 200 with the answer and the query, or 500 `Internal error: {message}` when the agent raised |

## Left out

- HTTP transport, request headers other than `Authorization`, SigV4 signing, and the region and credential lookups of `index_document` and `search_vectors`. These are I/O and library calls. A request is modelled by the fields the handlers choose.
- HMAC-SHA256: `validate_signature` receives the hex digest as a function of the secret and the body. `hmac.compare_digest`'s constant-time comparison is plain string equality.
- JSON and base64 decoding: a fetch reply carries the already decoded `content`, and search and embedding replies carry their decoded fields. Event bodies go through the `parse` parameter. Malformed JSON, missing `content`, bad base64 and bad UTF-8 raise exceptions in the source, and exceptions are not modelled.
- Other exceptions not modelled: the missing `id` of a commit (`commit['id']`), a missing `STEP_FUNCTION_ARN` or `AWS_REGION`, a JSON `null` where a dictionary or a list is expected (a present but null `commits`, `added`, `modified` or `removed` makes the `for` loop raise `TypeError`, where the model reads `None` as an absent key and iterates `[]`), and a failed agent construction. A JSON `null` as a hit's `path` or `text`, which the f-string would render as `None`, is not modelled either: a field is either present as a string or absent.
- Embedding vectors are opaque values that the handlers only pass on.
- Response bodies are structured values, not the JSON text `json.dumps` produces. The Step Functions input is likewise a structured value.
- The agent's configuration (model id, temperature, system prompt) and the way it calls the tool are not modelled. The agent is one call that answers or raises.
- `print` logging, and the `json.dumps(event)` log line at the top of each handler.
- `src/ingestion/index_manager.py` is not part of this model: it is a single delete-by-query request plus a missing-path check.
- Remote replies depend only on the call's position and the request, not on earlier side effects such as an indexed document becoming searchable.
- Processor.ChunkText: the source accepts any integers. The model requires `0 <= overlap < chunkSize`. Without `overlap < chunkSize` the loop does not terminate on a non-empty text. The `0 <=` half leaves out calls with a negative overlap. With a positive chunk size those terminate and leave gaps between the chunks. With a chunk size of zero or less they take empty slices or slices that count from the end of the string. No caller makes such calls.
- Remote calls never raise in the model: every collaborator always answers. The contracts of `Processor.Handle`, `Processor.IndexChunks`, `Webhook.Handle`, `RagAgent.SearchKnowledgeBase` and `RagAgent.Handle` therefore describe only runs in which no call raises. The source raises in these cases, which the model does not capture:
  - **Missing endpoint.** Without `OPENSEARCH_ENDPOINT` the processor builds the PUT URL `None/rag-index/_doc/...`. That request fails, so the handler raises after the first embedding. The model instead records a PUT with endpoint `None` and answers 200.
  - **A call that raises part-way.** If an HTTP request, a model invocation or `start_execution` raises, the handler stops with only some chunks embedded or indexed. `IndexChunks` always completes.
  - **Non-ASCII signature header.** `hmac.compare_digest` raises `TypeError` for one, where `ValidateSignature` returns false.
  - **`"body": null`.** API Gateway sends this for body-less requests. It makes `body.encode` raise in the webhook (when a signature header is present) and `json.loads` raise in the query handler. In the model, `None` means an absent key and defaults to `""` or `"{}"`.
  - **An unserialisable answer.** `json.dumps` of the agent's answer runs inside the `try`, so an answer it rejects goes to the 500 branch. `Answered(text)` assumes the agent returns a serialisable string.
