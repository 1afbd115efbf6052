/**
 * The GitHub push webhook Lambda: authenticate the request by its
 * `X-Hub-Signature-256` header, flatten the pushed commits into one change
 * record per touched file and start one Step Functions execution for them.
 */
module Webhook {
  import opened Common
  import opened Services

  const SignatureHeader := "X-Hub-Signature-256"
  /** The handler signs with this placeholder; no secret is fetched. */
  const GithubSecret := "TODO_SECRET"

  // ----------------------------------------------------- validate_signature

  /**
   * `validate_signature`. `hmacHex(secret, body)` stands for
   * `hmac.new(secret, body, sha256).hexdigest()`; the constant-time comparison
   * is string equality. An absent or empty header is rejected; otherwise the
   * header must be `sha256=` followed by the digest, so the emptiness check
   * rejects nothing the comparison would accept.
   */
  function ValidateSignature(headers: map<string, string>, body: string, secret: string,
                             hmacHex: (string, string) -> string): (valid: bool)
    ensures SignatureHeader !in headers ==> !valid
    ensures valid <==> SignatureHeader in headers && headers[SignatureHeader] == "sha256=" + hmacHex(secret, body)
  {
    if SignatureHeader !in headers || headers[SignatureHeader] == "" then false
    else headers[SignatureHeader] == "sha256=" + hmacHex(secret, body)
  }

  // -------------------------------------------------------- change records

  datatype ChangeKind = Added | Modified | Removed {
    /** The `status` string of the record. */
    function Label(): string {
      match this
      case Added => "added"
      case Modified => "modified"
      case Removed => "removed"
    }
  }

  /** The three status strings are distinct, so a record's `status` tells its kind. */
  lemma LabelsDistinct(a: ChangeKind, b: ChangeKind)
    ensures a.Label() == b.Label() <==> a == b
  {
    if a != b {
      assert a.Label()[0] != b.Label()[0];
    }
  }

  /** The dictionary `{"path": ..., "status": ..., "commit_sha": ...}` the handler appends, with its status string. */
  datatype RecordFields = RecordFields(path: string, status: string, commitSha: string)

  /** A change record, with its status as a kind; `Fields` is the dictionary it stands for. */
  datatype FileRecord = FileRecord(path: string, status: ChangeKind, commitSha: string) {
    function Fields(): RecordFields {
      RecordFields(path, status.Label(), commitSha)
    }
  }

  /** The dictionary determines the record: no information is lost by writing the kind as its string. */
  lemma FieldsInjective(a: FileRecord, b: FileRecord)
    ensures a.Fields() == b.Fields() <==> a == b
  {
    LabelsDistinct(a.status, b.status);
  }

  /** A pushed commit: its `id` and its optional `added`, `modified` and `removed` lists. */
  datatype Commit = Commit(id: string, added: Option<seq<string>>, modified: Option<seq<string>>,
                           removed: Option<seq<string>>) {
    /** The list of the given kind, empty when the field is missing. */
    function Paths(kind: ChangeKind): seq<string> {
      match kind
      case Added => added.GetOr([])
      case Modified => modified.GetOr([])
      case Removed => removed.GetOr([])
    }

    function FileCount(): nat {
      |Paths(Added)| + |Paths(Modified)| + |Paths(Removed)|
    }
  }

  datatype RepositoryInfo = RepositoryInfo(fullName: Option<string>)

  /** The decoded push payload: optional `commits` and `repository` fields. */
  datatype Payload = Payload(commits: Option<seq<Commit>>, repository: Option<RepositoryInfo>)

  /** One record of the given kind and commit per path, in list order. */
  function Tagged(paths: seq<string>, kind: ChangeKind, id: string): (rs: seq<FileRecord>)
    ensures |rs| == |paths|
    ensures forall j :: 0 <= j < |rs| ==> rs[j] == FileRecord(paths[j], kind, id)
    ensures forall j :: 0 <= j < |rs| ==> rs[j].Fields() == RecordFields(paths[j], kind.Label(), id)
  {
    if paths == [] then []
    else Tagged(paths[..|paths| - 1], kind, id) + [FileRecord(paths[|paths| - 1], kind, id)]
  }

  /** The records of one commit: its added, then modified, then removed files. */
  function CommitRecords(c: Commit): seq<FileRecord> {
    Tagged(c.Paths(Added), Added, c.id) + Tagged(c.Paths(Modified), Modified, c.id)
      + Tagged(c.Paths(Removed), Removed, c.id)
  }

  /** Each commit's records, commit by commit. */
  function RecordLists(commits: seq<Commit>): seq<seq<FileRecord>> {
    seq(|commits|, k requires 0 <= k < |commits| => CommitRecords(commits[k]))
  }

  /** The records of all commits, commit after commit. */
  function Flattened(commits: seq<Commit>): seq<FileRecord> {
    Concat(RecordLists(commits))
  }

  /** The number of files a payload lists, summed over its commits. */
  function TotalFiles(commits: seq<Commit>): nat {
    if commits == [] then 0
    else TotalFiles(commits[..|commits| - 1]) + commits[|commits| - 1].FileCount()
  }

  /** `r` is the record a commit's file list produces for one of its paths. */
  predicate RecordOf(c: Commit, r: FileRecord) {
    r.commitSha == c.id && r.path in c.Paths(r.status)
  }

  /** `files.append(...)` for every path of one list. */
  method AppendTagged(files: seq<FileRecord>, paths: seq<string>, kind: ChangeKind, id: string)
    returns (out: seq<FileRecord>)
    ensures out == files + Tagged(paths, kind, id)
  {
    out := files;
    for j := 0 to |paths|
      invariant out == files + Tagged(paths[..j], kind, id)
    {
      out := out + [FileRecord(paths[j], kind, id)];
    }
    assert paths[..|paths|] == paths;
  }

  /** The nested loops of `handler` that build `files_to_process`. */
  method CollectFiles(commits: seq<Commit>) returns (files: seq<FileRecord>)
    ensures files == Flattened(commits)
  {
    ghost var lists := RecordLists(commits);
    files := [];
    for c := 0 to |commits|
      invariant files == Concat(lists[..c])
    {
      var commit := commits[c];
      ghost var before := files;
      files := AppendTagged(files, commit.Paths(Added), Added, commit.id);
      files := AppendTagged(files, commit.Paths(Modified), Modified, commit.id);
      files := AppendTagged(files, commit.Paths(Removed), Removed, commit.id);
      AppendAssociative(before, Tagged(commit.Paths(Added), Added, commit.id),
                        Tagged(commit.Paths(Modified), Modified, commit.id),
                        Tagged(commit.Paths(Removed), Removed, commit.id));
      ConcatPrefix(lists, c);
    }
    assert lists[..|commits|] == lists;
  }

  lemma RecordListsTake(commits: seq<Commit>, k: nat)
    requires k <= |commits|
    ensures RecordLists(commits[..k]) == RecordLists(commits)[..k]
  {
  }

  lemma RecordListsDrop(commits: seq<Commit>, k: nat)
    requires k <= |commits|
    ensures RecordLists(commits[k..]) == RecordLists(commits)[k..]
  {
  }

  /** The flattened list has one record per listed file. */
  lemma {:induction false} FlattenedLength(commits: seq<Commit>)
    ensures |Flattened(commits)| == TotalFiles(commits)
    decreases |commits|
  {
    var lists := RecordLists(commits);
    ConcatLength(lists);
    if commits != [] {
      var n := |commits| - 1;
      RecordListsTake(commits, n);
      FlattenedLength(commits[..n]);
      ConcatLength(lists[..n]);
    }
  }

  /** There is nothing to process exactly when no commit lists a file. */
  lemma {:induction false} NoFilesIff(commits: seq<Commit>)
    ensures Flattened(commits) == [] <==> forall k :: 0 <= k < |commits| ==> commits[k].FileCount() == 0
    decreases |commits|
  {
    FlattenedLength(commits);
    if commits != [] {
      var n := |commits| - 1;
      NoFilesIff(commits[..n]);
      FlattenedLength(commits[..n]);
      if TotalFiles(commits) == 0 {
        forall k | 0 <= k < |commits| ensures commits[k].FileCount() == 0 {
          if k < n {
            assert commits[..n][k] == commits[k];
          }
        }
      }
      if forall k :: 0 <= k < |commits| ==> commits[k].FileCount() == 0 {
        assert forall k :: 0 <= k < n ==> commits[..n][k].FileCount() == 0;
      }
    }
  }

  /** Commit `k`'s records sit, as one block, between those of the commits before and after it. */
  lemma FlattenedAt(commits: seq<Commit>, k: nat)
    requires k < |commits|
    ensures Flattened(commits)
         == Flattened(commits[..k]) + CommitRecords(commits[k]) + Flattened(commits[k + 1..])
  {
    ConcatAt(RecordLists(commits), k);
    RecordListsTake(commits, k);
    RecordListsDrop(commits, k + 1);
  }

  lemma TaggedMembership(paths: seq<string>, kind: ChangeKind, id: string, r: FileRecord)
    ensures r in Tagged(paths, kind, id) <==> r.status == kind && r.commitSha == id && r.path in paths
  {
    var rs := Tagged(paths, kind, id);
    if r.status == kind && r.commitSha == id && r.path in paths {
      var j :| 0 <= j < |paths| && paths[j] == r.path;
      assert rs[j] == r;
    }
  }

  /** A record comes from a commit exactly when it names that commit and one of its files of that kind. */
  lemma CommitRecordsMembership(c: Commit, r: FileRecord)
    ensures r in CommitRecords(c) <==> RecordOf(c, r)
  {
    TaggedMembership(c.Paths(Added), Added, c.id, r);
    TaggedMembership(c.Paths(Modified), Modified, c.id, r);
    TaggedMembership(c.Paths(Removed), Removed, c.id, r);
  }

  /** Every record comes from some commit of the payload, and every file of every commit is listed. */
  lemma FlattenedMembership(commits: seq<Commit>, r: FileRecord)
    ensures r in Flattened(commits) <==> exists k :: 0 <= k < |commits| && RecordOf(commits[k], r)
  {
    var lists := RecordLists(commits);
    ConcatMembership(lists, r);
    forall k | 0 <= k < |commits| ensures r in lists[k] <==> RecordOf(commits[k], r) {
      CommitRecordsMembership(commits[k], r);
    }
  }

  // ---------------------------------------------------------------- handler

  /** The `headers` and raw `body` of the API Gateway event. */
  datatype WebhookEvent = WebhookEvent(headers: Option<map<string, string>>, body: Option<string>)

  /** The JSON object the handler puts in its response body. */
  datatype ResponseBody = Message(message: string) | Started(message: string, executionArn: string)

  datatype Response = Response(statusCode: int, body: ResponseBody)

  /** `{"files": files_to_process, "repository": payload.repository.full_name}`. */
  datatype ExecutionInput = ExecutionInput(files: seq<FileRecord>, repository: Option<string>)

  function RepositoryName(p: Payload): Option<string> {
    match p.repository
    case None => None
    case Some(info) => info.fullName
  }

  predicate SignatureOk(event: WebhookEvent, hmacHex: (string, string) -> string) {
    ValidateSignature(event.headers.GetOr(map[]), event.body.GetOr(""), GithubSecret, hmacHex)
  }

  /**
   * `handler`. `parse` stands for `json.loads` and `stateMachineArn` for the
   * `STEP_FUNCTION_ARN` variable. A bad signature answers 401 and an empty file
   * list 200 "No files to process", neither starting an execution; otherwise
   * exactly one execution is started with every record and the repository name.
   */
  method Handle(event: WebhookEvent, hmacHex: (string, string) -> string, parse: string -> Payload,
                stateMachineArn: string, sfn: Workflow<ExecutionInput>)
    returns (resp: Response)
    modifies sfn
    ensures !SignatureOk(event, hmacHex) ==>
      resp == Response(401, Message("Invalid signature")) && unchanged(sfn)
    ensures SignatureOk(event, hmacHex) ==>
      var payload := parse(event.body.GetOr(""));
      var files := Flattened(payload.commits.GetOr([]));
      && (files == [] ==> resp == Response(200, Message("No files to process")) && unchanged(sfn))
      && (files != [] ==>
            var req := StartRequest(stateMachineArn, ExecutionInput(files, RepositoryName(payload)));
            && sfn.started == old(sfn.started) + [req]
            && resp == Response(200, Started("Ingestion started", sfn.reply(|old(sfn.started)|, req))))
  {
    var headers := event.headers.GetOr(map[]);
    var body := event.body.GetOr("");
    if !ValidateSignature(headers, body, GithubSecret, hmacHex) {
      return Response(401, Message("Invalid signature"));
    }
    var payload := parse(body);
    var files := CollectFiles(payload.commits.GetOr([]));
    if files == [] {
      return Response(200, Message("No files to process"));
    }
    var executionArn := sfn.StartExecution(StartRequest(stateMachineArn, ExecutionInput(files, RepositoryName(payload))));
    resp := Response(200, Started("Ingestion started", executionArn));
  }
}
