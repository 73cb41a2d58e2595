/**
 * The pure parts of `SalesforceClient` (src/client.ts): the SOQL text built
 * by `buildQuery`, the endpoint URLs of `urlTemplates`, the authorisation
 * headers of `requestDefault`, the `'*'` field expansion of `query` and
 * `queryBulk`, the `wait` predicate of the bulk status polls, and the
 * decisions `queryBulk` takes after each poll.
 */
module Client {
  import opened Wrappers
  import opened Json
  import opened Chains
  import Status

  // ---------------------------------------------------------------------
  // SOQL text

  /** `parts.join(sep)`: the parts with `sep` between neighbours. */
  function Join(parts: seq<string>, sep: char): string
    decreases |parts|
  {
    if |parts| == 0 then ""
    else if |parts| == 1 then parts[0]
    else parts[0] + [sep] + Join(parts[1..], sep)
  }

  /**
   * The pieces of `s` between occurrences of `sep`; the inverse of `Join`
   * for pieces that do not contain `sep`.
   */
  function Split(s: string, sep: char): (r: seq<string>)
    ensures |r| >= 1
  {
    if s == [] then [""]
    else
      var rest := Split(s[1..], sep);
      if s[0] == sep then [""] + rest else [[s[0]] + rest[0]] + rest[1..]
  }

  /**
   * `buildQuery(objectName, fields, filterStr)`. The filter is JavaScript's
   * optional string: `None` stands for `null` and `undefined`, and only a
   * non-empty string adds a WHERE clause.
   */
  function BuildQuery(objectName: string, fields: seq<string>, filter: Option<string>): string
  {
    "SELECT " + Join(fields, ',') + " FROM " + objectName +
    (if filter.Some? && filter.value != "" then " WHERE " + filter.value else "")
  }

  lemma {:induction false} SplitPrefix(p: string, s: string, sep: char)
    requires sep !in p
    ensures Split(p + s, sep) == [p + Split(s, sep)[0]] + Split(s, sep)[1..]
  {
    if p != [] {
      SplitPrefix(p[1..], s, sep);
      var tail := Split(s, sep);
      var rest := Split(p[1..] + s, sep);
      assert (p + s)[0] == p[0] != sep;
      assert (p + s)[1..] == p[1..] + s;
      assert rest == [p[1..] + tail[0]] + tail[1..];
      assert Split(p + s, sep) == [[p[0]] + rest[0]] + rest[1..];
      assert [p[0]] + (p[1..] + tail[0]) == p + tail[0];
    } else {
      assert p + s == s;
      assert p + Split(s, sep)[0] == Split(s, sep)[0];
      assert Split(s, sep) == [Split(s, sep)[0]] + Split(s, sep)[1..];
    }
  }

  /** Joining pieces that do not contain the separator can be undone by splitting. */
  lemma {:induction false} SplitJoin(parts: seq<string>, sep: char)
    requires |parts| >= 1
    requires forall i :: 0 <= i < |parts| ==> sep !in parts[i]
    ensures Split(Join(parts, sep), sep) == parts
    decreases |parts|
  {
    if |parts| == 1 {
      SplitPrefix(parts[0], "", sep);
      assert parts[0] + "" == parts[0];
    } else {
      var rest := Join(parts[1..], sep);
      SplitPrefix(parts[0], [sep] + rest, sep);
      assert parts[0] + [sep] + rest == parts[0] + ([sep] + rest);
      assert ([sep] + rest)[1..] == rest;
      assert Split([sep] + rest, sep) == [""] + Split(rest, sep);
      SplitJoin(parts[1..], sep);
      assert parts[0] + "" == parts[0];
      assert [parts[0]] + parts[1..] == parts;
    }
  }

  /**
   * The query text starts with `SELECT `, followed by the field list, from
   * which the fields can be read back in order when no field name holds a
   * comma.
   */
  lemma SelectListRoundTrip(objectName: string, fields: seq<string>, filter: Option<string>)
    requires |fields| >= 1
    requires forall i :: 0 <= i < |fields| ==> ',' !in fields[i]
    ensures var q := BuildQuery(objectName, fields, filter);
            var n := |Join(fields, ',')|;
            |q| >= 7 + n + 6 && q[..7] == "SELECT " && q[7 + n..7 + n + 6] == " FROM " &&
            Split(q[7..7 + n], ',') == fields
  {
    var j := Join(fields, ',');
    var q := BuildQuery(objectName, fields, filter);
    var tail := objectName + (if filter.Some? && filter.value != "" then " WHERE " + filter.value else "");
    assert q == "SELECT " + j + " FROM " + tail;
    assert q[7..7 + |j|] == j;
    SplitJoin(fields, ',');
  }

  /**
   * The WHERE clause: `null`, `undefined` and the empty string add nothing,
   * and any other filter is appended after ` WHERE `.
   */
  lemma FilterOnlyWhenNonEmpty(objectName: string, fields: seq<string>, filter: Option<string>)
    ensures filter == None || filter == Some("") ==>
              BuildQuery(objectName, fields, filter) == "SELECT " + Join(fields, ',') + " FROM " + objectName
    ensures filter.Some? && filter.value != "" ==>
              BuildQuery(objectName, fields, filter) == BuildQuery(objectName, fields, None) + " WHERE " + filter.value
  {
  }

  // ---------------------------------------------------------------------
  // Endpoint URLs

  const Prod := "login"
  const Sandbox := "test"
  const Version := "45.0"
  const DataPath := "services/data"
  const AsyncPath := "services/async"

  /** The OAuth token endpoint for production, sandbox or a custom domain. */
  function Login(sf: string): string
  {
    if sf == Prod || sf == Sandbox then "https://" + sf + ".salesforce.com/services/oauth2/token"
    else sf + "/services/oauth2/token"
  }

  function Limits(instance: string): string
  {
    instance + "/" + DataPath + "/v" + Version + "/limits"
  }

  function SObjects(instance: string): string
  {
    instance + "/" + DataPath + "/v" + Version + "/sobjects"
  }

  function SObject(instance: string, name: string): string
  {
    instance + "/" + DataPath + "/v" + Version + "/sobjects/" + name
  }

  function SObjectDescription(instance: string, name: string): string
  {
    instance + "/" + DataPath + "/v" + Version + "/sobjects/" + name + "/describe"
  }

  function Query(instance: string): string
  {
    instance + "/" + DataPath + "/v" + Version + "/query"
  }

  function Create(instance: string, objectName: string): string
  {
    instance + "/" + DataPath + "/v" + Version + "/sobjects/" + objectName
  }

  function Update(instance: string, objectName: string, id: string): string
  {
    instance + "/" + DataPath + "/v" + Version + "/sobjects/" + objectName + "/" + id
  }

  function Job(instance: string): string
  {
    instance + "/" + AsyncPath + "/" + Version + "/job"
  }

  function Jobs(instance: string): string
  {
    instance + "/" + DataPath + "/v" + Version + "/jobs/ingest"
  }

  function CloseJob(instance: string, jobId: string): string
  {
    instance + "/" + AsyncPath + "/" + Version + "/job/" + jobId
  }

  function Bulk(instance: string, jobId: string): string
  {
    instance + "/" + AsyncPath + "/" + Version + "/job/" + jobId + "/batch"
  }

  function BulkStatus(instance: string, jobId: string, batchId: string): string
  {
    instance + "/" + AsyncPath + "/" + Version + "/job/" + jobId + "/batch/" + batchId
  }

  function BulkResult(instance: string, jobId: string, batchId: string): string
  {
    instance + "/" + AsyncPath + "/" + Version + "/job/" + jobId + "/batch/" + batchId + "/result"
  }

  function BulkResults(instance: string, jobId: string, batchId: string, resultId: string): string
  {
    instance + "/" + AsyncPath + "/" + Version + "/job/" + jobId + "/batch/" + batchId + "/result/" +
    resultId
  }

  /**
   * Production and sandbox logins go to the fixed hosts; anything else is
   * taken as the instance's own base URL.
   */
  lemma LoginEndpoints(sf: string)
    ensures Login(Prod) == "https://login.salesforce.com/services/oauth2/token"
    ensures Login(Sandbox) == "https://test.salesforce.com/services/oauth2/token"
    ensures sf != Prod && sf != Sandbox ==> Login(sf) == sf + "/services/oauth2/token"
  {
    ProductionLogin();
    SandboxLogin();
  }

  lemma ProductionLogin()
    ensures Login(Prod) == "https://login.salesforce.com/services/oauth2/token"
  {
  }

  lemma SandboxLogin()
    ensures Login(Sandbox) == "https://test.salesforce.com/services/oauth2/token"
  {
  }

  /** REST paths live under `services/data/v45.0`. */
  lemma DataApiRoot(instance: string, name: string, id: string)
    ensures var data := instance + "/services/data/v45.0";
            && Limits(instance) == data + "/limits"
            && SObjects(instance) == data + "/sobjects"
            && SObject(instance, name) == data + "/sobjects/" + name
            && SObjectDescription(instance, name) == SObject(instance, name) + "/describe"
            && Query(instance) == data + "/query"
            && Create(instance, name) == SObject(instance, name)
            && Update(instance, name, id) == SObject(instance, name) + "/" + id
            && Jobs(instance) == data + "/jobs/ingest"
  {
    assert "/" + DataPath + "/v" + Version == "/services/data/v45.0";
  }

  /** Bulk paths live under `services/async/45.0`, with no `v`. */
  lemma AsyncApiRoot(instance: string, jobId: string)
    ensures Job(instance) == instance + "/services/async/45.0" + "/job"
    ensures CloseJob(instance, jobId) == instance + "/services/async/45.0" + "/job/" + jobId
  {
    assert "/" + AsyncPath + "/" + Version == "/services/async/45.0";
  }

  /**
   * The bulk URLs nest: each extends the previous one by one path segment.
   */
  lemma BulkPathsNest(instance: string, jobId: string, batchId: string, resultId: string)
    ensures CloseJob(instance, jobId) == Job(instance) + "/" + jobId
    ensures Bulk(instance, jobId) == CloseJob(instance, jobId) + "/batch"
    ensures BulkStatus(instance, jobId, batchId) == Bulk(instance, jobId) + "/" + batchId
    ensures BulkResult(instance, jobId, batchId) == BulkStatus(instance, jobId, batchId) + "/result"
    ensures BulkResults(instance, jobId, batchId, resultId) ==
            BulkResult(instance, jobId, batchId) + "/" + resultId
  {
  }

  // ---------------------------------------------------------------------
  // Authorisation headers

  /** The fields of an OAuth token response that the model uses. */
  datatype AuthResponse = AuthResponse(accessToken: string, instanceUrl: string, id: string,
                                       tokenType: string, signature: string)

  /** `requestDefault(auth)`: the JSON accept header and the two credential headers. */
  function RequestDefault(auth: AuthResponse): Options
  {
    var credential := Str(auth.tokenType + " " + auth.accessToken);
    map["headers" := Obj(map["accept" := Str("application/json"),
                             "Authorization" := credential,
                             "X-SFDC-Session" := credential])]
  }

  /**
   * The default options hold only headers; `Authorization` and
   * `X-SFDC-Session` carry the same credential: the token type, a space and
   * the access token; for a token type without spaces that space is the
   * credential's first one.
   */
  lemma SessionHeaders(auth: AuthResponse)
    ensures var o := RequestDefault(auth);
            && o.Keys == {"headers"} && o["headers"].Obj?
            && var h := o["headers"].fields;
            && h.Keys == {"accept", "Authorization", "X-SFDC-Session"}
            && h["accept"] == Str("application/json")
            && h["Authorization"] == h["X-SFDC-Session"] && h["Authorization"].Str?
            && var c := h["Authorization"].s;
            && |c| > |auth.tokenType| && c[|auth.tokenType|] == ' '
            && c[..|auth.tokenType|] == auth.tokenType && c[|auth.tokenType| + 1..] == auth.accessToken
            && (' ' !in auth.tokenType ==> forall i :: 0 <= i < |auth.tokenType| ==> c[i] != ' ')
  {
    var c := auth.tokenType + " " + auth.accessToken;
    assert c[..|auth.tokenType|] == auth.tokenType;
    assert c[|auth.tokenType| + 1..] == auth.accessToken;
  }

  // ---------------------------------------------------------------------
  // '*' field expansion

  /** The description of one field in the object metadata. */
  datatype FieldDescription = FieldDescription(name: string, fieldType: string)

  /** The metadata file: each object's described fields, in order. */
  type Meta = map<string, seq<FieldDescription>>

  /** Expansion happens only when the fields are exactly `['*']`. */
  predicate ExpandsAll(fields: seq<string>)
  {
    |fields| == 1 && fields[0] == "*"
  }

  /** `pluck('name')`: the names, in order. */
  function Names(described: seq<FieldDescription>): (r: seq<string>)
    ensures |r| == |described|
    ensures forall i :: 0 <= i < |r| ==> r[i] == described[i].name
  {
    seq(|described|, i requires 0 <= i < |described| => described[i].name)
  }

  /** The bulk API cannot return compound `location` and `address` fields. */
  predicate Queryable(d: FieldDescription)
  {
    d.fieldType != "location" && d.fieldType != "address"
  }

  /** The `filter` of `queryBulk`: queryable fields only, in their order. */
  function KeepQueryable(described: seq<FieldDescription>): seq<FieldDescription>
  {
    if described == [] then []
    else
      var rest := KeepQueryable(described[1..]);
      if Queryable(described[0]) then [described[0]] + rest else rest
  }

  /**
   * The field list of `query`: the object's field names for `['*']`, the
   * fields as given otherwise. `None` is the failed metadata lookup of an
   * object the metadata does not describe.
   */
  function QueryFields(objectName: string, fields: seq<string>, meta: Meta): Option<seq<string>>
  {
    if !ExpandsAll(fields) then Some(fields)
    else if objectName in meta then Some(Names(meta[objectName]))
    else None
  }

  /** The field list of `queryBulk`: as `QueryFields`, without `location` and `address` fields. */
  function BulkQueryFields(objectName: string, fields: seq<string>, meta: Meta): Option<seq<string>>
  {
    if !ExpandsAll(fields) then Some(fields)
    else if objectName in meta then Some(Names(KeepQueryable(meta[objectName])))
    else None
  }

  /**
   * The filter keeps exactly the queryable fields and keeps their order: it
   * distributes over concatenation.
   */
  lemma {:induction false} KeepQueryableSpec(a: seq<FieldDescription>, b: seq<FieldDescription>)
    ensures KeepQueryable(a + b) == KeepQueryable(a) + KeepQueryable(b)
    ensures forall d :: d in KeepQueryable(a) <==> d in a && Queryable(d)
    ensures |KeepQueryable(a)| <= |a|
  {
    if a != [] {
      KeepQueryableSpec(a[1..], b);
      assert (a + b)[1..] == a[1..] + b;
      assert a == [a[0]] + a[1..];
    } else {
      assert a + b == b;
    }
  }

  /**
   * Field lists other than exactly `['*']` pass through untouched; `['*']`
   * becomes, for `query`, every described name in order, and for
   * `queryBulk` the names of the queryable fields in order: a name is in the
   * list exactly when a described field of another type than `location` and
   * `address` has it.
   */
  lemma FieldExpansion(objectName: string, fields: seq<string>, meta: Meta)
    ensures !ExpandsAll(fields) ==>
              QueryFields(objectName, fields, meta) == Some(fields) &&
              BulkQueryFields(objectName, fields, meta) == Some(fields)
    ensures ExpandsAll(fields) && objectName !in meta ==>
              QueryFields(objectName, fields, meta) == None && BulkQueryFields(objectName, fields, meta) == None
    ensures ExpandsAll(fields) && objectName in meta ==>
              QueryFields(objectName, fields, meta) == Some(Names(meta[objectName])) &&
              BulkQueryFields(objectName, fields, meta).Some? &&
              var kept := BulkQueryFields(objectName, fields, meta).value;
              |kept| <= |meta[objectName]| &&
              forall x :: x in kept <==> exists d :: d in meta[objectName] && Queryable(d) && d.name == x
  {
    if ExpandsAll(fields) && objectName in meta {
      var ds := meta[objectName];
      KeepQueryableSpec(ds, []);
      var kept := Names(KeepQueryable(ds));
      forall x
        ensures x in kept <==> exists d :: d in ds && Queryable(d) && d.name == x
      {
        if x in kept {
          var i :| 0 <= i < |kept| && kept[i] == x;
          assert KeepQueryable(ds)[i] in KeepQueryable(ds);
        }
        if exists d :: d in ds && Queryable(d) && d.name == x {
          var d :| d in ds && Queryable(d) && d.name == x;
          var i :| 0 <= i < |KeepQueryable(ds)| && KeepQueryable(ds)[i] == d;
          assert kept[i] == x;
        }
      }
    }
  }

  // ---------------------------------------------------------------------
  // Bulk job statuses and the decisions after each poll

  /** The fields of a bulk batch status that the client reads. */
  datatype BatchStatus = BatchStatus(id: string, jobId: string, state: string, stateMessage: string,
                                     numberRecordsProcessed: int)

  /** The states a bulk job or batch reports. */
  datatype RemoteState = Open | Queued | InProgress | Closed | Completed | Failed | Aborted | NotProcessed

  /** The text of a state, as it appears in a status response. */
  function StateText(s: RemoteState): string
  {
    match s
    case Open => "Open"
    case Queued => "Queued"
    case InProgress => "InProgress"
    case Closed => "Closed"
    case Completed => "Completed"
    case Failed => "Failed"
    case Aborted => "Aborted"
    case NotProcessed => "NotProcessed"
  }

  /** The `wait` predicate of both status polls in `queryBulk`. */
  predicate Waiting(state: string)
  {
    state == "Open" || state == "Queued" || state == "InProgress"
  }

  /** `Waiting` on whole statuses, the predicate handed to the poll combinator. */
  predicate StillRunning(s: BatchStatus)
  {
    Waiting(s.state)
  }

  /** Polling goes on for exactly the three unfinished states. */
  lemma WaitingStates(s: RemoteState)
    ensures Waiting(StateText(s)) <==> s == Open || s == Queued || s == InProgress
  {
  }

  /**
   * What a status poll of `queryBulk` delivers: at most one status, and never
   * one in a waiting state.
   */
  lemma PolledStatusSettled(poll: BatchStatus -> Reply<BatchStatus, string>, closedAt: nat -> bool,
                            submitted: BatchStatus, fuel: nat)
    ensures var t := Status.Chain(StillRunning, poll, closedAt, submitted, fuel);
            |t.emitted| <= 1 && forall i :: 0 <= i < |t.emitted| ==> !Waiting(t.emitted[i].state)
  {
    Status.ChainShape(StillRunning, poll, closedAt, submitted, fuel);
  }

  /** What `queryBulk` does with the status of its submitted batch. */
  datatype BatchListStep =
    | SubmitFailed(message: string)
    | BatchesListed(listUri: string, closeUri: string, batches: seq<BatchStatus>)

  /**
   * A failed batch raises its state message before the job is closed;
   * otherwise the job's batch list is fetched, the job is closed once, and
   * then every listed batch goes on to the second poll. `batchInfo` is the
   * batch list the server returns.
   */
  function AfterSubmitPoll(instance: string, jobId: string, status: BatchStatus,
                           batchInfo: seq<BatchStatus>): BatchListStep
  {
    if status.state == "Failed" then SubmitFailed(status.stateMessage)
    else BatchesListed(Bulk(instance, status.jobId), CloseJob(instance, jobId), batchInfo)
  }

  /** What `queryBulk` does with the final status of one listed batch. */
  datatype ResultStep =
    | BatchFailed(message: string)
    | NoRecords
    | ResultChunks(manifestUri: string, chunkUris: seq<string>)

  /** One chunk URI per result id, in the manifest's order. */
  function ChunkUris(instance: string, status: BatchStatus, resultIds: seq<string>): seq<string>
  {
    seq(|resultIds|, i requires 0 <= i < |resultIds| =>
          BulkResults(instance, status.jobId, status.id, resultIds[i]))
  }

  /**
   * The decision after the second poll: a failed batch raises its state
   * message, zero processed records emit a single `null` without fetching
   * the result manifest, and otherwise the manifest is fetched and each of
   * the result ids it lists (`resultIds`) becomes a chunk fetch.
   */
  function AfterBatchPoll(instance: string, status: BatchStatus, resultIds: seq<string>): ResultStep
  {
    if status.state == "Failed" then BatchFailed(status.stateMessage)
    else if status.numberRecordsProcessed == 0 then NoRecords
    else ResultChunks(BulkResult(instance, status.jobId, status.id),
                      ChunkUris(instance, status, resultIds))
  }

  /**
   * The first decision: `Failed` raises the state message and issues no
   * request at all (in particular no job closure); any other state lists the
   * job's batches under the job the status names, closes the job created by
   * the submission, and passes the batch list on unchanged.
   */
  lemma SubmitPollCases(instance: string, jobId: string, status: BatchStatus, batchInfo: seq<BatchStatus>)
    ensures var r := AfterSubmitPoll(instance, jobId, status, batchInfo);
            && (r.SubmitFailed? <==> status.state == "Failed")
            && (r.SubmitFailed? ==> r.message == status.stateMessage)
            && (r.BatchesListed? ==>
                  r.listUri == CloseJob(instance, status.jobId) + "/batch" &&
                  r.closeUri == Job(instance) + "/" + jobId && r.batches == batchInfo)
  {
  }

  /**
   * The three outcomes after the second poll. `Failed` wins over zero
   * records; the chunk URIs extend the manifest URI by one result id each,
   * in order, so distinct result ids are fetched from distinct URIs.
   */
  lemma {:induction false} BatchPollCases(instance: string, status: BatchStatus, resultIds: seq<string>)
    ensures var r := AfterBatchPoll(instance, status, resultIds);
            && (r.BatchFailed? <==> status.state == "Failed")
            && (r.BatchFailed? ==> r.message == status.stateMessage)
            && (r.NoRecords? <==> status.state != "Failed" && status.numberRecordsProcessed == 0)
            && (r.ResultChunks? ==>
                  r.manifestUri == BulkStatus(instance, status.jobId, status.id) + "/result" &&
                  |r.chunkUris| == |resultIds| &&
                  (forall i :: 0 <= i < |resultIds| ==> r.chunkUris[i] == r.manifestUri + "/" + resultIds[i]) &&
                  (forall i, j :: 0 <= i < j < |resultIds| && resultIds[i] != resultIds[j] ==>
                                  r.chunkUris[i] != r.chunkUris[j]))
  {
    var r := AfterBatchPoll(instance, status, resultIds);
    if r.ResultChunks? {
      var m := r.manifestUri;
      forall i, j | 0 <= i < j < |resultIds| && resultIds[i] != resultIds[j]
        ensures r.chunkUris[i] != r.chunkUris[j]
      {
        BulkPathsNest(instance, status.jobId, status.id, resultIds[i]);
        BulkPathsNest(instance, status.jobId, status.id, resultIds[j]);
        var p := m + "/";
        assert r.chunkUris[i] == p + resultIds[i];
        assert r.chunkUris[j] == p + resultIds[j];
        assert (p + resultIds[i])[|p|..] == resultIds[i];
        assert (p + resultIds[j])[|p|..] == resultIds[j];
      }
    }
  }
}
