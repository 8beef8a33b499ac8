/** The OpenSearch driver (src/driver/opensearch.mjs): a buffer of bulk
    entries, two per document, flushed through the bulk API; the connection
    settings; the "index already exists" classifier; the id mapping of
    `query`. The client library is a foreign call: its answers are
    parameters. */
module OpenSearch {
  import opened Wrappers
  import opened Js
  import Batching

  const IndexName: string := "movies"
  const BatchSize: nat := 10000
  /** The buffer is full at twice the batch size: every document adds two entries. */
  const Capacity: nat := 2 * BatchSize
  /** `size` of the single search request. */
  const ResultWindow: nat := 10000
  const AlreadyExistsType: string := "resource_already_exists_exception"

  /** An entry of a bulk request body. */
  datatype BulkEntry =
    | Action(index: string, id: Value)                             // { index: { _index, _id } }
    | Source(title: Value, originalTitle: Value, overview: Value)  // the document body

  /** The two entries `ingest` pushes for a document; reading `document.id`
      throws before anything is pushed when the document is undefined or null. */
  function EntriesOf(document: Value): (r: Result<seq<BulkEntry>, Error>)
    ensures r.Failure? <==> Nullish(document)
    ensures r.Success? ==> |r.value| == 2
    ensures r.Success? ==> r.value[0] == Action(IndexName, Prop(document, "id").value)
    ensures r.Success? ==> r.value[1] == Source(Prop(document, "title").value,
                                                Prop(document, "original_title").value,
                                                Prop(document, "overview").value)
  {
    match Prop(document, "id")
    case Failure(e) => Failure(e)
    case Success(id) =>
      Success([Action(IndexName, id),
               Source(Prop(document, "title").value, Prop(document, "original_title").value,
                      Prop(document, "overview").value)])
  }

  /** One item of a bulk response: whether OpenSearch reports it failed. */
  datatype BulkItem = BulkItem(failed: bool)

  /** How `client.bulk` answers: it throws, or returns one item per action. */
  datatype BulkReply = BulkThrew(error: Error) | BulkResponse(items: seq<BulkItem>)

  function BulkOutcome(reply: BulkReply): Outcome<Error> {
    if reply.BulkThrew? then Fail(reply.error) else Pass
  }

  /** `Math.min(0, CURRENT_BATCH.length - result.body.items.length)`, as written. */
  function FailedAsWritten(entries: nat, items: nat): (failed: int)
    ensures failed <= 0
    ensures failed == 0 <==> entries >= items
  {
    if entries < items then entries - items else 0
  }

  /** The number of items the bulk response marks as failed. */
  function FailedItems(items: seq<BulkItem>): (n: nat)
    ensures n <= |items|
    ensures n > 0 <==> exists i :: 0 <= i < |items| && items[i].failed
  {
    if items == [] then 0
    else
      var rest := FailedItems(items[1..]);
      assert forall i :: 1 <= i < |items| ==> items[i] == items[1..][i - 1];
      (if items[0].failed then 1 else 0) + rest
  }

  /** The count as written never reports a failure: a batch of one document is
      two entries and draws one item, so even when that item failed the count
      is zero, while the response holds one failed item. */
  lemma FailedAsWrittenMissesFailure()
    ensures var items := [BulkItem(true)];
      FailedAsWritten(2, |items|) == 0 && FailedItems(items) == 1
  {
    var items := [BulkItem(true)];
    assert items[1..] == [];
  }

  /** The corrected count reports exactly the failed items of a bulk response
      whose items are all failures or all successes. */
  lemma {:induction false} FailedItemsCountsFailures(items: seq<BulkItem>, failed: bool)
    requires forall i :: 0 <= i < |items| ==> items[i].failed == failed
    ensures FailedItems(items) == if failed then |items| else 0
  {
    if items != [] {
      FailedItemsCountsFailures(items[1..], failed);
    }
  }

  /** The driver object `build` returns, with the module-level `CURRENT_BATCH`. */
  class Driver {
    var batch: seq<BulkEntry>
    /** The bodies handed to `client.bulk`, in order. */
    ghost var handed: seq<seq<BulkEntry>>

    ghost predicate Valid()
      reads this
    {
      Batching.Shaped(batch, Capacity, 2)
    }

    constructor ()
      ensures Valid() && batch == [] && handed == []
    {
      batch := [];
      handed := [];
    }

    /** `sendBatch`: one bulk request carrying the whole buffer. `reported` is
        whether the "failed to insert" line is written. */
    method SendBatch(reply: BulkReply) returns (o: Outcome<Error>, reported: bool)
      modifies this`handed
      ensures handed == old(handed) + [batch]
      ensures o == BulkOutcome(reply)
      ensures !reported
    {
      handed := handed + [batch];
      if reply.BulkThrew? {
        return Fail(reply.error), false;
      }
      var failed := FailedAsWritten(|batch|, |reply.items|);
      reported := failed > 0;
      o := Pass;
    }

    /** `ingest`: below twice the batch size push the action and the source;
        otherwise send the whole buffer, then reset it, dropping the document. */
    method Ingest(document: Value, reply: BulkReply) returns (o: Outcome<Error>)
      requires Valid()
      modifies this
      ensures Valid()
      ensures var s := Batching.Ingest(old(batch), Capacity, EntriesOf(document), BulkOutcome(reply));
        batch == s.buffer && handed == old(handed) + Batching.HandedList(s.handed) && o == s.outcome
    {
      Batching.IngestKeepsShape(batch, Capacity, 2, EntriesOf(document), BulkOutcome(reply));
      if |batch| < Capacity {
        var id := Prop(document, "id");
        if id.Failure? {
          return Fail(id.error);
        }
        batch := batch + [Action(IndexName, id.value)];
        batch := batch + [Source(Prop(document, "title").value, Prop(document, "original_title").value,
                                 Prop(document, "overview").value)];
        return Pass;
      }
      var reported;
      o, reported := SendBatch(reply);
      if o.Pass? {
        batch := [];
      }
    }

    /** `ingestWait`: nothing on an empty buffer, otherwise one send; the
        buffer is left as it is. */
    method IngestWait(reply: BulkReply) returns (o: Outcome<Error>)
      requires Valid()
      modifies this`handed
      ensures Valid() && batch == old(batch)
      ensures var s := Batching.Wait(batch, true, BulkOutcome(reply));
        handed == old(handed) + Batching.HandedList(s.handed) && o == s.outcome
    {
      if |batch| == 0 {
        return Pass;
      }
      var reported;
      o, reported := SendBatch(reply);
    }
  }

  /** The buffer after k well-formed documents whose bulk writes succeed,
      starting empty: 2 * (k mod 10001) entries, after k div 10001 bulk
      requests of 20,000 entries each. */
  lemma BufferCadence(docs: seq<seq<BulkEntry>>)
    requires forall i :: 0 <= i < |docs| ==> |docs[i]| == 2
    ensures var t := Batching.Replay(Capacity, docs);
      && |t.buffer| == 2 * (|docs| % (BatchSize + 1))
      && |t.handed| == |docs| / (BatchSize + 1)
      && (forall j :: 0 <= j < |t.handed| ==> |t.handed[j]| == Capacity)
  {
    Batching.Cadence(2, BatchSize, docs);
  }

  /** The search request `query` sends. */
  datatype SearchRequest = SearchRequest(index: string, size: nat, query: Value, fields: seq<string>)

  function SearchFor(phrase: Value): (q: SearchRequest)
    ensures q.index == IndexName && q.size == ResultWindow && q.query == phrase
    ensures q.fields == ["title", "original_title", "overview"]
  {
    SearchRequest(IndexName, ResultWindow, phrase, ["title", "original_title", "overview"])
  }

  /** A search hit as the bulk and search APIs return it: the document id
      travels under `_id`. */
  predicate ApiHit(hit: map<string, Value>) {
    "_id" in hit && "id" !in hit
  }

  /** `resp.body.hits.hits.map(r => r.id)`, as written. */
  function QueryIdsAsWritten(hits: seq<map<string, Value>>): (ids: seq<Value>)
    ensures |ids| == |hits|
    ensures forall i :: 0 <= i < |hits| && ApiHit(hits[i]) ==> ids[i] == Undefined
  {
    Pluck(hits, "id")
  }

  /** The ids read from `_id`, one per hit and in hit order. */
  function QueryIds(hits: seq<map<string, Value>>): (ids: seq<Value>)
    ensures |ids| == |hits|
    ensures forall i :: 0 <= i < |hits| && ApiHit(hits[i]) ==> ids[i] == hits[i]["_id"]
  {
    Pluck(hits, "_id")
  }

  /** A single hit whose `_id` is "1" comes back as `undefined`. */
  lemma QueryIdsAsWrittenLosesIds()
    ensures var hits := [map["_id" := Str("1")]];
      QueryIdsAsWritten(hits) == [Undefined] && QueryIds(hits) == [Str("1")]
  {
    var hits := [map["_id" := Str("1")]];
    assert ApiHit(hits[0]);
  }

  /** `client.search`: the hits of `resp.body.hits.hits`, or the error it throws. */
  type Search = SearchRequest -> Result<seq<map<string, Value>>, Error>

  /** `query` as written: one search for the phrase, then `r.id` of every
      hit, which the hits of the search API never carry. */
  function QueryAsWritten(phrase: Value, search: Search): (r: Result<seq<Value>, Error>)
    ensures var answer := search(SearchFor(phrase));
      (answer.Failure? ==> r == Failure(answer.error)) &&
      (answer.Success? ==> r.Success? && |r.value| == |answer.value| &&
                           forall i :: 0 <= i < |answer.value| && ApiHit(answer.value[i]) ==> r.value[i] == Undefined)
  {
    match search(SearchFor(phrase))
    case Failure(e) => Failure(e)
    case Success(hits) => Success(QueryIdsAsWritten(hits))
  }

  /** `query` reading the ids from `_id`: one per hit, in hit order. */
  function Query(phrase: Value, search: Search): (r: Result<seq<Value>, Error>)
    ensures var answer := search(SearchFor(phrase));
      (answer.Failure? ==> r == Failure(answer.error)) &&
      (answer.Success? ==> r.Success? && |r.value| == |answer.value| &&
                           forall i :: 0 <= i < |answer.value| && ApiHit(answer.value[i]) ==>
                             r.value[i] == answer.value[i]["_id"])
  {
    match search(SearchFor(phrase))
    case Failure(e) => Failure(e)
    case Success(hits) => Success(QueryIds(hits))
  }

  /** The connection settings `connectOpenSearch` reads. */
  datatype Node = Node(protocol: string, username: string, password: string, host: string, port: string)

  /** `${protocol}://${username}:${password}@${host}:${port}` */
  function NodeUrl(n: Node): string {
    n.protocol + "://" + n.username + ":" + n.password + "@" + n.host + ":" + n.port
  }

  /** The first of host, port, username and password that is unset or empty
      is reported; the protocol defaults to "https" only when unset. */
  function Settings(env: Env): (r: Result<Node, Error>)
    ensures r.Success? <==> Provided(env, "OPENSEARCH_HOST") && Provided(env, "OPENSEARCH_PORT")
                            && Provided(env, "OPENSEARCH_AUTH_USERNAME") && Provided(env, "OPENSEARCH_AUTH_PASSWORD")
    ensures !Provided(env, "OPENSEARCH_HOST") ==> r == Failure(MissingSetting("OPENSEARCH_HOST"))
    ensures Provided(env, "OPENSEARCH_HOST") && !Provided(env, "OPENSEARCH_PORT") ==>
              r == Failure(MissingSetting("OPENSEARCH_PORT"))
    ensures Provided(env, "OPENSEARCH_HOST") && Provided(env, "OPENSEARCH_PORT") &&
            !Provided(env, "OPENSEARCH_AUTH_USERNAME") ==>
              r == Failure(MissingSetting("OPENSEARCH_AUTH_USERNAME"))
    ensures Provided(env, "OPENSEARCH_HOST") && Provided(env, "OPENSEARCH_PORT") &&
            Provided(env, "OPENSEARCH_AUTH_USERNAME") && !Provided(env, "OPENSEARCH_AUTH_PASSWORD") ==>
              r == Failure(MissingSetting("OPENSEARCH_AUTH_PASSWORD"))
    ensures r.Success? ==> r.value == Node(OrDefault(env, "OPENSEARCH_PROTOCOL", "https"),
                                           env["OPENSEARCH_AUTH_USERNAME"], env["OPENSEARCH_AUTH_PASSWORD"],
                                           env["OPENSEARCH_HOST"], env["OPENSEARCH_PORT"])
  {
    if !Provided(env, "OPENSEARCH_HOST") then Failure(MissingSetting("OPENSEARCH_HOST"))
    else if !Provided(env, "OPENSEARCH_PORT") then Failure(MissingSetting("OPENSEARCH_PORT"))
    else if !Provided(env, "OPENSEARCH_AUTH_USERNAME") then Failure(MissingSetting("OPENSEARCH_AUTH_USERNAME"))
    else if !Provided(env, "OPENSEARCH_AUTH_PASSWORD") then Failure(MissingSetting("OPENSEARCH_AUTH_PASSWORD"))
    else Success(Node(OrDefault(env, "OPENSEARCH_PROTOCOL", "https"), env["OPENSEARCH_AUTH_USERNAME"],
                      env["OPENSEARCH_AUTH_PASSWORD"], env["OPENSEARCH_HOST"], env["OPENSEARCH_PORT"]))
  }

  /** `root_cause.some(c => c.type === ...)`: stops at the first match, and
      throws on an undefined or null cause met before one. */
  function SomeCauseExists(causes: seq<Value>): (r: Result<bool, Error>)
    ensures r == Success(true) ==> exists i :: 0 <= i < |causes| && Prop(causes[i], "type") == Success(Str(AlreadyExistsType))
    ensures (forall i :: 0 <= i < |causes| ==> !Nullish(causes[i])) ==>
              r == Success(exists i :: 0 <= i < |causes| && Prop(causes[i], "type") == Success(Str(AlreadyExistsType)))
  {
    if causes == [] then Success(false)
    else
      match Prop(causes[0], "type")
      case Failure(e) => Failure(e)
      case Success(t) =>
        if t == Str(AlreadyExistsType) then Success(true)
        else
          var rest := SomeCauseExists(causes[1..]);
          assert forall i :: 1 <= i < |causes| ==> causes[i] == causes[1..][i - 1];
          rest
  }

  /** `err.meta && err.meta.body && err.meta.body.error && err.meta.body.error.root_cause.some(...)`:
      whether index creation failed only because the index exists. A missing
      `root_cause` array, or a null cause, makes the test itself throw. */
  function AlreadyExists(err: Value): (r: Result<bool, Error>)
    ensures Nullish(err) ==> r == Failure(TypeError)
  {
    match Prop(err, "meta")
    case Failure(e) => Failure(e)
    case Success(meta) =>
      if !Truthy(meta) then Success(false)
      else
        var body := Prop(meta, "body").value;
        if !Truthy(body) then Success(false)
        else
          var error := Prop(body, "error").value;
          if !Truthy(error) then Success(false)
          else
            match Prop(error, "root_cause").value
            case Arr(causes) => SomeCauseExists(causes)
            case _ => Failure(TypeError)
  }

  /** The shape of an error that reports an existing index, read off the
      response: nested `meta.body.error.root_cause`, and some cause of type
      `resource_already_exists_exception` with no undefined or null cause
      before it. */
  ghost predicate ReportsExistingIndex(err: Value) {
    && err.Obj? && "meta" in err.fields
    && var meta := err.fields["meta"];
    && meta.Obj? && "body" in meta.fields
    && var body := meta.fields["body"];
    && body.Obj? && "error" in body.fields
    && var error := body.fields["error"];
    && error.Obj? && "root_cause" in error.fields
    && var causes := error.fields["root_cause"];
    && causes.Arr?
    && exists i :: 0 <= i < |causes.elems| && IsExistsCause(causes.elems[i])
                   && forall j :: 0 <= j < i ==> !Nullish(causes.elems[j])
  }

  predicate IsExistsCause(cause: Value) {
    cause.Obj? && Get(cause.fields, "type") == Str(AlreadyExistsType)
  }

  /** The classifier accepts an error exactly when it has that shape. */
  lemma AlreadyExistsExactly(err: Value)
    ensures AlreadyExists(err) == Success(true) <==> ReportsExistingIndex(err)
  {
    if AlreadyExists(err) == Success(true) {
      var causes := err.fields["meta"].fields["body"].fields["error"].fields["root_cause"].elems;
      var i := FirstMatch(causes);
      assert IsExistsCause(causes[i]);
    }
    if ReportsExistingIndex(err) {
      var causes := err.fields["meta"].fields["body"].fields["error"].fields["root_cause"].elems;
      var i :| 0 <= i < |causes| && IsExistsCause(causes[i]) && forall j :: 0 <= j < i ==> !Nullish(causes[j]);
      SomeCauseFindsMatch(causes, i);
    }
  }

  /** When the scan succeeds with true, the first cause that is not a
      non-null mismatch is the match. */
  lemma {:induction false} FirstMatch(causes: seq<Value>) returns (i: nat)
    requires SomeCauseExists(causes) == Success(true)
    ensures i < |causes| && IsExistsCause(causes[i])
    ensures forall j :: 0 <= j < i ==> !Nullish(causes[j])
  {
    if Prop(causes[0], "type") == Success(Str(AlreadyExistsType)) {
      i := 0;
    } else {
      var k := FirstMatch(causes[1..]);
      i := k + 1;
      assert forall j :: 1 <= j < i ==> causes[j] == causes[1..][j - 1];
    }
  }

  lemma {:induction false} SomeCauseFindsMatch(causes: seq<Value>, i: nat)
    requires i < |causes| && IsExistsCause(causes[i])
    requires forall j :: 0 <= j < i ==> !Nullish(causes[j])
    ensures SomeCauseExists(causes) == Success(true)
  {
    if i > 0 && Prop(causes[0], "type") != Success(Str(AlreadyExistsType)) {
      assert forall j :: 0 <= j < i - 1 ==> causes[1..][j] == causes[j + 1];
      SomeCauseFindsMatch(causes[1..], i - 1);
    }
  }

  /** `connectOpenSearch`: settings, the optional delete when
      FTS_ENGINE_RESET_AT_INIT is set (`deleted` is how it ended), then index
      creation (`createError` is what it threw, if anything). The result is
      the node URL the client is built with. */
  function Connect(env: Env, deleted: Outcome<Error>, createError: Option<Value>): (r: Result<string, Error>)
    ensures Settings(env).Failure? ==> r == Failure(Settings(env).error)
    ensures r.Success? ==> Settings(env).Success? && r.value == NodeUrl(Settings(env).value)
    ensures r.Success? <==> Settings(env).Success?
                            && (Provided(env, "FTS_ENGINE_RESET_AT_INIT") ==> deleted.Pass?)
                            && (createError.Some? ==> AlreadyExists(createError.value) == Success(true))
  {
    match Settings(env)
    case Failure(e) => Failure(e)
    case Success(node) =>
      if Provided(env, "FTS_ENGINE_RESET_AT_INIT") && deleted.Fail? then Failure(deleted.error)
      else if createError.None? then Success(NodeUrl(node))
      else
        match AlreadyExists(createError.value)
        case Failure(e) => Failure(e)
        case Success(exists_) => if exists_ then Success(NodeUrl(node)) else Failure(Thrown(createError.value))
  }

  /** `build`: connect, then a driver with an empty buffer. */
  method Build(env: Env, deleted: Outcome<Error>, createError: Option<Value>) returns (r: Result<Driver, Error>)
    ensures r.Success? <==> Connect(env, deleted, createError).Success?
    ensures r.Failure? ==> r.error == Connect(env, deleted, createError).error
    ensures r.Success? ==> fresh(r.value) && r.value.Valid() && r.value.batch == [] && r.value.handed == []
  {
    match Connect(env, deleted, createError)
    case Failure(e) => r := Failure(e);
    case Success(_) =>
      var d := new Driver();
      r := Success(d);
  }
}
