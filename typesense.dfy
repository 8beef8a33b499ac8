/** The Typesense driver (src/driver/typesense.mjs): a buffer of one record
    per document imported in bulk, an import that throws when any document
    failed, a search that walks pages of 250 hits, and the connection
    settings. */
module Typesense {
  import opened Wrappers
  import opened Js
  import Batching

  const CollectionName: string := "movies"
  const BatchSize: nat := 10000
  const PerPage: nat := 250
  const QueryBy: string := "title"
  const AlreadyExistsName: string := "ObjectAlreadyExists"

  /** One entry of the import response. */
  datatype ImportResult = ImportResult(success: Value)

  /** How the import call answers: it throws, or returns one result per document. */
  datatype ImportReply = ImportThrew(error: Error) | Imported(results: seq<ImportResult>)

  /** `results.filter(item => item.success === false)` */
  function Rejected(results: seq<ImportResult>): (r: seq<ImportResult>)
    ensures |r| <= |results|
    ensures forall i :: 0 <= i < |r| ==> r[i].success == Bool(false)
    ensures |r| > 0 <==> exists i :: 0 <= i < |results| && results[i].success == Bool(false)
  {
    if results == [] then []
    else
      var rest := Rejected(results[1..]);
      assert forall i :: 1 <= i < |results| ==> results[i] == results[1..][i - 1];
      (if results[0].success == Bool(false) then [results[0]] else []) + rest
  }

  /** `sendBatch` throws when the import throws or when some result has
      `success === false`; a missing or non-boolean `success` is not a failure. */
  function ImportOutcome(reply: ImportReply): (o: Outcome<Error>)
    ensures reply.ImportThrew? ==> o == Fail(reply.error)
    ensures reply.Imported? ==>
      (o.Fail? <==> exists i :: 0 <= i < |reply.results| && reply.results[i].success == Bool(false))
    ensures reply.Imported? && o.Fail? ==> o.error == IngestFailed
  {
    match reply
    case ImportThrew(e) => Fail(e)
    case Imported(results) => if |Rejected(results)| > 0 then Fail(IngestFailed) else Pass
  }

  /** The driver object `build` returns, with the module-level `CURRENT_BATCH`. */
  class Driver {
    var batch: seq<Batching.Row>
    /** The batches handed to the import call, in order. */
    ghost var handed: seq<seq<Batching.Row>>

    ghost predicate Valid()
      reads this
    {
      |batch| <= BatchSize
    }

    constructor ()
      ensures Valid() && batch == [] && handed == []
    {
      batch := [];
      handed := [];
    }

    /** `sendBatch(batch)`: one import of the whole buffer. */
    method SendBatch(reply: ImportReply) returns (o: Outcome<Error>)
      modifies this`handed
      ensures handed == old(handed) + [batch]
      ensures o == ImportOutcome(reply)
    {
      handed := handed + [batch];
      o := ImportOutcome(reply);
    }

    /** `ingest`: below the batch size push the record; otherwise import the
        buffer and, if that did not throw, reset it, dropping the document. */
    method Ingest(document: Value, reply: ImportReply) returns (o: Outcome<Error>)
      requires Valid()
      modifies this
      ensures Valid()
      ensures var s := Batching.Ingest(old(batch), BatchSize, Batching.RecordOf(document), ImportOutcome(reply));
        batch == s.buffer && handed == old(handed) + Batching.HandedList(s.handed) && o == s.outcome
    {
      if |batch| < BatchSize {
        var row := Batching.RowOf(document);
        if row.Failure? {
          return Fail(row.error);
        }
        batch := batch + [row.value];
        return Pass;
      }
      o := SendBatch(reply);
      if o.Pass? {
        batch := [];
      }
    }

    /** `ingestWait`: nothing on an empty buffer, otherwise one import; the
        buffer is left as it is. */
    method IngestWait(reply: ImportReply) returns (o: Outcome<Error>)
      modifies this`handed
      ensures batch == old(batch)
      ensures var s := Batching.Wait(batch, true, ImportOutcome(reply));
        handed == old(handed) + Batching.HandedList(s.handed) && o == s.outcome
    {
      if |batch| == 0 {
        return Pass;
      }
      o := SendBatch(reply);
    }
  }

  /** Starting from an empty buffer, after k well-formed documents whose
      imports succeed the buffer holds k mod 10001 records and k div 10001
      imports of 10,000 records each have been made. */
  lemma BufferCadence(docs: seq<seq<Batching.Row>>)
    requires forall i :: 0 <= i < |docs| ==> |docs[i]| == 1
    ensures var t := Batching.Replay(BatchSize, docs);
      && |t.buffer| == |docs| % (BatchSize + 1)
      && |t.handed| == |docs| / (BatchSize + 1)
      && (forall j :: 0 <= j < |t.handed| ==> |t.handed[j]| == BatchSize)
  {
    Batching.Cadence(1, BatchSize, docs);
  }

  /** A search hit; the ids are read from its `document`. */
  datatype Hit = Hit(document: map<string, Value>)

  /** The parameters of one search request. */
  datatype PageRequest = PageRequest(q: Value, queryBy: string, page: nat, perPage: nat)

  type Search = PageRequest -> Result<seq<Hit>, Error>

  /** The answer to page `page` of the search for `phrase`. */
  function Page(search: Search, phrase: Value, page: nat): Result<seq<Hit>, Error> {
    search(PageRequest(phrase, QueryBy, page, PerPage))
  }

  /** The loop stops after a page that throws or has other than 250 hits. */
  predicate Stops(answer: Result<seq<Hit>, Error>) {
    answer.Failure? || |answer.value| != PerPage
  }

  /** Pages 1 to n concatenated, in page order. */
  function Collected(search: Search, phrase: Value, n: nat): seq<Hit>
    requires forall p :: 1 <= p <= n ==> Page(search, phrase, p).Success?
  {
    if n == 0 then [] else Collected(search, phrase, n - 1) + Page(search, phrase, n).value
  }

  /** `allHits.map(r => r.document.id)` */
  function IdsOf(hits: seq<Hit>): (ids: seq<Value>)
    ensures |ids| == |hits|
    ensures forall i :: 0 <= i < |hits| ==> ids[i] == Get(hits[i].document, "id")
  {
    Pluck(seq(|hits|, i requires 0 <= i < |hits| => hits[i].document), "id")
  }

  /** `query`: fetch pages 1, 2, ... until one does not hold exactly 250 hits
      and return the ids of all hits, in page order. `pages` is the number of
      pages fetched. */
  method Query(phrase: Value, search: Search) returns (r: Result<seq<Value>, Error>, pages: nat)
    requires exists p :: p >= 1 && Stops(Page(search, phrase, p))
    ensures pages >= 1 && Stops(Page(search, phrase, pages))
    ensures forall p :: 1 <= p < pages ==>
              Page(search, phrase, p).Success? && |Page(search, phrase, p).value| == PerPage
    ensures Page(search, phrase, pages).Failure? ==> r == Failure(Page(search, phrase, pages).error)
    ensures Page(search, phrase, pages).Success? ==> r == Success(IdsOf(Collected(search, phrase, pages)))
  {
    ghost var last :| last >= 1 && Stops(Page(search, phrase, last));
    var page := 1;
    var newest := search(PageRequest(phrase, QueryBy, page, PerPage));
    if newest.Failure? {
      return Failure(newest.error), page;
    }
    var allHits := newest.value;
    while |newest.value| == PerPage
      invariant 1 <= page <= last
      invariant newest == Page(search, phrase, page) && newest.Success?
      invariant forall p :: 1 <= p < page ==>
                  Page(search, phrase, p).Success? && |Page(search, phrase, p).value| == PerPage
      invariant allHits == Collected(search, phrase, page)
      decreases last - page
    {
      page := page + 1;
      newest := search(PageRequest(phrase, QueryBy, page, PerPage));
      if newest.Failure? {
        return Failure(newest.error), page;
      }
      allHits := allHits + newest.value;
    }
    r, pages := Success(IdsOf(allHits)), page;
  }

  /** Every page but the last holds 250 hits, so the result has
      250 * (pages - 1) hits plus those of the last page. */
  lemma {:induction false} CollectedSize(search: Search, phrase: Value, n: nat)
    requires n >= 1
    requires forall p :: 1 <= p <= n ==> Page(search, phrase, p).Success?
    requires forall p :: 1 <= p < n ==> |Page(search, phrase, p).value| == PerPage
    ensures |Collected(search, phrase, n)| == PerPage * (n - 1) + |Page(search, phrase, n).value|
  {
    if n > 1 {
      CollectedSize(search, phrase, n - 1);
    }
  }

  /** The connection settings `connectTypesense` reads. */
  datatype Node = Node(host: string, port: string, apiKey: string)

  /** Host, port and API key are required, checked in that order. */
  function Settings(env: Env): (r: Result<Node, Error>)
    ensures r.Success? <==> Provided(env, "TYPESENSE_HOST") && Provided(env, "TYPESENSE_PORT")
                            && Provided(env, "TYPESENSE_API_KEY")
    ensures !Provided(env, "TYPESENSE_HOST") ==> r == Failure(MissingSetting("TYPESENSE_HOST"))
    ensures Provided(env, "TYPESENSE_HOST") && !Provided(env, "TYPESENSE_PORT") ==>
              r == Failure(MissingSetting("TYPESENSE_PORT"))
    ensures Provided(env, "TYPESENSE_HOST") && Provided(env, "TYPESENSE_PORT") &&
            !Provided(env, "TYPESENSE_API_KEY") ==>
              r == Failure(MissingSetting("TYPESENSE_API_KEY"))
    ensures r.Success? ==> r.value == Node(env["TYPESENSE_HOST"], env["TYPESENSE_PORT"], env["TYPESENSE_API_KEY"])
  {
    if !Provided(env, "TYPESENSE_HOST") then Failure(MissingSetting("TYPESENSE_HOST"))
    else if !Provided(env, "TYPESENSE_PORT") then Failure(MissingSetting("TYPESENSE_PORT"))
    else if !Provided(env, "TYPESENSE_API_KEY") then Failure(MissingSetting("TYPESENSE_API_KEY"))
    else Success(Node(env["TYPESENSE_HOST"], env["TYPESENSE_PORT"], env["TYPESENSE_API_KEY"]))
  }

  /** The catch around collection creation: an error whose `name` is
      "ObjectAlreadyExists" is swallowed, any other is rethrown (and reading
      `name` off an undefined or null error throws). */
  function CreationOutcome(createError: Option<Value>): (o: Outcome<Error>)
    ensures createError.None? ==> o == Pass
    ensures createError.Some? && !Nullish(createError.value) ==>
      (o.Pass? <==> Prop(createError.value, "name") == Success(Str(AlreadyExistsName)))
    ensures createError.Some? && Nullish(createError.value) ==> o == Fail(TypeError)
  {
    match createError
    case None => Pass
    case Some(err) =>
      match Prop(err, "name")
      case Failure(e) => Fail(e)
      case Success(name) => if name != Str(AlreadyExistsName) then Fail(Thrown(err)) else Pass
  }

  /** `connectTypesense`: settings, the optional delete when
      FTS_ENGINE_RESET_AT_INIT is set, then collection creation. */
  function Connect(env: Env, deleted: Outcome<Error>, createError: Option<Value>): (r: Result<Node, Error>)
    ensures r.Success? <==> Settings(env).Success?
                            && (Provided(env, "FTS_ENGINE_RESET_AT_INIT") ==> deleted.Pass?)
                            && CreationOutcome(createError).Pass?
    ensures r.Success? ==> r == Settings(env)
    ensures Settings(env).Failure? ==> r == Settings(env)
  {
    match Settings(env)
    case Failure(e) => Failure(e)
    case Success(node) =>
      if Provided(env, "FTS_ENGINE_RESET_AT_INIT") && deleted.Fail? then Failure(deleted.error)
      else
        match CreationOutcome(createError)
        case Fail(e) => Failure(e)
        case Pass => Success(node)
  }

  /** `build`: connect, then a driver with an empty buffer. */
  method Build(env: Env, deleted: Outcome<Error>, createError: Option<Value>) returns (r: Result<Driver, Error>)
    ensures r.Success? <==> Connect(env, deleted, createError).Success?
    ensures r.Failure? ==> r.error == Connect(env, deleted, createError).error
    ensures r.Success? ==> fresh(r.value) && r.value.Valid() && r.value.batch == [] && r.value.handed == []
  {
    match Connect(env, deleted, createError)
    case Failure(e) => r := Failure(e);
    case Success(_) =>
      var d := new Driver();
      r := Success(d);
  }
}
