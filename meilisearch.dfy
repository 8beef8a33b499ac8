/** The Meilisearch driver (src/driver/meilisearch.mjs): a buffer of one
    record per document sent with `updateDocuments`, a flush that polls the
    task until it succeeded, an `ingestWait` with no empty check, the
    index-creation poll, the connection settings and the id mapping of
    `query`. Task states are inputs: the sequence of states the poller sees
    before its timeout. */
module Meilisearch {
  import opened Wrappers
  import opened Js
  import Batching

  const IndexName: string := "movies"
  const BatchSize: nat := 10000
  const LargeLimit: nat := 100000
  const Succeeded: string := "succeeded"
  const Failed: string := "failed"
  const IndexExistsCode: string := "index_already_exists"

  /** A task as `client.getTask` reports it. */
  datatype Task = Task(status: string, error: Value)

  /** The poll in `sendBatch`: done (`true`) once the task succeeded,
      otherwise poll again (`null`), "failed" included. */
  function UpdateSettled(task: Task): Result<bool, Error> {
    Success(task.status == Succeeded)
  }

  /** The poll after `createIndex`: a failure with code
      "index_already_exists" is as good as success; reading `error.code` of
      a failed task without an error object throws. */
  function IndexReady(task: Task): (r: Result<bool, Error>)
    ensures r.Failure? <==> task.status == Failed && Nullish(task.error)
    ensures r == Success(true) <==>
      task.status == Succeeded ||
      (task.status == Failed && Prop(task.error, "code") == Success(Str(IndexExistsCode)))
  {
    if task.status == Failed then
      match Prop(task.error, "code")
      case Failure(e) => Failure(e)
      case Success(code) => Success(code == Str(IndexExistsCode))
    else Success(task.status == Succeeded)
  }

  /** One round of the poller: `client.getTask` rejects, or reports the
      task's state. */
  type Poll = Result<Task, Error>

  /** What the poll function returns for one round: a rejected `getTask`
      throws, otherwise `check` decides. */
  function Verdict(poll: Poll, check: Task -> Result<bool, Error>): Result<bool, Error> {
    match poll
    case Failure(e) => Failure(e)
    case Success(task) => check(task)
  }

  /** What `waitFor` ends with when the poll function is run on the rounds
      in `polls`, one per interval, until the timeout. */
  function Awaited(polls: seq<Poll>, check: Task -> Result<bool, Error>): Outcome<Error>
  {
    if polls == [] then Fail(Timeout)
    else
      match Verdict(polls[0], check)
      case Failure(e) => Fail(e)
      case Success(done) => if done then Pass else Awaited(polls[1..], check)
  }

  /** `waitFor`: poll until `check` says done; a rejected `getTask` or a
      throwing check ends the wait with its error, and running out of polls
      is a timeout. */
  method WaitFor(polls: seq<Poll>, check: Task -> Result<bool, Error>) returns (o: Outcome<Error>)
    ensures o == Awaited(polls, check)
  {
    var i := 0;
    while i < |polls|
      invariant i <= |polls|
      invariant Awaited(polls[i..], check) == Awaited(polls, check)
    {
      assert polls[i..][1..] == polls[i + 1..];
      var taskNow := polls[i];
      if taskNow.Failure? {
        return Fail(taskNow.error);
      }
      var answer := check(taskNow.value);
      if answer.Failure? {
        return Fail(answer.error);
      }
      if answer.value {
        return Pass;
      }
      i := i + 1;
    }
    o := Fail(Timeout);
  }

  /** The wait ends well exactly when some poll says done and every poll
      before it said "not yet". */
  lemma {:induction false} AwaitedPasses(polls: seq<Poll>, check: Task -> Result<bool, Error>)
    ensures Awaited(polls, check) == Pass <==>
      exists i :: 0 <= i < |polls| && Verdict(polls[i], check) == Success(true) &&
                  forall j :: 0 <= j < i ==> Verdict(polls[j], check) == Success(false)
  {
    if polls != [] {
      AwaitedPasses(polls[1..], check);
      if Verdict(polls[0], check) == Success(false) {
        if Awaited(polls[1..], check) == Pass {
          var i :| 0 <= i < |polls| - 1 && Verdict(polls[1..][i], check) == Success(true) &&
                   forall j :: 0 <= j < i ==> Verdict(polls[1..][j], check) == Success(false);
          assert Verdict(polls[i + 1], check) == Success(true);
          assert forall j :: 1 <= j < i + 1 ==> Verdict(polls[j], check) == Verdict(polls[1..][j - 1], check);
        }
        if exists i :: 0 <= i < |polls| && Verdict(polls[i], check) == Success(true) &&
                       forall j :: 0 <= j < i ==> Verdict(polls[j], check) == Success(false) {
          var i :| 0 <= i < |polls| && Verdict(polls[i], check) == Success(true) &&
                   forall j :: 0 <= j < i ==> Verdict(polls[j], check) == Success(false);
          assert i != 0;
          assert Verdict(polls[1..][i - 1], check) == Success(true);
          assert forall j :: 0 <= j < i - 1 ==> Verdict(polls[1..][j], check) == Verdict(polls[j + 1], check);
        }
      }
    }
  }

  /** The wait fails with the error of the first poll that throws when every
      poll before it said "not yet", and times out when every poll did. */
  lemma {:induction false} AwaitedFails(polls: seq<Poll>, check: Task -> Result<bool, Error>)
    ensures (forall i :: 0 <= i < |polls| ==> Verdict(polls[i], check) == Success(false)) ==>
              Awaited(polls, check) == Fail(Timeout)
    ensures forall i :: 0 <= i < |polls| && Verdict(polls[i], check).Failure? &&
                        (forall j :: 0 <= j < i ==> Verdict(polls[j], check) == Success(false)) ==>
              Awaited(polls, check) == Fail(Verdict(polls[i], check).error)
  {
    if polls != [] {
      AwaitedFails(polls[1..], check);
      assert forall i :: 1 <= i < |polls| ==> polls[i] == polls[1..][i - 1];
      forall i | 0 < i < |polls| && Verdict(polls[i], check).Failure? &&
                 (forall j :: 0 <= j < i ==> Verdict(polls[j], check) == Success(false))
        ensures Awaited(polls, check) == Fail(Verdict(polls[i], check).error)
      {
        assert Verdict(polls[0], check) == Success(false);
        assert Verdict(polls[1..][i - 1], check).Failure?;
        assert forall j :: 0 <= j < i - 1 ==> Verdict(polls[1..][j], check) == Verdict(polls[j + 1], check);
      }
    }
  }

  /** A flush completes only once a poll reports "succeeded" with no
      rejected `getTask` before it; otherwise it ends with the first
      rejection's error, or, with neither in sight ("failed" included),
      times out. */
  lemma {:induction false} FlushNeedsSuccess(polls: seq<Poll>)
    ensures Awaited(polls, UpdateSettled) == Pass <==>
      exists i :: 0 <= i < |polls| && polls[i].Success? && polls[i].value.status == Succeeded &&
                  forall j :: 0 <= j < i ==> polls[j].Success?
    ensures (forall i :: 0 <= i < |polls| ==> polls[i].Success? && polls[i].value.status != Succeeded) ==>
              Awaited(polls, UpdateSettled) == Fail(Timeout)
    ensures forall i :: 0 <= i < |polls| && polls[i].Failure? &&
                        (forall j :: 0 <= j < i ==> polls[j].Success? && polls[j].value.status != Succeeded) ==>
              Awaited(polls, UpdateSettled) == Fail(polls[i].error)
  {
    AwaitedFails(polls, UpdateSettled);
    if polls != [] {
      FlushNeedsSuccess(polls[1..]);
      assert forall i :: 1 <= i < |polls| ==> polls[i] == polls[1..][i - 1];
      if polls[0].Success? && polls[0].value.status != Succeeded {
        if Awaited(polls, UpdateSettled) == Pass {
          var i :| 0 <= i < |polls| - 1 && polls[1..][i].Success? && polls[1..][i].value.status == Succeeded &&
                   forall j :: 0 <= j < i ==> polls[1..][j].Success?;
          assert polls[i + 1].Success? && polls[i + 1].value.status == Succeeded;
        }
        if exists i :: 0 <= i < |polls| && polls[i].Success? && polls[i].value.status == Succeeded &&
                       forall j :: 0 <= j < i ==> polls[j].Success? {
          var i :| 0 <= i < |polls| && polls[i].Success? && polls[i].value.status == Succeeded &&
                   forall j :: 0 <= j < i ==> polls[j].Success?;
          assert polls[1..][i - 1].Success? && polls[1..][i - 1].value.status == Succeeded;
        }
      }
    }
  }

  /** How `updateDocuments` (or `createIndex`) answers: it throws, or
      enqueues a task whose states the poller then sees. */
  datatype TaskReply = TaskThrew(error: Error) | Enqueued(polls: seq<Poll>)

  /** How `sendBatch` ends. */
  function FlushOutcome(reply: TaskReply): Outcome<Error> {
    match reply
    case TaskThrew(e) => Fail(e)
    case Enqueued(polls) => Awaited(polls, UpdateSettled)
  }

  /** The driver object `build` returns, with the module-level `CURRENT_BATCH`. */
  class Driver {
    var batch: seq<Batching.Row>
    /** The batches handed to `updateDocuments`, in order. */
    ghost var handed: seq<seq<Batching.Row>>

    ghost predicate Valid()
      reads this
    {
      |batch| <= BatchSize
    }

    constructor ()
      ensures Valid() && batch == [] && handed == []
    {
      batch := [];
      handed := [];
    }

    /** `sendBatch(batch)`: one `updateDocuments` call, then the task poll. */
    method SendBatch(reply: TaskReply) returns (o: Outcome<Error>)
      modifies this`handed
      ensures handed == old(handed) + [batch]
      ensures o == FlushOutcome(reply)
    {
      handed := handed + [batch];
      match reply
      case TaskThrew(e) =>
        o := Fail(e);
      case Enqueued(polls) =>
        o := WaitFor(polls, UpdateSettled);
    }

    /** `ingest`: below the batch size push the record; otherwise send the
        buffer and, once the task succeeded, reset it, dropping the document. */
    method Ingest(document: Value, reply: TaskReply) returns (o: Outcome<Error>)
      requires Valid()
      modifies this
      ensures Valid()
      ensures var s := Batching.Ingest(old(batch), BatchSize, Batching.RecordOf(document), FlushOutcome(reply));
        batch == s.buffer && handed == old(handed) + Batching.HandedList(s.handed) && o == s.outcome
    {
      if |batch| < BatchSize {
        var row := Batching.RowOf(document);
        if row.Failure? {
          return Fail(row.error);
        }
        batch := batch + [row.value];
        return Pass;
      }
      o := SendBatch(reply);
      if o.Pass? {
        batch := [];
      }
    }

    /** `ingestWait`: always one send, even of an empty buffer; the buffer is
        left as it is. */
    method IngestWait(reply: TaskReply) returns (o: Outcome<Error>)
      modifies this`handed
      ensures batch == old(batch)
      ensures handed == old(handed) + [batch]
      ensures o == Batching.Wait(batch, false, FlushOutcome(reply)).outcome
    {
      o := SendBatch(reply);
    }
  }

  /** The search request `query` sends. */
  datatype SearchRequest = SearchRequest(q: Value, limit: nat)

  type Search = SearchRequest -> Result<seq<map<string, Value>>, Error>

  /** `query`: one search for the phrase, limited to 100,000 hits, and
      `results.hits.map(r => r.id)`: the `id` of every hit, in hit order. */
  function Query(phrase: Value, search: Search): (r: Result<seq<Value>, Error>)
    ensures var answer := search(SearchRequest(phrase, 100000));
      (answer.Failure? ==> r == Failure(answer.error)) &&
      (answer.Success? ==> r.Success? && |r.value| == |answer.value| &&
                           forall i :: 0 <= i < |answer.value| ==> r.value[i] == Get(answer.value[i], "id"))
  {
    match search(SearchRequest(phrase, LargeLimit))
    case Failure(e) => Failure(e)
    case Success(hits) => Success(Pluck(hits, "id"))
  }

  /** The connection settings `connectMeilisearch` reads. */
  datatype Node = Node(url: string, apiKey: string)

  /** The URL and the API key are both required, checked in that order. */
  function Settings(env: Env): (r: Result<Node, Error>)
    ensures r.Success? <==> Provided(env, "MEILI_URL") && Provided(env, "MEILI_API_KEY")
    ensures !Provided(env, "MEILI_URL") ==> r == Failure(MissingSetting("MEILI_URL"))
    ensures Provided(env, "MEILI_URL") && !Provided(env, "MEILI_API_KEY") ==> r == Failure(MissingSetting("MEILI_API_KEY"))
    ensures r.Success? ==> r.value == Node(env["MEILI_URL"], env["MEILI_API_KEY"])
  {
    if !Provided(env, "MEILI_URL") then Failure(MissingSetting("MEILI_URL"))
    else if !Provided(env, "MEILI_API_KEY") then Failure(MissingSetting("MEILI_API_KEY"))
    else Success(Node(env["MEILI_URL"], env["MEILI_API_KEY"]))
  }

  /** `connectMeilisearch`: settings; with FTS_ENGINE_RESET_AT_INIT set, the
      call `client.index.deleteIndex()` reads a property of the `index`
      method and calls `undefined`, which throws; then `createIndex` and the
      poll until the index is ready. */
  function Connect(env: Env, created: TaskReply): (r: Result<Node, Error>)
    ensures Settings(env).Failure? ==> r == Settings(env)
    ensures Settings(env).Success? && Provided(env, "FTS_ENGINE_RESET_AT_INIT") ==> r == Failure(TypeError)
    ensures r.Success? <==> Settings(env).Success? && !Provided(env, "FTS_ENGINE_RESET_AT_INIT")
                            && created.Enqueued? && Awaited(created.polls, IndexReady) == Pass
  {
    match Settings(env)
    case Failure(e) => Failure(e)
    case Success(node) =>
      if Provided(env, "FTS_ENGINE_RESET_AT_INIT") then Failure(TypeError)
      else
        match created
        case TaskThrew(e) => Failure(e)
        case Enqueued(polls) =>
          match Awaited(polls, IndexReady)
          case Fail(e) => Failure(e)
          case Pass => Success(node)
  }

  /** Index creation is accepted on the first poll that reports success or
      a failure because the index exists, provided every earlier `getTask`
      answered and reported neither; a failed task without an error object
      met first ends the wait with a TypeError. */
  lemma {:induction false} IndexCreationAccepted(polls: seq<Poll>)
    ensures Awaited(polls, IndexReady) == Pass <==>
      exists i :: 0 <= i < |polls| && polls[i].Success? && IndexReady(polls[i].value) == Success(true) &&
                  forall j :: 0 <= j < i ==> polls[j].Success? && IndexReady(polls[j].value) == Success(false)
    ensures forall i :: 0 <= i < |polls| && polls[i].Success? && polls[i].value.status == Failed &&
                        Nullish(polls[i].value.error) &&
                        (forall j :: 0 <= j < i ==> polls[j].Success? && IndexReady(polls[j].value) == Success(false)) ==>
              Awaited(polls, IndexReady) == Fail(TypeError)
  {
    AwaitedPasses(polls, IndexReady);
    AwaitedFails(polls, IndexReady);
    assert forall j :: 0 <= j < |polls| ==>
      (Verdict(polls[j], IndexReady) == Success(false) <==> polls[j].Success? && IndexReady(polls[j].value) == Success(false));
    assert forall j :: 0 <= j < |polls| ==>
      (Verdict(polls[j], IndexReady) == Success(true) <==> polls[j].Success? && IndexReady(polls[j].value) == Success(true));
  }

  /** `build`: connect, then a driver with an empty buffer. */
  method Build(env: Env, created: TaskReply) returns (r: Result<Driver, Error>)
    ensures r.Success? <==> Connect(env, created).Success?
    ensures r.Failure? ==> r.error == Connect(env, created).error
    ensures r.Success? ==> fresh(r.value) && r.value.Valid() && r.value.batch == [] && r.value.handed == []
  {
    match Connect(env, created)
    case Failure(e) => r := Failure(e);
    case Success(_) =>
      var d := new Driver();
      r := Success(d);
  }
}
