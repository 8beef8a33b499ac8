/** The benchmark runner (src/driver/index.mjs): `main` checks the engine
    and the operation, `createDriver` yields a driver, and `execute` feeds it
    one `ingest` per line of the ingest file (then `ingestWait`) and one
    `query` per line of the query file. A driver is seen only through its
    answers: `backend(trace)` is how the last call of `trace` ends, given
    every call made before it. Files are a map from path to lines, and
    `JSON.parse` is the `parse` input, `None` where it throws. */
module Orchestrator {
  import opened Wrappers
  import opened Js

  /** One call into a driver. */
  datatype Call = IngestCall(document: Value) | IngestWaitCall | QueryCall(phrase: Value)

  /** How a call ended: it resolved (a query with its ids) or it threw. */
  datatype Reply = Returned(ids: seq<Value>) | Threw(error: Error)

  type Backend = seq<Call> -> Reply

  /** The files the runner may read, and `JSON.parse`. */
  datatype World = World(fs: map<string, seq<string>>, parse: string -> Option<Value>)

  /** What a run ends with, and every call made to the driver by then. */
  datatype Run = Run(outcome: Outcome<Error>, calls: seq<Call>)

  const Modes: set<string> := {"ingest", "query", "ingest+query"}

  /** The driver object: whether it has `ingestWait`, and the calls made on it. */
  class Driver {
    const hasIngestWait: bool
    const backend: Backend
    var calls: seq<Call>

    constructor (hasIngestWait: bool, backend: Backend)
      ensures this.hasIngestWait == hasIngestWait && this.backend == backend && calls == []
    {
      this.hasIngestWait := hasIngestWait;
      this.backend := backend;
      calls := [];
    }

    method Ingest(document: Value) returns (r: Reply)
      modifies this
      ensures calls == old(calls) + [IngestCall(document)] && r == backend(calls)
    {
      calls := calls + [IngestCall(document)];
      r := backend(calls);
    }

    method IngestWait() returns (r: Reply)
      requires hasIngestWait
      modifies this
      ensures calls == old(calls) + [IngestWaitCall] && r == backend(calls)
    {
      calls := calls + [IngestWaitCall];
      r := backend(calls);
    }

    method Query(phrase: Value) returns (r: Reply)
      modifies this
      ensures calls == old(calls) + [QueryCall(phrase)] && r == backend(calls)
    {
      calls := calls + [QueryCall(phrase)];
      r := backend(calls);
    }
  }

  /** The `obj` of one line: what `JSON.parse` returns, or `undefined` when
      it threw (the error is only logged). */
  function Document(parse: string -> Option<Value>, line: string): Value {
    match parse(line)
    case Some(v) => v
    case None => Undefined
  }

  function IngestCalls(lines: seq<string>, parse: string -> Option<Value>): seq<Call> {
    seq(|lines|, i requires 0 <= i < |lines| => IngestCall(Document(parse, lines[i])))
  }

  function QueryCalls(lines: seq<string>, parse: string -> Option<Value>): seq<Call> {
    seq(|lines|, i requires 0 <= i < |lines| => QueryCall(Document(parse, lines[i])))
  }

  /** Awaiting `todo[i..]` one after another after `calls`: the first call
      that throws ends the run. */
  function Issue(backend: Backend, calls: seq<Call>, todo: seq<Call>, i: nat): Run
    decreases |todo| - i
  {
    if i >= |todo| then Run(Pass, calls)
    else
      var next := calls + [todo[i]];
      match backend(next)
      case Threw(e) => Run(Fail(e), next)
      case Returned(_) => Issue(backend, next, todo, i + 1)
  }

  /** A run issues a prefix of `todo[i..]`, in order; every call before the
      last returned; it passes only after issuing all of them, each one
      returning, and it fails with the error of the last call it issued. */
  lemma {:induction false} IssueShape(backend: Backend, calls: seq<Call>, todo: seq<Call>, i: nat)
    requires i <= |todo|
    ensures var r := Issue(backend, calls, todo, i);
      |calls| <= |r.calls| <= |calls| + |todo| - i &&
      r.calls == calls + todo[i..i + |r.calls| - |calls|] &&
      (forall m :: |calls| < m < |r.calls| ==> backend(r.calls[..m]).Returned?) &&
      (r.outcome.Pass? ==> r.calls == calls + todo[i..] && (r.calls == calls || backend(r.calls).Returned?)) &&
      (r.outcome.Fail? ==> |r.calls| > |calls| && backend(r.calls) == Threw(r.outcome.error))
    decreases |todo| - i
  {
    if i < |todo| {
      var next := calls + [todo[i]];
      if backend(next).Returned? {
        IssueShape(backend, next, todo, i + 1);
        var r := Issue(backend, next, todo, i + 1);
        var n := |r.calls| - |next|;
        assert todo[i..i + 1 + n] == [todo[i]] + todo[i + 1..i + 1 + n];
        assert r.calls[..|next|] == next;
        assert todo[i..] == [todo[i]] + todo[i + 1..];
      }
    }
  }

  /** A driver whose every call returns receives exactly `todo[i..]`. */
  lemma ReliableBackendGetsAll(backend: Backend, calls: seq<Call>, todo: seq<Call>, i: nat)
    requires i <= |todo|
    requires forall trace :: backend(trace).Returned?
    ensures Issue(backend, calls, todo, i) == Run(Pass, calls + todo[i..])
  {
    IssueShape(backend, calls, todo, i);
  }

  /** `executeIngest`: a falsy path throws; an unreadable file throws; each
      line is ingested in order; `ingestWait`, when the driver has it, comes
      after the last line. */
  function IngestRun(hasWait: bool, backend: Backend, calls: seq<Call>, inputPath: Option<string>, world: World): Run {
    if inputPath.None? || inputPath.value == "" then Run(Fail(MissingInputPath), calls)
    else if inputPath.value !in world.fs then Run(Fail(Unreadable(inputPath)), calls)
    else
      var fed := Issue(backend, calls, IngestCalls(world.fs[inputPath.value], world.parse), 0);
      if fed.outcome.Fail? || !hasWait then fed
      else Issue(backend, fed.calls, [IngestWaitCall], 0)
  }

  /** `executeQuery`: `createReadStream(undefined)` throws a TypeError; an
      unreadable file throws; each line is one query, in order. */
  function QueryRun(backend: Backend, calls: seq<Call>, inputPath: Option<string>, world: World): Run {
    if inputPath.None? then Run(Fail(TypeError), calls)
    else if inputPath.value !in world.fs then Run(Fail(Unreadable(inputPath)), calls)
    else Issue(backend, calls, QueryCalls(world.fs[inputPath.value], world.parse), 0)
  }

  /** The ingest phase issues only ingests, then at most one `ingestWait`,
      last, and that only once every ingest returned; when it passes, the
      driver saw one ingest per line, in order, and then `ingestWait`. */
  lemma IngestRunShape(hasWait: bool, backend: Backend, calls: seq<Call>, inputPath: Option<string>, world: World)
    ensures var r := IngestRun(hasWait, backend, calls, inputPath, world);
      |calls| <= |r.calls| && r.calls[..|calls|] == calls &&
      (forall m :: |calls| <= m < |r.calls| ==>
         r.calls[m].IngestCall? || (r.calls[m] == IngestWaitCall && hasWait && m == |r.calls| - 1 &&
                                    forall k :: |calls| < k <= m ==> backend(r.calls[..k]).Returned?))
    ensures var r := IngestRun(hasWait, backend, calls, inputPath, world);
      r.outcome.Pass? ==>
        inputPath.Some? && inputPath.value in world.fs &&
        r.calls == calls + IngestCalls(world.fs[inputPath.value], world.parse) + (if hasWait then [IngestWaitCall] else []) &&
        forall i :: 0 <= i < |world.fs[inputPath.value]| && world.parse(world.fs[inputPath.value][i]).None? ==>
          r.calls[|calls| + i] == IngestCall(Undefined)
    ensures inputPath.None? || inputPath == Some("") ==>
      IngestRun(hasWait, backend, calls, inputPath, world) == Run(Fail(MissingInputPath), calls)
  {
    if inputPath.Some? && inputPath.value != "" && inputPath.value in world.fs {
      var todo := IngestCalls(world.fs[inputPath.value], world.parse);
      IssueShape(backend, calls, todo, 0);
      var fed := Issue(backend, calls, todo, 0);
      assert fed.calls[..|calls|] == calls;
      if fed.outcome.Pass? && hasWait {
        IssueShape(backend, fed.calls, [IngestWaitCall], 0);
        var r := Issue(backend, fed.calls, [IngestWaitCall], 0);
        assert r.calls[..|fed.calls|] == fed.calls;
        forall k | |calls| < k < |r.calls|
          ensures backend(r.calls[..k]).Returned?
        {
          if k == |fed.calls| {
            assert r.calls[..k] == fed.calls;
          } else {
            assert r.calls[..k] == fed.calls[..k];
          }
        }
        assert forall m :: |calls| <= m < |fed.calls| ==> r.calls[m] == fed.calls[m];
      }
    }
  }

  /** The query phase issues only queries; when it passes, the driver saw
      one query per line of the file, in order. */
  lemma QueryRunShape(backend: Backend, calls: seq<Call>, inputPath: Option<string>, world: World)
    ensures var r := QueryRun(backend, calls, inputPath, world);
      |calls| <= |r.calls| && r.calls[..|calls|] == calls &&
      (forall m :: |calls| <= m < |r.calls| ==> r.calls[m].QueryCall?)
    ensures var r := QueryRun(backend, calls, inputPath, world);
      r.outcome.Pass? ==>
        inputPath.Some? && inputPath.value in world.fs &&
        r.calls == calls + QueryCalls(world.fs[inputPath.value], world.parse)
  {
    if inputPath.Some? && inputPath.value in world.fs {
      var todo := QueryCalls(world.fs[inputPath.value], world.parse);
      IssueShape(backend, calls, todo, 0);
      var r := Issue(backend, calls, todo, 0);
      assert r.calls[..|calls|] == calls;
      assert forall m :: |calls| <= m < |r.calls| ==> r.calls[m] == todo[m - |calls|];
    }
  }

  /** `execute({ op, ... })`. */
  function Dispatch(op: Option<string>, hasWait: bool, backend: Backend, calls: seq<Call>,
                    ingestPath: Option<string>, queryPath: Option<string>, world: World): (r: Run)
    ensures op.None? || op.value !in Modes ==> r == Run(Fail(InvalidOperation), calls)
  {
    if op == Some("ingest") then IngestRun(hasWait, backend, calls, ingestPath, world)
    else if op == Some("query") then QueryRun(backend, calls, queryPath, world)
    else if op == Some("ingest+query") then
      var ingested := IngestRun(hasWait, backend, calls, ingestPath, world);
      if ingested.outcome.Fail? then ingested
      else QueryRun(backend, ingested.calls, queryPath, world)
    else Run(Fail(InvalidOperation), calls)
  }

  /** In "ingest+query" no query is issued unless the whole ingest phase
      passed, and every query comes after all of its calls. */
  lemma QueriesFollowIngest(hasWait: bool, backend: Backend, calls: seq<Call>,
                            ingestPath: Option<string>, queryPath: Option<string>, world: World)
    ensures var r := Dispatch(Some("ingest+query"), hasWait, backend, calls, ingestPath, queryPath, world);
      var ingested := IngestRun(hasWait, backend, calls, ingestPath, world);
      forall m :: |calls| <= m < |r.calls| && r.calls[m].QueryCall? ==>
        ingested.outcome.Pass? && |ingested.calls| <= m
  {
    IngestRunShape(hasWait, backend, calls, ingestPath, world);
    var ingested := IngestRun(hasWait, backend, calls, ingestPath, world);
    if ingested.outcome.Pass? && queryPath.Some? && queryPath.value in world.fs {
      var todo := QueryCalls(world.fs[queryPath.value], world.parse);
      IssueShape(backend, ingested.calls, todo, 0);
      var r := Issue(backend, ingested.calls, todo, 0);
      assert forall m :: |calls| <= m < |ingested.calls| ==> r.calls[m] == ingested.calls[m];
    }
  }

  /** `main`'s check of `OP` and of the input paths the operation needs: the
      path must be set and name an existing file. */
  function CheckOperation(env: Env, fs: map<string, seq<string>>): Outcome<Error> {
    if "OP" !in env || env["OP"] !in Modes then Fail(InvalidOperation)
    else if Includes(env["OP"], "ingest") && !(Provided(env, "INGEST_INPUT_PATH") && env["INGEST_INPUT_PATH"] in fs)
    then Fail(InvalidInputPath("INGEST_INPUT_PATH"))
    else if Includes(env["OP"], "query") && !(Provided(env, "QUERY_INPUT_PATH") && env["QUERY_INPUT_PATH"] in fs)
    then Fail(InvalidInputPath("QUERY_INPUT_PATH"))
    else Pass
  }

  /** The ingest file must exist for "ingest" and "ingest+query", the query
      file for "query" and "ingest+query", and nothing else is demanded. */
  lemma {:induction false} OperationAccepted(env: Env, fs: map<string, seq<string>>)
    ensures CheckOperation(env, fs).Pass? <==>
      "OP" in env && env["OP"] in Modes &&
      (env["OP"] != "query" ==> Provided(env, "INGEST_INPUT_PATH") && env["INGEST_INPUT_PATH"] in fs) &&
      (env["OP"] != "ingest" ==> Provided(env, "QUERY_INPUT_PATH") && env["QUERY_INPUT_PATH"] in fs)
  {
    IncludesMeansInfix("ingest+query", "query");
    assert InfixAt("ingest+query", "query", 7);
    IncludesMeansInfix("ingest", "query");
    assert "ingest"[0..5][0] != "query"[0] && "ingest"[1..6][0] != "query"[0];
  }

  /** `executeIngest` over the driver's real calls. */
  method ExecuteIngest(driver: Driver, inputPath: Option<string>, world: World) returns (o: Outcome<Error>, processed: nat)
    modifies driver
    ensures var r := IngestRun(driver.hasIngestWait, driver.backend, old(driver.calls), inputPath, world);
      o == r.outcome && driver.calls == r.calls
    ensures o.Pass? ==> inputPath.Some? && inputPath.value in world.fs && processed == |world.fs[inputPath.value]|
  {
    processed := 0;
    if inputPath.None? || inputPath.value == "" {
      return Fail(MissingInputPath), 0;
    }
    if inputPath.value !in world.fs {
      return Fail(Unreadable(inputPath)), 0;
    }
    var lines := world.fs[inputPath.value];
    ghost var todo := IngestCalls(lines, world.parse);
    ghost var start := driver.calls;
    while processed < |lines|
      invariant processed <= |lines|
      invariant Issue(driver.backend, driver.calls, todo, processed) == Issue(driver.backend, start, todo, 0)
    {
      var reply := driver.Ingest(Document(world.parse, lines[processed]));
      if reply.Threw? {
        return Fail(reply.error), processed;
      }
      processed := processed + 1;
    }
    if driver.hasIngestWait {
      var reply := driver.IngestWait();
      if reply.Threw? {
        return Fail(reply.error), processed;
      }
    }
    o := Pass;
  }

  /** `executeQuery` over the driver's real calls. */
  method ExecuteQuery(driver: Driver, inputPath: Option<string>, world: World) returns (o: Outcome<Error>, processed: nat)
    modifies driver
    ensures var r := QueryRun(driver.backend, old(driver.calls), inputPath, world);
      o == r.outcome && driver.calls == r.calls
    ensures o.Pass? ==> inputPath.Some? && inputPath.value in world.fs && processed == |world.fs[inputPath.value]|
  {
    processed := 0;
    if inputPath.None? {
      return Fail(TypeError), 0;
    }
    if inputPath.value !in world.fs {
      return Fail(Unreadable(inputPath)), 0;
    }
    var lines := world.fs[inputPath.value];
    ghost var todo := QueryCalls(lines, world.parse);
    ghost var start := driver.calls;
    while processed < |lines|
      invariant processed <= |lines|
      invariant Issue(driver.backend, driver.calls, todo, processed) == Issue(driver.backend, start, todo, 0)
    {
      var reply := driver.Query(Document(world.parse, lines[processed]));
      if reply.Threw? {
        return Fail(reply.error), processed;
      }
      processed := processed + 1;
    }
    o := Pass;
  }

  /** `execute`. */
  method Execute(driver: Driver, op: Option<string>, ingestPath: Option<string>, queryPath: Option<string>, world: World)
    returns (o: Outcome<Error>)
    modifies driver
    ensures var r := Dispatch(op, driver.hasIngestWait, driver.backend, old(driver.calls), ingestPath, queryPath, world);
      o == r.outcome && driver.calls == r.calls
  {
    var processed: nat;
    if op == Some("ingest") {
      o, processed := ExecuteIngest(driver, ingestPath, world);
    } else if op == Some("query") {
      o, processed := ExecuteQuery(driver, queryPath, world);
    } else if op == Some("ingest+query") {
      o, processed := ExecuteIngest(driver, ingestPath, world);
      if o.Pass? {
        o, processed := ExecuteQuery(driver, queryPath, world);
      }
    } else {
      o := Fail(InvalidOperation);
    }
  }

  /** `main`: the engine must be named; `built` is how `createDriver` ended
      for it; then the operation check, then `execute` with the paths from
      the environment. */
  method Launch(env: Env, world: World, built: Result<Driver, Error>) returns (o: Outcome<Error>)
    modifies if built.Success? then {built.value} else {}
    ensures !Provided(env, "FTS_ENGINE") ==> o == Fail(MissingSetting("FTS_ENGINE"))
    ensures !Provided(env, "FTS_ENGINE") && built.Success? ==> built.value.calls == old(built.value.calls)
    ensures Provided(env, "FTS_ENGINE") && built.Failure? ==> o == Fail(built.error)
    ensures Provided(env, "FTS_ENGINE") && built.Success? && CheckOperation(env, world.fs).Fail? ==>
      o == CheckOperation(env, world.fs) && built.value.calls == old(built.value.calls)
    ensures Provided(env, "FTS_ENGINE") && built.Success? && CheckOperation(env, world.fs).Pass? ==>
      var d := built.value;
      var r := Dispatch(Lookup(env, "OP"), d.hasIngestWait, d.backend, old(d.calls),
                        Lookup(env, "INGEST_INPUT_PATH"), Lookup(env, "QUERY_INPUT_PATH"), world);
      o == r.outcome && d.calls == r.calls
  {
    if !Provided(env, "FTS_ENGINE") {
      return Fail(MissingSetting("FTS_ENGINE"));
    }
    if built.Failure? {
      return Fail(built.error);
    }
    var checked := CheckOperation(env, world.fs);
    if checked.Fail? {
      return checked;
    }
    o := Execute(built.value, Lookup(env, "OP"), Lookup(env, "INGEST_INPUT_PATH"), Lookup(env, "QUERY_INPUT_PATH"), world);
  }
}
