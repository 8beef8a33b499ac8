/** The SQLite driver (src/driver/sqlite.mjs): the build arguments and their
    checks in the order the code makes them, a buffer array that may belong
    to the caller and is emptied in place, and the batch write: one
    transaction that skips rows whose rowid is taken and rolls back on any
    other error. The table is a map from rowid to row; binding, the rowid's
    type and the primary key follow better-sqlite3 and SQLite, and the
    engine's other errors are an input. */
module Sqlite {
  import opened Wrappers
  import opened Js
  import Batching

  const DefaultBatchSize: int := 10000
  const DbPathVariable: string := "SQLITE_DISK_DB_PATH"
  const PrimaryKeyCode: string := "SQLITE_CONSTRAINT_PRIMARYKEY"
  const MismatchCode: string := "SQLITE_MISMATCH"

  /** The FTS5 table `movies_fts`: rows by rowid. */
  type Table = map<int, Batching.Row>

  /** An array the driver pushes onto and empties with `splice`; when the
      caller of `build` passes its own, the caller sees every change. */
  class RowArray {
    var elems: seq<Batching.Row>

    constructor (elems: seq<Batching.Row>)
      ensures this.elems == elems
    {
      this.elems := elems;
    }
  }

  /** The argument of `build`: none at all, or an object whose `dbPath`,
      `batchSize` and `currentBatch` may each be missing. */
  datatype BuildArgs =
    | NoArgs
    | Args(dbPath: Value, batchSize: Value, currentBatch: Option<RowArray>)

  datatype Config = Config(dbPath: Value, batchSize: int)

  /** `dbPath ?? process.env.SQLITE_DISK_DB_PATH`, then the `!dbPath` check:
      only a missing argument falls back to the variable, and a falsy result
      is refused. */
  function DbPath(given: Value, env: Env): (r: Result<Value, Error>)
    ensures !Nullish(given) ==> (r.Success? <==> Truthy(given))
    ensures !Nullish(given) && r.Success? ==> r.value == given
    ensures Nullish(given) ==> (r.Success? <==> Provided(env, DbPathVariable))
    ensures Nullish(given) && r.Success? ==> r.value == Str(env[DbPathVariable])
    ensures r.Failure? ==> r.error == MissingSetting(DbPathVariable)
  {
    var path := if !Nullish(given) then given
                else if DbPathVariable in env then Str(env[DbPathVariable])
                else Undefined;
    if Truthy(path) then Success(path) else Failure(MissingSetting(DbPathVariable))
  }

  /** `args.batchSize ? args.batchSize : DEFAULT_BATCH_SIZE`, then the check
      that it is a non-zero number. A negative number passes. */
  function BatchSizeOf(given: Value): (r: Result<int, Error>)
    ensures r.Success? <==> !Truthy(given) || given.Num?
    ensures !Truthy(given) ==> r == Success(10000)
    ensures Truthy(given) && given.Num? ==> r == Success(given.n) && given.n != 0
    ensures r.Failure? ==> r.error == InvalidBatchSize
  {
    if !Truthy(given) then Success(DefaultBatchSize)
    else if given.Num? then Success(given.n)
    else Failure(InvalidBatchSize)
  }

  /** `build` up to the driver object. Reading `args.currentBatch` throws
      when there are no arguments; then `connect` checks the path and opens
      the database (`dbOpen`: the file must exist, the FTS table is created,
      the statements are prepared); the batch size is checked last. */
  function Configure(args: BuildArgs, env: Env, dbOpen: Outcome<Error>): (r: Result<Config, Error>)
    ensures args.NoArgs? ==> r == Failure(TypeError)
    ensures r.Success? <==> args.Args? && DbPath(args.dbPath, env).Success? && dbOpen.Pass?
                            && BatchSizeOf(args.batchSize).Success?
    ensures r.Success? ==> r.value == Config(DbPath(args.dbPath, env).value, BatchSizeOf(args.batchSize).value)
    ensures args.Args? && DbPath(args.dbPath, env).Failure? ==> r == Failure(MissingSetting(DbPathVariable))
    ensures args.Args? && DbPath(args.dbPath, env).Success? && dbOpen.Fail? ==> r == Failure(dbOpen.error)
    ensures args.Args? && DbPath(args.dbPath, env).Success? && dbOpen.Pass? && BatchSizeOf(args.batchSize).Failure?
            ==> r == Failure(InvalidBatchSize)
  {
    match args
    case NoArgs => Failure(TypeError)
    case Args(dbPath, batchSize, _) =>
      match DbPath(dbPath, env)
      case Failure(e) => Failure(e)
      case Success(path) =>
        match dbOpen
        case Fail(e) => Failure(e)
        case Pass =>
          match BatchSizeOf(batchSize)
          case Failure(e) => Failure(e)
          case Success(size) => Success(Config(path, size))
  }

  /** Binding one named parameter: `undefined` counts as missing, and only
      numbers, strings and `null` can be bound. */
  function BindError(v: Value): Option<Error> {
    match v
    case Undefined => Some(RangeError)
    case Bool(_) => Some(TypeError)
    case Arr(_) => Some(TypeError)
    case Obj(_) => Some(TypeError)
    case _ => None
  }

  /** Binding `@id, @title, @original_title, @overview`, in that order: the
      first parameter that cannot be bound raises. That an `undefined` value
      counts as missing is taken as the library's rule. */
  function RowBindError(row: Batching.Row): (r: Option<Error>)
    ensures r.None? <==> BindError(row.id).None? && BindError(row.title).None? &&
                         BindError(row.originalTitle).None? && BindError(row.overview).None?
    ensures BindError(row.id).Some? ==> r == BindError(row.id)
    ensures BindError(row.id).None? && BindError(row.title).Some? ==> r == BindError(row.title)
    ensures BindError(row.id).None? && BindError(row.title).None? && BindError(row.originalTitle).Some? ==>
              r == BindError(row.originalTitle)
    ensures BindError(row.id).None? && BindError(row.title).None? && BindError(row.originalTitle).None? ==>
              r == BindError(row.overview)
  {
    if BindError(row.id).Some? then BindError(row.id)
    else if BindError(row.title).Some? then BindError(row.title)
    else if BindError(row.originalTitle).Some? then BindError(row.originalTitle)
    else BindError(row.overview)
  }

  predicate IsDigit(c: char) {
    '0' <= c <= '9'
  }

  predicate IsDigits(s: string) {
    |s| > 0 && forall i :: 0 <= i < |s| ==> IsDigit(s[i])
  }

  /** The value of a string of decimal digits. */
  function DigitsValue(s: string): nat
    requires forall i :: 0 <= i < |s| ==> IsDigit(s[i])
  {
    if s == [] then 0 else assert IsDigit(s[|s| - 1]); 10 * DigitsValue(s[..|s| - 1]) + (s[|s| - 1] as int - '0' as int) as nat
  }

  /** A text SQLite reads as an integer under numeric affinity: decimal
      digits with an optional sign. */
  predicate IsInteger(s: string) {
    IsDigits(s) || (|s| > 1 && (s[0] == '-' || s[0] == '+') && IsDigits(s[1..]))
  }

  function IntegerValue(s: string): int
    requires IsInteger(s)
  {
    if IsDigits(s) then DigitsValue(s)
    else if s[0] == '-' then -(DigitsValue(s[1..]) as int)
    else DigitsValue(s[1..])
  }

  /** The rowid a bound `@id` asks for: a `null` lets SQLite choose one. */
  datatype Rowid = Auto | Given(k: int)

  /** The rowid of an id: a number is that rowid, a text that reads as an
      integer is converted, and any other text is a datatype mismatch. */
  function RowidOf(id: Value): (r: Option<Rowid>)
    ensures id.Null? ==> r == Some(Auto)
    ensures id.Num? ==> r == Some(Given(id.n))
    ensures id.Str? ==> (r.Some? <==> IsInteger(id.s))
    ensures id.Str? && IsInteger(id.s) ==> r == Some(Given(IntegerValue(id.s)))
  {
    match id
    case Null => Some(Auto)
    case Num(n) => Some(Given(n))
    case Str(s) => if IsInteger(s) then Some(Given(IntegerValue(s))) else None
    case _ => None
  }

  /** `String(n)`: the decimal digits of a natural number. */
  function DigitsOf(n: nat): (s: string)
    ensures forall i :: 0 <= i < |s| ==> IsDigit(s[i])
    ensures |s| > 0
  {
    if n < 10 then [('0' as int + n) as char]
    else DigitsOf(n / 10) + [('0' as int + n % 10) as char]
  }

  /** Reading back the digits of `n` gives `n`. */
  lemma {:induction false} DigitsRoundTrip(n: nat)
    ensures DigitsValue(DigitsOf(n)) == n
  {
    var s := DigitsOf(n);
    if n < 10 {
      assert s[..|s| - 1] == [];
    } else {
      DigitsRoundTrip(n / 10);
      assert s[..|s| - 1] == DigitsOf(n / 10);
    }
  }

  /** `String(n)` for an integer. */
  function DecimalOf(n: int): string {
    if n < 0 then "-" + DigitsOf(-n) else DigitsOf(n)
  }

  /** A numeric id and its decimal text name the same rowid, so a batch that
      holds both collides on the primary key. */
  lemma NumberAndTextSameRowid(n: int)
    ensures IsInteger(DecimalOf(n))
    ensures RowidOf(Str(DecimalOf(n))) == RowidOf(Num(n))
  {
    if n < 0 {
      DigitsRoundTrip(-n);
      assert DecimalOf(n)[1..] == DigitsOf(-n);
      assert !IsDigit(DecimalOf(n)[0]);
    } else {
      DigitsRoundTrip(n);
    }
  }

  /** The largest rowid of a non-empty table exists. */
  lemma {:induction false} LargestKeyExists(keys: set<int>)
    requires keys != {}
    ensures exists m :: m in keys && forall k :: k in keys ==> k <= m
  {
    if exists x :: x in keys {
      var x :| x in keys;
      var rest := keys - {x};
      if rest != {} {
        LargestKeyExists(rest);
        var m :| m in rest && forall k :: k in rest ==> k <= m;
        assert forall k :: k in keys ==> k == x || k in rest;
        if x <= m {
          assert forall k :: k in keys ==> k <= m;
        } else {
          assert forall k :: k in keys ==> k <= x;
        }
      } else {
        assert forall k :: k in keys ==> k == x || k in rest;
      }
    } else {
      assert false;
    }
  }

  /** The rowid SQLite chooses for a `null` id: one more than the largest
      rowid in the table, or 1 in an empty table. */
  function NextRowid(table: Table): (k: int)
    ensures k !in table
    ensures forall j :: j in table ==> j < k
  {
    if |table.Keys| == 0 then 1
    else
      LargestKeyExists(table.Keys);
      var m :| m in table.Keys && forall k :: k in table.Keys ==> k <= m;
      m + 1
  }

  /** The error inserting `row` raises whatever the table holds: a binding
      error, then an engine error (`fault`, the input), then a rowid SQLite
      cannot read as an integer. */
  function RowError(row: Batching.Row, fault: Option<string>): Option<Error> {
    if RowBindError(row).Some? then RowBindError(row)
    else if fault.Some? then Some(EngineError(fault.value))
    else if RowidOf(row.id).None? then Some(EngineError(MismatchCode))
    else None
  }

  /** `insert.run(row)`: the rowid the row is stored under, or the error it
      raises; a rowid already in the table breaks the primary key. */
  function InsertAt(table: Table, row: Batching.Row, fault: Option<string>): (r: Result<int, Error>)
    ensures r.Success? ==> r.value !in table
    ensures r.Success? <==> RowError(row, fault).None? && (RowidOf(row.id).value.Given? ==> RowidOf(row.id).value.k !in table)
    ensures RowError(row, fault).Some? ==> r == Failure(RowError(row, fault).value)
    ensures RowError(row, fault).None? && RowidOf(row.id).value.Given? && RowidOf(row.id).value.k in table ==>
              r == Failure(EngineError(PrimaryKeyCode))
  {
    if RowError(row, fault).Some? then Failure(RowError(row, fault).value)
    else match RowidOf(row.id).value
      case Auto => Success(NextRowid(table))
      case Given(k) => if k in table then Failure(EngineError(PrimaryKeyCode)) else Success(k)
  }

  /** The catch in the insert loop: only an error whose `code` is the
      primary-key one is swallowed. */
  predicate Swallowed(e: Error) {
    e == EngineError(PrimaryKeyCode)
  }

  /** A row whose insert aborts the transaction whatever the table holds. */
  predicate Aborts(row: Batching.Row, fault: Option<string>) {
    RowError(row, fault).Some? && !Swallowed(RowError(row, fault).value)
  }

  /** The transaction over `rows[from..]` from `table`: an insert that fails
      on the primary key is skipped, any other error aborts the whole
      transaction. `fault(i)` is the engine error that executing the insert
      of `rows[i]` raises, if any, before the key is checked. */
  function Transaction(table: Table, rows: seq<Batching.Row>, fault: nat -> Option<string>, from: nat): Result<Table, Error>
    decreases |rows| - from
  {
    if from >= |rows| then Success(table)
    else
      match InsertAt(table, rows[from], fault(from))
      case Success(k) => Transaction(table[k := rows[from]], rows, fault, from + 1)
      case Failure(e) =>
        if Swallowed(e) then Transaction(table, rows, fault, from + 1)
        else Failure(e)
  }

  /** The table after a batch: the committed one, or the old one after a rollback. */
  function Committed(table: Table, rows: seq<Batching.Row>, fault: nat -> Option<string>): Table {
    match Transaction(table, rows, fault, 0)
    case Success(t) => t
    case Failure(_) => table
  }

  /** How `sendBatch` ends. */
  function Flushed(table: Table, rows: seq<Batching.Row>, fault: nat -> Option<string>): Outcome<Error> {
    match Transaction(table, rows, fault, 0)
    case Success(_) => Pass
    case Failure(e) => Fail(e)
  }

  /** A committed batch keeps every row the table had and adds only rows of
      the batch. */
  lemma {:induction false} TransactionKeepsRows(table: Table, rows: seq<Batching.Row>, fault: nat -> Option<string>, from: nat)
    ensures Transaction(table, rows, fault, from).Success? ==>
      var t := Transaction(table, rows, fault, from).value;
      (forall k :: k in table ==> k in t && t[k] == table[k]) &&
      (forall k :: k in t ==> k in table || exists j :: from <= j < |rows| && t[k] == rows[j])
    decreases |rows| - from
  {
    if from < |rows| {
      var row := rows[from];
      match InsertAt(table, row, fault(from))
      case Success(key) =>
        var next := table[key := row];
        TransactionKeepsRows(next, rows, fault, from + 1);
        if Transaction(table, rows, fault, from).Success? {
          var t := Transaction(table, rows, fault, from).value;
          forall k | k in t
            ensures k in table || exists j :: from <= j < |rows| && t[k] == rows[j]
          {
            if k !in table && k == key {
              assert t[k] == next[k] == rows[from];
            }
          }
        }
      case Failure(_) =>
        TransactionKeepsRows(table, rows, fault, from + 1);
    }
  }

  /** The first row that asks for a rowid no one holds is the one the table
      keeps, unless inserting it raised, provided no earlier row let SQLite
      choose a rowid. */
  lemma {:induction false} TransactionFirstWins(table: Table, rows: seq<Batching.Row>, fault: nat -> Option<string>, from: nat)
    ensures Transaction(table, rows, fault, from).Success? ==>
      var t := Transaction(table, rows, fault, from).value;
      forall j, k :: from <= j < |rows| && RowidOf(rows[j].id) == Some(Given(k)) && k !in table &&
                     RowError(rows[j], fault(j)).None? &&
                     (forall m :: from <= m < j ==> RowidOf(rows[m].id) != Some(Auto) && RowidOf(rows[m].id) != Some(Given(k)))
                     ==> k in t && t[k] == rows[j]
    decreases |rows| - from
  {
    if from < |rows| {
      var row := rows[from];
      match InsertAt(table, row, fault(from))
      case Success(key) =>
        var next := table[key := row];
        TransactionFirstWins(next, rows, fault, from + 1);
        TransactionKeepsRows(next, rows, fault, from + 1);
      case Failure(_) =>
        TransactionFirstWins(table, rows, fault, from + 1);
    }
  }

  /** A batch aborts exactly when some row's insert raises an error other
      than the primary-key one, and it throws the error of the first such
      row. */
  lemma {:induction false} TransactionFailsOnFault(table: Table, rows: seq<Batching.Row>, fault: nat -> Option<string>, from: nat)
    ensures Transaction(table, rows, fault, from).Failure? <==> exists j :: from <= j < |rows| && Aborts(rows[j], fault(j))
    ensures forall j :: from <= j < |rows| && Aborts(rows[j], fault(j)) &&
                        (forall m :: from <= m < j ==> !Aborts(rows[m], fault(m))) ==>
              Transaction(table, rows, fault, from) == Failure(RowError(rows[j], fault(j)).value)
    decreases |rows| - from
  {
    if from < |rows| {
      var row := rows[from];
      match InsertAt(table, row, fault(from))
      case Success(key) =>
        TransactionFailsOnFault(table[key := row], rows, fault, from + 1);
      case Failure(_) =>
        TransactionFailsOnFault(table, rows, fault, from + 1);
    }
  }

  /** Rows with a `null` id never collide: each one that binds and meets no
      engine error is stored under a rowid of its own. */
  lemma {:induction false} NullIdsAllStored(table: Table, rows: seq<Batching.Row>, fault: nat -> Option<string>, from: nat)
    requires from <= |rows|
    requires forall j :: from <= j < |rows| ==> rows[j].id == Null && RowError(rows[j], fault(j)).None?
    ensures Transaction(table, rows, fault, from).Success?
    ensures |Transaction(table, rows, fault, from).value| == |table| + (|rows| - from)
    decreases |rows| - from
  {
    if from < |rows| {
      var key := NextRowid(table);
      assert InsertAt(table, rows[from], fault(from)) == Success(key);
      NullIdsAllStored(table[key := rows[from]], rows, fault, from + 1);
    }
  }

  /** The driver object `build` returns. */
  class Driver {
    const batchSize: int
    /** `currentBatch`: the caller's array, or a fresh one. */
    const buffer: RowArray
    var table: Table
    /** The batches handed to the transaction, in order. */
    ghost var handed: seq<seq<Batching.Row>>

    constructor (batchSize: int, buffer: RowArray, table: Table)
      ensures this.batchSize == batchSize && this.buffer == buffer && this.table == table && handed == []
    {
      this.batchSize := batchSize;
      this.buffer := buffer;
      this.table := table;
      handed := [];
    }

    /** `sendBatch(b)`: the insert loop inside `db.transaction`; its work is
        done on a copy of the table that replaces the table only on commit. */
    method SendBatch(fault: nat -> Option<string>) returns (o: Outcome<Error>)
      modifies this`table, this`handed
      ensures handed == old(handed) + [buffer.elems]
      ensures o == Flushed(old(table), buffer.elems, fault)
      ensures table == Committed(old(table), buffer.elems, fault)
    {
      handed := handed + [buffer.elems];
      var rows := buffer.elems;
      var t := table;
      var i := 0;
      while i < |rows|
        invariant i <= |rows|
        invariant Transaction(t, rows, fault, i) == Transaction(table, rows, fault, 0)
      {
        var inserted := InsertAt(t, rows[i], fault(i));
        if inserted.Success? {
          t := t[inserted.value := rows[i]];
        } else if !Swallowed(inserted.error) {
          return Fail(inserted.error);
        }
        i := i + 1;
      }
      table := t;
      o := Pass;
    }

    /** `ingest`: below the batch size push the row onto the buffer array;
        otherwise write the buffer and, after a commit, empty the array in
        place, dropping the document. */
    method Ingest(document: Value, fault: nat -> Option<string>) returns (o: Outcome<Error>)
      modifies this`table, this`handed, buffer
      ensures var s := Batching.Ingest(old(buffer.elems), batchSize, Batching.RecordOf(document),
                                       Flushed(old(table), old(buffer.elems), fault));
        buffer.elems == s.buffer && handed == old(handed) + Batching.HandedList(s.handed) && o == s.outcome
      ensures table == if |old(buffer.elems)| < batchSize then old(table)
                       else Committed(old(table), old(buffer.elems), fault)
    {
      if |buffer.elems| < batchSize {
        var row := Batching.RowOf(document);
        if row.Failure? {
          return Fail(row.error);
        }
        buffer.elems := buffer.elems + [row.value];
        return Pass;
      }
      o := SendBatch(fault);
      if o.Pass? {
        buffer.elems := [];
      }
    }

    /** `ingestWait`: write what the buffer holds, if anything; the buffer
        is left as it is. */
    method IngestWait(fault: nat -> Option<string>) returns (o: Outcome<Error>)
      modifies this`table, this`handed
      ensures var s := Batching.Wait(buffer.elems, true, Flushed(old(table), buffer.elems, fault));
        handed == old(handed) + Batching.HandedList(s.handed) && o == s.outcome
      ensures table == if buffer.elems == [] then old(table) else Committed(old(table), buffer.elems, fault)
    {
      if |buffer.elems| == 0 {
        return Pass;
      }
      o := SendBatch(fault);
    }
  }

  /** `statements.search.all({ phrase })`: the rows whose title, original
      title or overview match, each with its rowid under `id`. */
  type Search = Value -> Result<seq<map<string, Value>>, Error>

  /** `query`: one run of the search statement and `results.map(r => r.id)`:
      the rowid of every selected row, in row order. */
  function Query(phrase: Value, all: Search): (r: Result<seq<Value>, Error>)
    ensures all(phrase).Failure? ==> r == Failure(all(phrase).error)
    ensures all(phrase).Success? ==>
      r.Success? && |r.value| == |all(phrase).value| &&
      forall i :: 0 <= i < |all(phrase).value| ==> r.value[i] == Get(all(phrase).value[i], "id")
  {
    match all(phrase)
    case Failure(e) => Failure(e)
    case Success(results) => Success(Pluck(results, "id"))
  }

  /** `build(args)`: the configuration, then a driver over the database's
      current `table` whose buffer is the caller's array when one was given. */
  method Build(args: BuildArgs, env: Env, dbOpen: Outcome<Error>, table: Table) returns (r: Result<Driver, Error>)
    ensures r.Success? <==> Configure(args, env, dbOpen).Success?
    ensures r.Failure? ==> r.error == Configure(args, env, dbOpen).error
    ensures r.Success? ==> fresh(r.value) && r.value.batchSize == Configure(args, env, dbOpen).value.batchSize
                           && r.value.table == table && r.value.handed == []
    ensures r.Success? && args.currentBatch.Some? ==> r.value.buffer == args.currentBatch.value
    ensures r.Success? && args.currentBatch.None? ==> fresh(r.value.buffer) && r.value.buffer.elems == []
  {
    match Configure(args, env, dbOpen)
    case Failure(e) =>
      r := Failure(e);
    case Success(config) =>
      var buffer: RowArray;
      if args.currentBatch.Some? {
        buffer := args.currentBatch.value;
      } else {
        buffer := new RowArray([]);
      }
      var d := new Driver(config.batchSize, buffer, table);
      r := Success(d);
  }
}
