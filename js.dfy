/** The slice of JavaScript semantics the drivers depend on: the values that
    `JSON.parse` and the client libraries hand over, property reads (which throw
    on `undefined` and `null`), truthiness, the environment and
    `String.prototype.includes`. */
module Js {
  import opened Wrappers

  /** A JavaScript value. Numbers are integers in this model. */
  datatype Value =
    | Undefined
    | Null
    | Bool(b: bool)
    | Num(n: int)
    | Str(s: string)
    | Arr(elems: seq<Value>)
    | Obj(fields: map<string, Value>)

  /** What the code throws, by kind. */
  datatype Error =
    | TypeError                     // a property read on undefined or null, or a call of a non-function
    | MissingSetting(name: string)  // a required setting is unset or empty
    | InvalidOperation              // the requested mode is not one of the three
    | InvalidInputPath(name: string) // main's check of INGEST_INPUT_PATH / QUERY_INPUT_PATH
    | MissingInputPath              // executeIngest's own guard
    | Unreadable(path: Option<string>) // the line reader could not open its input
    | IngestFailed                  // Typesense reported a document it could not import
    | InvalidBatchSize              // SQLite's batch size is not a number
    | Timeout                       // a task poll gave up
    | Thrown(value: Value)          // an error object raised by a client library
    | RangeError                    // better-sqlite3: a named parameter is missing (bound as undefined)
    | EngineError(code: string)     // better-sqlite3: an SQLite error, with its `code`

  predicate Nullish(v: Value) {
    v.Undefined? || v.Null?
  }

  /** JavaScript's `!!v`. */
  predicate Truthy(v: Value) {
    match v
    case Undefined => false
    case Null => false
    case Bool(b) => b
    case Num(n) => n != 0
    case Str(s) => s != ""
    case Arr(_) => true
    case Obj(_) => true
  }

  /** Reading a key an object does not have gives `undefined`. */
  function Get(fields: map<string, Value>, key: string): Value {
    if key in fields then fields[key] else Undefined
  }

  /** `v[key]`: throws on `undefined` and `null`, reads `undefined` from a
      primitive or an array (the keys read by the drivers are none of the
      built-in properties such as `length`). */
  function Prop(v: Value, key: string): (r: Result<Value, Error>)
    ensures r.Failure? <==> Nullish(v)
    ensures r.Failure? ==> r.error == TypeError
    ensures r.Success? && !v.Obj? ==> r.value == Undefined
    ensures v.Obj? ==> r == Success(Get(v.fields, key))
  {
    if Nullish(v) then Failure(TypeError)
    else if v.Obj? then Success(Get(v.fields, key))
    else Success(Undefined)
  }

  /** The environment (`process.env`) is a map from names to strings. */
  type Env = map<string, string>

  function Lookup(env: Env, name: string): Option<string> {
    if name in env then Some(env[name]) else None
  }

  /** `!!process.env[name]`: set and not empty. */
  predicate Provided(env: Env, name: string) {
    name in env && env[name] != ""
  }

  /** `process.env[name] ?? fallback`: only an unset variable takes the fallback. */
  function OrDefault(env: Env, name: string, fallback: string): (r: string)
    ensures name in env ==> r == env[name]
    ensures name !in env ==> r == fallback
  {
    if name in env then env[name] else fallback
  }

  /** `s.includes(sub)`. */
  predicate Includes(s: string, sub: string)
    decreases |s|
  {
    |sub| <= |s| && (s[..|sub|] == sub || Includes(s[1..], sub))
  }

  /** `sub` occurs in `s` starting at index `i`. */
  predicate InfixAt(s: string, sub: string, i: int) {
    0 <= i <= |s| - |sub| && s[i..i + |sub|] == sub
  }

  /** `Includes` agrees with the plain definition of an infix. */
  lemma {:induction false} IncludesMeansInfix(s: string, sub: string)
    ensures Includes(s, sub) <==> exists i :: InfixAt(s, sub, i)
    decreases |s|
  {
    if |sub| > |s| {
      assert forall i :: !InfixAt(s, sub, i);
    } else if s[..|sub|] == sub {
      assert InfixAt(s, sub, 0);
    } else {
      IncludesMeansInfix(s[1..], sub);
      if Includes(s[1..], sub) {
        var i :| InfixAt(s[1..], sub, i);
        assert s[i + 1..i + 1 + |sub|] == s[1..][i..i + |sub|];
        assert InfixAt(s, sub, i + 1);
      }
      if exists i :: InfixAt(s, sub, i) {
        var i :| InfixAt(s, sub, i);
        assert i != 0;
        assert s[1..][i - 1..i - 1 + |sub|] == s[i..i + |sub|];
        assert InfixAt(s[1..], sub, i - 1);
      }
    }
  }

  /** `objects.map(o => o[key])` over plain objects: one value per object,
      in order. */
  function Pluck(objects: seq<map<string, Value>>, key: string): (values: seq<Value>)
    ensures |values| == |objects|
    ensures forall i :: 0 <= i < |objects| ==> values[i] == Get(objects[i], key)
  {
    if objects == [] then [] else [Get(objects[0], key)] + Pluck(objects[1..], key)
  }
}
