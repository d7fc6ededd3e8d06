/**
 * JavaScript values as the route handlers and helpers see them: parsed JSON
 * from the upstream congressional-data API, `undefined`, and the few
 * language operations the core relies on (property reads that throw on
 * `undefined` or `null`, truthiness, `||`, conversion to a string).
 */
module Js {

  datatype Option<+T> = None | Some(value: T) {
    function GetOr(default: T): T {
      match this
      case Some(v) => v
      case None => default
    }
  }

  /** A JSON value. Numbers are modelled as integers. */
  datatype Json =
    | JNull
    | JBool(b: bool)
    | JNum(n: int)
    | JStr(s: string)
    | JArr(items: seq<Json>)
    | JObj(fields: map<string, Json>)

  /** What a property read yields: `None` is `undefined`. */
  type Value = Option<Json>

  /** Why a promise chain rejects. */
  datatype Error =
    | TypeError                             // property read on undefined/null, or call of a non-function
    | Rejected(code: int, message: string)  // an explicit `Promise.reject({code, message})`
    | ValidationError                       // the store refused a document that lacks a required field

  datatype Result<+T> = Ok(value: T) | Err(error: Error) {
    predicate IsFailure() {
      Err?
    }

    function PropagateFailure<U>(): Result<U>
      requires Err?
    {
      Err(error)
    }

    function Extract(): T
      requires Ok?
    {
      value
    }
  }

  /** How a call into code outside the model settled. */
  datatype Outcome = Pass | Fail(error: Error)

  /** Neither `undefined` nor `null`: reading a property of it does not throw. */
  predicate Defined(v: Value) {
    v.Some? && v.value != JNull
  }

  /** `v.key` on a defined value: an object's own property, `undefined` on any other value. */
  function Field(v: Value, key: string): Value {
    if v.Some? && v.value.JObj? && key in v.value.fields then Some(v.value.fields[key]) else None
  }

  /** `v.key`, which throws when `v` is undefined or null. */
  function Prop(v: Value, key: string): Result<Value> {
    if Defined(v) then Ok(Field(v, key)) else Err(TypeError)
  }

  /** `v[0]`, which throws when `v` is undefined or null. */
  function First(v: Value): Result<Value> {
    if !Defined(v) then Err(TypeError)
    else
      match v.value
      case JArr(xs) => Ok(if |xs| > 0 then Some(xs[0]) else None)
      case JStr(s) => Ok(if |s| > 0 then Some(JStr([s[0]])) else None)
      case JObj(fs) => Ok(if "0" in fs then Some(fs["0"]) else None)
      case _ => Ok(None)
  }

  /** `body.results[0]` of an upstream envelope. */
  function FirstResult(body: Json): Result<Value> {
    var results :- Prop(Some(body), "results");
    First(results)
  }

  /** The elements `v.map(...)` visits: only arrays have a `map` method. */
  function Items(v: Value): Result<seq<Json>> {
    if v.Some? && v.value.JArr? then Ok(v.value.items) else Err(TypeError)
  }

  /** JavaScript truthiness. */
  predicate Truthy(v: Value) {
    match v
    case None => false
    case Some(j) =>
      match j
      case JNull => false
      case JBool(b) => b
      case JNum(n) => n != 0
      case JStr(s) => s != ""
      case _ => true
  }

  /** `a || b` */
  function Or(a: Value, b: Value): Value {
    if Truthy(a) then a else b
  }

  /** `${v}` in a template literal. */
  function JsText(v: Value): string {
    match v
    case None => "undefined"
    case Some(j) => Text(j)
  }

  /** `String(j)` for a JSON value; arrays join their elements with commas, null elements as "". */
  function Text(j: Json): string {
    match j
    case JNull => "null"
    case JBool(b) => if b then "true" else "false"
    case JNum(n) => IntText(n)
    case JStr(s) => s
    case JArr(xs) => Join(seq(|xs|, i requires 0 <= i < |xs| => if xs[i] == JNull then "" else Text(xs[i])))
    case JObj(_) => "[object Object]"
  }

  function Join(parts: seq<string>): string {
    if parts == [] then "" else if |parts| == 1 then parts[0] else parts[0] + "," + Join(parts[1..])
  }

  function IntText(n: int): string {
    if n < 0 then "-" + NatText(-n) else NatText(n)
  }

  function NatText(n: nat): string {
    if n < 10 then ["0123456789"[n]] else NatText(n / 10) + ["0123456789"[n % 10]]
  }

  /** `xs.map(f)` */
  function Map<T, U>(xs: seq<T>, f: T -> U): (r: seq<U>)
    ensures |r| == |xs| && forall i :: 0 <= i < |xs| ==> r[i] == f(xs[i])
  {
    seq(|xs|, i requires 0 <= i < |xs| => f(xs[i]))
  }

  /** An array as `JSON.stringify` writes it: undefined elements become null. */
  function ArrayJson(vs: seq<Value>): seq<Json> {
    seq(|vs|, i requires 0 <= i < |vs| => vs[i].GetOr(JNull))
  }

  /** A serialized JSON object `o` says of `key` exactly what the property holds. */
  predicate Copies(o: map<string, Json>, key: string, v: Value) {
    (key in o <==> v.Some?) && (v.Some? ==> o[key] == v.value)
  }

  /** An HTTP response: status code and JSON body. */
  datatype Response = Response(status: int, body: Json)

  /** The body `{message: text}`. */
  function Message(text: string): Json {
    JObj(map["message" := JStr(text)])
  }
}
