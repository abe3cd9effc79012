/**
 * JavaScript values as seen by the environment store and the logger, and the
 * JavaScript built-ins both rely on (Number(), JSON.parse, JSON.stringify and
 * the string conversion of template literals). The built-ins are library
 * behaviour: they are kept abstract and handed to the operations that use them.
 */
module JsValues {
  import opened Wrappers

  /** A JSON-shaped JavaScript value; key order of objects is abstracted away. */
  datatype Json =
    | JNull
    | JBool(b: bool)
    | JNum(n: real)
    | JStr(s: string)
    | JArray(items: seq<Json>)
    | JObject(fields: map<string, Json>)

  /** A thrown JavaScript error: its message and, when present, its stack. */
  datatype Thrown = Thrown(message: string, stack: Option<string>)

  /** The JavaScript built-ins the core calls, as uninterpreted functions. */
  datatype Builtins = Builtins(
    /** Number(s); None stands for NaN. */
    number: string -> Option<real>,
    /** JSON.parse(s); Failure is the SyntaxError it throws. */
    jsonParse: string -> Result<Json, Thrown>,
    /** JSON.stringify(v); Failure is the error it throws (a circular structure, say). */
    jsonStringify: Json -> Result<string, Thrown>,
    /** String(v) for a value that is not a string, as a template literal applies it. */
    text: Json -> string)

  /** JavaScript truthiness: null, false, 0 and "" are falsy. */
  predicate Truthy(v: Json) {
    match v
    case JNull => false
    case JBool(b) => b
    case JNum(n) => n != 0.0
    case JStr(s) => s != ""
    case _ => true
  }

  /** The text `${v}` produces for a property that may be missing (undefined). */
  function Text(b: Builtins, v: Option<Json>): (t: string) {
    match v
    case None => "undefined"
    case Some(JStr(s)) => s
    case Some(j) => b.text(j)
  }
}
