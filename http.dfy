/**
 * Values exchanged with remote services, as the Java proxy and the React
 * dashboard see them once the transport is abstracted away.
 */
module Http {

  datatype Option<+T> = None | Some(value: T)

  /**
   * A JSON value. `JUndefined` stands for a property that is absent from an
   * object, which JavaScript reads as `undefined` and Java's `Map.get` as null.
   * Numbers are integers in this model.
   */
  datatype Json =
    | JUndefined
    | JNull
    | JBool(b: bool)
    | JNum(n: int)
    | JStr(s: string)
    | JArray(items: seq<Json>)
    | JObject(fields: map<string, Json>)

  /** A JSON object body, as a `Map<String, Object>` or a parsed `res.json()`. */
  type Body = map<string, Json>

  /**
   * The outcome of one remote call: it answered with a status code and a body
   * that may be absent (Java's null body, or a body `res.json()` cannot read
   * as an object), or the call threw.
   */
  datatype Reply = Reply(code: int, body: Option<Body>) | Threw(message: string)

  /**
   * A browser `fetch` whose body is read with `res.json()`: the status code
   * and the parsed value (None when it cannot be parsed), or a rejection.
   */
  datatype Fetched = Answered(status: int, json: Option<Json>) | Rejected(reason: string)

  /** The network: the outcome a call to a given URL has. */
  type Network = string -> Reply

  const OK: int := 200
  const BAD_REQUEST: int := 400
  const NOT_FOUND: int := 404

  /** `response.ok` in the browser, `is2xxSuccessful()` in Spring. */
  predicate Is2xx(code: int) {
    200 <= code < 300
  }

  /** JavaScript truthiness. */
  predicate Truthy(j: Json) {
    match j
    case JUndefined => false
    case JNull => false
    case JBool(b) => b
    case JNum(n) => n != 0
    case JStr(s) => s != ""
    case JArray(_) => true
    case JObject(_) => true
  }

  /** Java's `Boolean.TRUE.equals(v)`. */
  predicate IsTrue(j: Json) {
    j == JBool(true)
  }

  /** Property lookup: a missing key reads as undefined. */
  function Get(body: Body, key: string): Json {
    if key in body then body[key] else JUndefined
  }

  /** A JSON array of strings. */
  function Strings(ss: seq<string>): (j: Json)
    ensures j.JArray? && |j.items| == |ss|
    ensures forall i :: 0 <= i < |ss| ==> j.items[i] == JStr(ss[i])
  {
    JArray(seq(|ss|, i requires 0 <= i < |ss| => JStr(ss[i])))
  }
}
