/** The JavaScript values the system handles and the library calls it makes.

    Values are modelled as parsed JSON plus `undefined` (an absent property).
    Library code -- JSON parsing and serialisation, base64, percent-encoding, the
    WHATWG URL parser and the query serializer -- is not modelled: each call is a
    field of `Lib`, an uninterpreted function, and every property proved about the
    system holds for every choice of them unless a lemma states a hypothesis. */
module Js {
  import opened Optional
  import Strings

  datatype Json =
    | JUndefined
    | JNull
    | JBool(b: bool)
      /** A number, carried as its canonical JavaScript text (`String(n)`). */
    | JNumber(text: string)
    | JString(s: string)
    | JArray(items: seq<Json>)
    | JObject(fields: map<string, Json>)

  /** JavaScript truthiness. */
  predicate Truthy(j: Json) {
    match j
    case JUndefined => false
    case JNull => false
    case JBool(b) => b
    case JNumber(t) => t != "0" && t != "NaN"
    case JString(s) => |s| > 0
    case _ => true
  }

  /** `v || {}`: a falsy value is replaced by an empty object. */
  function OrEmptyObject(v: Json): (r: Json)
    ensures Truthy(r)
    ensures Truthy(v) ==> r == v
  {
    if Truthy(v) then v else JObject(map[])
  }

  /** Property read `v.key`: `None` when JavaScript throws a TypeError (reading a
      property of `null` or `undefined`), `undefined` when the property is absent. */
  function Prop(v: Json, key: string): (r: Option<Json>)
    ensures r.None? <==> v == JNull || v == JUndefined
    ensures v.JObject? && key in v.fields ==> r == Some(v.fields[key])
    ensures r.Some? && r.value != JUndefined ==> v.JObject? && key in v.fields
  {
    match v
    case JUndefined => None
    case JNull => None
    case JObject(fields) => if key in fields then Some(fields[key]) else Some(JUndefined)
    case _ => Some(JUndefined)
  }

  /** Strict equality `a === b`. Objects and arrays parsed from text are distinct
      references, so they are never identical to anything. */
  predicate StrictEquals(a: Json, b: Json) {
    match (a, b)
    case (JUndefined, JUndefined) => true
    case (JNull, JNull) => true
    case (JBool(x), JBool(y)) => x == y
    case (JNumber(x), JNumber(y)) => x == y && x != "NaN"
    case (JString(x), JString(y)) => x == y
    case _ => false
  }

  /** `String(v)`: the text JavaScript substitutes for `v` in a concatenation, a
      template literal, `localStorage.setItem` or `new URL(v)`. */
  function JsString(v: Json): string
    decreases v, 0
  {
    match v
    case JUndefined => "undefined"
    case JNull => "null"
    case JBool(b) => if b then "true" else "false"
    case JNumber(t) => t
    case JString(s) => s
    case JArray(items) =>
      Strings.Join(seq(|items|, i requires 0 <= i < |items| => ElementString(items[i])), ',')
    case JObject(_) => "[object Object]"
  }

  /** How `Array.prototype.join` writes one element: `null` and `undefined` as
      the empty string. */
  function ElementString(v: Json): string
    decreases v, 1
  {
    if v == JNull || v == JUndefined then "" else JsString(v)
  }

  /** `String(x)` for a value that is either a string or `null`
      (`localStorage.getItem` returns `null` for a missing key). */
  function OrNull(x: Option<string>): string {
    x.GetOr("null")
  }

  /** `String(x)` for a value that is either a string or `undefined`
      (`JSON.stringify(undefined)`, a missing query parameter). */
  function OrUndefined(x: Option<string>): string {
    x.GetOr("undefined")
  }

  /** The parts of a parsed URL the system reads. */
  datatype UrlParts = UrlParts(protocol: string, host: string, pathname: string, search: string)

  /** The library calls, as uninterpreted functions. */
  datatype Lib = Lib(
    /** `JSON.stringify(v)`; `None` when it returns `undefined`. */
    stringify: Json -> Option<string>,
    /** `JSON.parse(s)`; `None` when it throws. */
    parseJson: string -> Option<Json>,
    /** `Buffer.from(s, 'base64').toString()`. */
    base64Decode: string -> string,
    /** `Buffer.from(s).toString('base64')`. */
    base64Encode: string -> string,
    /** `encodeURIComponent(s)`. */
    encodeUriComponent: string -> string,
    /** `decodeURIComponent(s)`; `None` when it throws a URIError. */
    decodeUriComponent: string -> Option<string>,
    /** The application/x-www-form-urlencoded serializer `URLSearchParams` applies to
        each name and value. */
    formEncode: string -> string,
    /** `new URL(input, base).href` with no query; `None` when it throws. */
    resolveUrl: (string, string) -> Option<string>,
    /** `new URL(input)`; `None` when it throws. */
    parseUrl: string -> Option<UrlParts>)
}
