/** The pieces of PHP and Laravel semantics the backend's decisions rest on. */
module Php {
  import opened Text

  /** PHP's truthiness of a string-or-null value, as `!$x` and `empty($x)` test it:
      null, the empty string and the string "0" are false; every other string is true. */
  predicate Falsy(v: Option<string>) {
    v == None || v == Some("") || v == Some("0")
  }

  /** A decoded JSON value. Arrays and objects below the top level are kept as their text. */
  datatype Json =
    | JNull
    | JBool(b: bool)
    | JNumber(repr: string)
    | JString(s: string)
    | JComposite(text: string)

  /** `$fields[$key] ?? $fallback`, where `$fields` is the top-level object of a decoded
      JSON body (empty when the body is not a JSON object): `??` replaces only a missing
      key or a null value, never an empty string, `false` or `0`. */
  function Coalesce(fields: map<string, Json>, key: string, fallback: Json): (r: Json)
    ensures key in fields && fields[key] != JNull ==> r == fields[key]
    ensures key !in fields || fields[key] == JNull ==> r == fallback
  {
    if key in fields && fields[key] != JNull then fields[key] else fallback
  }
}

/** An inbound HTTP request, as both services see it. */
module Http {
  import opened Text

  /** Header names are stored lower-cased: both frameworks look headers up case-insensitively. */
  datatype Request = Request(verb: string, path: string, headers: map<string, string>, body: string)

  const ApiKeyHeader := "x-api-key"

  /** `$request->header('X-API-KEY')` / `request.headers.get("X-API-KEY")`: null when absent. */
  function ApiKeyOf(req: Request): (v: Option<string>)
    ensures v.Some? <==> ApiKeyHeader in req.headers
    ensures v.Some? ==> v.value == req.headers[ApiKeyHeader]
  {
    if ApiKeyHeader in req.headers then Some(req.headers[ApiKeyHeader]) else None
  }
}
