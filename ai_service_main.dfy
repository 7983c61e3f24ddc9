/** The AI service's `verify_api_key` middleware: exempt paths pass, an unset internal key
    lets everything pass, otherwise the header must equal the key exactly. */
module AiServiceMain {
  import opened Text
  import opened Http

  datatype Decision = CallNext(request: Request) | Reject401

  /** Paths served without a key: the root, the docs page, and the OpenAPI document. */
  predicate Exempt(path: string) {
    path == "/" || path == "/docs" || StartsWith(path, "/openapi.json")
  }

  /** Python's truthiness of `os.getenv(...)`: None and "" are false. */
  predicate KeyConfigured(internalKey: Option<string>) {
    internalKey.Some? && internalKey.value != ""
  }

  /** `verify_api_key(request, call_next)` with `INTERNAL_API_KEY` as `internalKey`. */
  function VerifyApiKey(req: Request, internalKey: Option<string>): (d: Decision)
    ensures d.CallNext? ==> d.request == req
    ensures Exempt(req.path) ==> d.CallNext?
    ensures !KeyConfigured(internalKey) ==> d.CallNext?
    ensures d.CallNext? <==> Exempt(req.path) || !KeyConfigured(internalKey) || ApiKeyOf(req) == internalKey
  {
    if Exempt(req.path) then CallNext(req)
    else
      var apiKey := ApiKeyOf(req);
      if !KeyConfigured(internalKey) then CallNext(req)
      else if apiKey != internalKey then Reject401
      else CallNext(req)
  }

  /** With a key configured, a request to a guarded path without the header is refused. */
  lemma MissingHeaderRejected(req: Request, key: string)
    requires !Exempt(req.path) && key != "" && ApiKeyHeader !in req.headers
    ensures VerifyApiKey(req, Some(key)) == Reject401
  {
  }

  /** Exemption is by exact path for "/" and "/docs": a page under "/docs" is guarded. */
  lemma DocsSubpathGuarded(req: Request, key: string)
    requires req.path == "/docs/x" && key != "" && ApiKeyHeader !in req.headers
    ensures VerifyApiKey(req, Some(key)) == Reject401
  {
  }

  /** The OpenAPI exemption is by prefix. */
  lemma OpenApiPrefixExempt(req: Request, rest: string, internalKey: Option<string>)
    requires req.path == "/openapi.json" + rest
    ensures VerifyApiKey(req, internalKey) == CallNext(req)
  {
  }
}
