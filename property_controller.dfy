/** The backend's `PropertyController`: how each action turns the outcome of its storage
    lookup and of its call to the AI service into a status code and a JSON body. */
module PropertyController {
  import opened Text
  import opened Php

  /** A row of `properties`, as `toArray()` serializes it (timestamps omitted). */
  datatype Property = Property(
    id: int, address: string, area: real, price: real,
    description: Option<string>, imageUrl: Option<string>,
    latitude: Option<real>, longitude: Option<real>)

  /** Outcome of `Property::findOrFail($id)`: the row, `ModelNotFoundException`, or any
      other exception (whose message is only logged). */
  datatype Lookup = Found(property: Property) | Missing | StorageFault(message: string)

  datatype PageMeta = PageMeta(currentPage: int, total: int, perPage: int, lastPage: int)

  /** What `Property::paginate` returns: one page of rows and its metadata. */
  datatype Page = Page(items: seq<Property>, meta: PageMeta)

  /** How a `Property::paginate` call ends: with a page, with an `\Exception` (a query
      failure), or with a PHP `\Error` such as the `TypeError` that non-numeric `page` or
      `limit` text raises in the paginator's offset arithmetic. */
  datatype Pagination = Paged(page: Page) | PagingException(message: string) | PagingError(message: string)

  /** A pagination argument: the raw query-string value, or the action's default. */
  datatype QueryValue = FromQuery(text: string) | DefaultValue(n: int)

  datatype Body =
    | ListBody(data: seq<Property>, meta: PageMeta)
    | PropertyBody(property: Property)
    | ContentBody(propertyId: int, generatedContent: Json)
    | ErrorBody(error: string)
    | ErrorDetailsBody(error: string, details: Json)
    | StatusBody(entries: map<string, string>)
    // the framework's own error response, for a throwable no action catches
    | FrameworkErrorBody

  datatype Response = Response(status: int, body: Body)

  const ListFailedMessage := "無法取得建案資料，請稍後再試。"
  const NotFoundMessage := "找不到指定的建案。"
  const ShowFailedMessage := "無法取得建案詳情，請稍後再試。"
  const EmptyContentMessage := "內容生成失敗或為空。"
  const UpstreamFailedMessage := "無法從 AI 服務生成內容。"
  const UnreachableMessage := "無法連接到 AI 服務，請檢查服務是否運行。"
  const GenerationFailedMessage := "內容生成過程中發生錯誤，請稍後再試。"

  // ---------------------------------------------------------------- index

  /** `$request->query('page', 1)` and `$request->query('limit', 10)`. */
  function PaginationArgs(query: map<string, string>): (args: (QueryValue, QueryValue))
    ensures args.0 == (if "page" in query then FromQuery(query["page"]) else DefaultValue(1))
    ensures args.1 == (if "limit" in query then FromQuery(query["limit"]) else DefaultValue(10))
  {
    (if "page" in query then FromQuery(query["page"]) else DefaultValue(1),
     if "limit" in query then FromQuery(query["limit"]) else DefaultValue(10))
  }

  /** `index`: `paginate` stands for Laravel's paginator over the table. Only an `\Exception`
      is caught; a PHP `\Error` leaves the action and gets the framework's own 500. */
  function Index(query: map<string, string>, paginate: (QueryValue, QueryValue) -> Pagination): (r: Response)
    ensures r.status == 200 || r.status == 500
    ensures r.status == 200 <==> paginate(PaginationArgs(query).0, PaginationArgs(query).1).Paged?
    ensures r.status == 200 ==>
              var page := paginate(PaginationArgs(query).0, PaginationArgs(query).1).page;
              r.body == ListBody(page.items, page.meta)
    ensures r == Response(500, ErrorBody(ListFailedMessage))
            <==> paginate(PaginationArgs(query).0, PaginationArgs(query).1).PagingException?
    ensures r == Response(500, FrameworkErrorBody)
            <==> paginate(PaginationArgs(query).0, PaginationArgs(query).1).PagingError?
  {
    var (page, limit) := PaginationArgs(query);
    match paginate(page, limit)
    case Paged(p) => Response(200, ListBody(p.items, p.meta))
    case PagingException(_) => Response(500, ErrorBody(ListFailedMessage))
    case PagingError(_) => Response(500, FrameworkErrorBody)
  }

  // ---------------------------------------------------------------- show

  /** `show($id)`: the stored row with 200, 404 for an unknown id, and a fixed 500 message
      for any other fault. */
  function Show(lookup: Lookup): (r: Response)
    ensures r.status == 200 <==> lookup.Found?
    ensures lookup.Found? ==> r.body == PropertyBody(lookup.property)
    ensures r.status == 404 <==> lookup.Missing?
    ensures lookup.Missing? ==> r.body == ErrorBody(NotFoundMessage)
    ensures r.status == 500 <==> lookup.StorageFault?
    ensures lookup.StorageFault? ==> r.body == ErrorBody(ShowFailedMessage)
  {
    match lookup
    case Found(p) => Response(200, PropertyBody(p))
    case Missing => Response(404, ErrorBody(NotFoundMessage))
    case StorageFault(_) => Response(500, ErrorBody(ShowFailedMessage))
  }

  /** The text of a storage fault never reaches the caller. */
  lemma ShowHidesFaultText(m1: string, m2: string)
    ensures Show(StorageFault(m1)) == Show(StorageFault(m2))
  {
  }

  // ---------------------------------------------------------------- generateContent

  /** The JSON body of an outbound POST. */
  datatype Payload =
    | PropertyData(property: Property)
    | PriceQuery(area: real, address: string, numRooms: int, numBathrooms: int,
                 age: int, locationFactor: real, isNearMrt: int)

  /** An outbound `Http::timeout(t)->withHeaders(['X-API-KEY' => k])->post(url, payload)`. */
  datatype OutboundCall = Post(url: string, apiKey: Option<string>, payload: Payload, timeoutSeconds: nat)

  /** What the AI service's call produced: a response (its status, the top-level fields of
      its JSON body, empty when the body is not a JSON object, and the raw body), a
      `ConnectionException` (refused, timed out), or any other exception. */
  datatype Upstream =
    | Replied(status: int, fields: map<string, Json>, body: string)
    | ConnectionFailed(message: string)
    | OtherFailure(message: string)

  /** Laravel's `successful()`: a 2xx status. */
  predicate Successful(status: int) {
    200 <= status < 300
  }

  /** A response together with the outbound call the action made, if any. */
  datatype Handled = Handled(response: Response, call: Option<OutboundCall>)

  function ContentCall(baseUrl: string, apiKey: Option<string>, p: Property): OutboundCall {
    Post(baseUrl + "/generate/content", apiKey, PropertyData(p), 60)
  }

  /** `generateContent($id)`. `aiUrl` and `aiKey` are `env('AI_SERVICE_URL')` and
      `env('AI_SERVICE_INTERNAL_API_KEY')`; `upstream` is what the call would produce. */
  function GenerateContent(lookup: Lookup, aiUrl: Option<string>, aiKey: Option<string>, upstream: Upstream): (h: Handled)
    // the lookup comes first: an unknown id is a 404 and nothing is sent
    ensures lookup.Missing? ==> h == Handled(Response(404, ErrorBody(NotFoundMessage)), None)
    // a call is made exactly when the row exists and the URL is set, and it carries the row
    ensures h.call.Some? <==> lookup.Found? && !Falsy(aiUrl)
    ensures h.call.Some? ==> h.call.value == ContentCall(aiUrl.value, aiKey, lookup.property)
    // storage faults and a missing URL end in the generic 500, never in their own text
    ensures lookup.StorageFault? || (lookup.Found? && Falsy(aiUrl)) ==>
              h.response == Response(500, ErrorBody(GenerationFailedMessage))
    // success: the content is relayed; the placeholder replaces only a missing or null field
    ensures h.response.status == 200 <==> h.call.Some? && upstream.Replied? && Successful(upstream.status)
    ensures h.response.status == 200 ==>
              h.response.body == ContentBody(lookup.property.id,
                                             Coalesce(upstream.fields, "generated_content", JString(EmptyContentMessage)))
    // an upstream error keeps the upstream status when it is an error status, otherwise 500,
    // as long as its `detail` is a scalar the log line can interpolate
    ensures h.call.Some? && upstream.Replied? && !Successful(upstream.status)
            && !Coalesce(upstream.fields, "detail", JString(upstream.body)).JComposite? ==>
              && h.response.status >= 400
              && h.response.status == (if upstream.status >= 400 then upstream.status else 500)
              && h.response.body == ErrorDetailsBody(UpstreamFailedMessage,
                                                     Coalesce(upstream.fields, "detail", JString(upstream.body)))
    // an array or object `detail` breaks the log line's string interpolation (PHP's
    // "Array to string conversion", raised as an `ErrorException`), which ends in the generic 500
    ensures h.call.Some? && upstream.Replied? && !Successful(upstream.status)
            && Coalesce(upstream.fields, "detail", JString(upstream.body)).JComposite? ==>
              h.response == Response(500, ErrorBody(GenerationFailedMessage))
    // a connection failure is a 503 with its own message (an upstream 503 reply is relayed
    // with the upstream's details instead)
    ensures h.call.Some? && upstream.ConnectionFailed? ==> h.response.status == 503
    ensures h.response.body == ErrorBody(UnreachableMessage) <==> h.call.Some? && upstream.ConnectionFailed?
    ensures h.call.Some? && upstream.OtherFailure? ==> h.response == Response(500, ErrorBody(GenerationFailedMessage))
  {
    match lookup
    case Missing => Handled(Response(404, ErrorBody(NotFoundMessage)), None)
    case StorageFault(_) => Handled(Response(500, ErrorBody(GenerationFailedMessage)), None)
    case Found(p) =>
      if Falsy(aiUrl) then
        Handled(Response(500, ErrorBody(GenerationFailedMessage)), None)
      else
        var call := Some(ContentCall(aiUrl.value, aiKey, p));
        match upstream
        case Replied(status, fields, body) =>
          if Successful(status) then
            Handled(Response(200, ContentBody(p.id, Coalesce(fields, "generated_content", JString(EmptyContentMessage)))), call)
          else
            var details := Coalesce(fields, "detail", JString(body));
            if details.JComposite? then
              Handled(Response(500, ErrorBody(GenerationFailedMessage)), call)
            else
              Handled(Response(if status >= 400 then status else 500, ErrorDetailsBody(UpstreamFailedMessage, details)), call)
        case ConnectionFailed(_) => Handled(Response(503, ErrorBody(UnreachableMessage)), call)
        case OtherFailure(_) => Handled(Response(500, ErrorBody(GenerationFailedMessage)), call)
  }

  /** Every answer of `generateContent` that is not a 200 is an error status (at least 400). */
  lemma GenerateContentErrorsAreErrors(lookup: Lookup, aiUrl: Option<string>, aiKey: Option<string>, upstream: Upstream)
    ensures var r := GenerateContent(lookup, aiUrl, aiKey, upstream).response;
            r.status == 200 || r.status >= 400
  {
  }

  /** FastAPI's own validation error (a 422 whose `detail` is a list) is not relayed: the log line
      cannot interpolate the list, and the generic 500 answers instead, after the call was made. */
  lemma ValidationErrorNotRelayed(p: Property, aiUrl: string, aiKey: Option<string>, detail: string, body: string)
    requires !Falsy(Some(aiUrl))
    ensures GenerateContent(Found(p), Some(aiUrl), aiKey, Replied(422, map["detail" := JComposite(detail)], body))
            == Handled(Response(500, ErrorBody(GenerationFailedMessage)), Some(ContentCall(aiUrl, aiKey, p)))
  {
  }

  /** An empty `generated_content` string is relayed as it is, not replaced by the placeholder. */
  lemma EmptyContentIsRelayed(p: Property, aiUrl: string, aiKey: Option<string>, status: int, fields: map<string, Json>, body: string)
    requires !Falsy(Some(aiUrl)) && Successful(status)
    requires "generated_content" in fields && fields["generated_content"] == JString("")
    ensures GenerateContent(Found(p), Some(aiUrl), aiKey, Replied(status, fields, body)).response
            == Response(200, ContentBody(p.id, JString("")))
  {
  }

  // ---------------------------------------------------------------- healthCheck

  /** Outcome of `DB::connection()->getPdo()`. */
  datatype DbProbe = DbConnected | DbFailed(message: string)

  /** What the AI probe's POST produced: a response, or an exception with its message. */
  datatype ProbeReply = ProbeReplied(status: int, body: string) | ProbeThrew(message: string)

  const DbErrorPrefix := "資料庫連線失敗: "
  const AiUrlMissingMessage := "AI 服務 URL 未設定。"
  const AiRejectedPrefix := "AI 服務回應錯誤: "
  const AiUnreachablePrefix := "無法連接到 AI 服務: "

  /** The fixed sample request the probe sends to the price predictor. */
  const ProbePayload := PriceQuery(50.0, "台北市健康區", 3, 2, 10, 1.0, 0)

  function ProbeCall(baseUrl: string, apiKey: Option<string>): OutboundCall {
    Post(baseUrl + "/predict/price", apiKey, ProbePayload, 5)
  }

  /** The status map's keys. */
  const StatusKeys: set<string> := {"api_service", "database", "database_error", "ai_service", "ai_service_error"}

  /** `healthCheck()`: builds the status map entry by entry from two independent probes,
      then answers 500 if the value "error" is among the map's values, 200 otherwise. */
  method HealthCheck(db: DbProbe, aiUrl: Option<string>, aiKey: Option<string>, probe: ProbeReply)
    returns (status: map<string, string>, httpStatus: int, call: Option<OutboundCall>)
    ensures status.Keys <= StatusKeys
    ensures "api_service" in status && status["api_service"] == "ok"
    // the database entries depend on the database probe alone
    ensures "database" in status && status["database"] == (if db.DbConnected? then "ok" else "error")
    ensures "database_error" in status <==> db.DbFailed?
    ensures db.DbFailed? ==> status["database_error"] == DbErrorPrefix + db.message
    // the AI entries depend on the configuration and the AI probe alone; no call without a URL
    ensures call == (if Falsy(aiUrl) then None else Some(ProbeCall(aiUrl.value, aiKey)))
    ensures "ai_service" in status && status["ai_service"] in {"ok", "error"}
    ensures status["ai_service"] == "ok" <==> call.Some? && probe.ProbeReplied? && Successful(probe.status)
    ensures "ai_service_error" in status <==> status["ai_service"] == "error"
    ensures Falsy(aiUrl) ==> status["ai_service_error"] == AiUrlMissingMessage
    ensures call.Some? && probe.ProbeReplied? && !Successful(probe.status) ==>
              status["ai_service_error"] == AiRejectedPrefix + IntToString(probe.status) + " - " + probe.body
    ensures call.Some? && probe.ProbeThrew? ==> status["ai_service_error"] == AiUnreachablePrefix + probe.message
    // no message ever reads as the literal "error", so the membership test is per-probe
    ensures forall k :: k in status && k != "database" && k != "ai_service" ==> status[k] != "error"
    ensures httpStatus == 500 <==> status["database"] == "error" || status["ai_service"] == "error"
    ensures httpStatus == 200 <==> status["database"] == "ok" && status["ai_service"] == "ok"
  {
    status := map["api_service" := "ok"];

    match db {
      case DbConnected =>
        status := status["database" := "ok"];
      case DbFailed(message) =>
        status := status["database" := "error"];
        status := status["database_error" := DbErrorPrefix + message];
    }

    if Falsy(aiUrl) {
      call := None;
      status := status["ai_service" := "error"];
      status := status["ai_service_error" := AiUrlMissingMessage];
    } else {
      call := Some(ProbeCall(aiUrl.value, aiKey));
      match probe {
        case ProbeReplied(code, body) =>
          if Successful(code) {
            status := status["ai_service" := "ok"];
          } else {
            status := status["ai_service" := "error"];
            status := status["ai_service_error" := AiRejectedPrefix + IntToString(code) + " - " + body];
          }
        case ProbeThrew(message) =>
          status := status["ai_service" := "error"];
          status := status["ai_service_error" := AiUnreachablePrefix + message];
      }
    }

    httpStatus := 200;
    if "error" in status.Values {
      httpStatus := 500;
    }
  }
}
