/** The backend's route table: the three property routes sit behind the API-key gate,
    the health check does not. */
module Routes {
  import opened Text
  import opened Php
  import opened Http
  import opened ApiKeyMiddleware
  import PC = PropertyController

  datatype Route =
    | ListProperties(query: map<string, string>)
    | ShowProperty(id: int)
    | GeneratePropertyContent(id: int)
    | Health

  predicate RequiresApiKey(route: Route) {
    route.ListProperties? || route.ShowProperty? || route.GeneratePropertyContent?
  }

  /** Everything the backend's effects would produce for one request. */
  datatype Backend = Backend(
    store: KeyStore,
    lookup: int -> PC.Lookup,
    paginate: (PC.QueryValue, PC.QueryValue) -> PC.Pagination,
    aiUrl: Option<string>, aiKey: Option<string>,
    upstream: PC.Upstream, db: PC.DbProbe, probe: PC.ProbeReply)

  /** The gate's refusal as the client sees it. */
  function Rejection(g: Gate): (r: PC.Response)
    requires !g.Forward?
    ensures r.status == (if g.Reject401? then 401 else 500)
    ensures r.body == PC.ErrorBody(if g.Reject401? then InvalidKeyMessage else KeyCheckFailedMessage)
  {
    if g.Reject401? then PC.Response(401, PC.ErrorBody(InvalidKeyMessage))
    else PC.Response(500, PC.ErrorBody(KeyCheckFailedMessage))
  }

  /** Handles one request: the gate first on protected routes, then the controller action. */
  method Serve(route: Route, req: Request, env: Backend) returns (response: PC.Response, call: Option<PC.OutboundCall>)
    // a refused request never reaches an action, so nothing is sent anywhere
    ensures RequiresApiKey(route) && !Handle(req, env.store).Forward? ==>
              response == Rejection(Handle(req, env.store)) && call == None
    ensures RequiresApiKey(route) && Handle(req, env.store).Forward? ==>
              match route
              case ListProperties(query) => response == PC.Index(query, env.paginate) && call == None
              case ShowProperty(id) => response == PC.Show(env.lookup(id)) && call == None
              case GeneratePropertyContent(id) =>
                PC.Handled(response, call) == PC.GenerateContent(env.lookup(id), env.aiUrl, env.aiKey, env.upstream)
              case Health => false
    // the health check never consults the key store: its answer and its probe call
    // depend on the configuration and the two probes alone
    ensures route.Health? ==>
              && response.body.StatusBody?
              && call == (if Falsy(env.aiUrl) then None else Some(PC.ProbeCall(env.aiUrl.value, env.aiKey)))
              && "api_service" in response.body.entries && response.body.entries["api_service"] == "ok"
              && "database" in response.body.entries
              && response.body.entries["database"] == (if env.db.DbConnected? then "ok" else "error")
              && (response.status == 200 <==>
                    env.db.DbConnected? && !Falsy(env.aiUrl) && env.probe.ProbeReplied? && PC.Successful(env.probe.status))
              && (response.status == 200 || response.status == 500)
  {
    if RequiresApiKey(route) {
      var gate := Handle(req, env.store);
      if !gate.Forward? {
        return Rejection(gate), None;
      }
    }
    match route {
      case ListProperties(query) =>
        response, call := PC.Index(query, env.paginate), None;
      case ShowProperty(id) =>
        response, call := PC.Show(env.lookup(id)), None;
      case GeneratePropertyContent(id) =>
        var handled := PC.GenerateContent(env.lookup(id), env.aiUrl, env.aiKey, env.upstream);
        response, call := handled.response, handled.call;
      case Health =>
        var status, httpStatus;
        status, httpStatus, call := PC.HealthCheck(env.db, env.aiUrl, env.aiKey, env.probe);
        response := PC.Response(httpStatus, PC.StatusBody(status));
    }
  }

  /** Key "abc123" is inactive and "xyz789" active: the first is refused, the second passes. */
  lemma KeyScenario(path: string)
    ensures var rows := [ApiKeyRow("abc123", None, false), ApiKeyRow("xyz789", None, true)];
            && Handle(Request("GET", path, map[ApiKeyHeader := "abc123"], ""), Online(rows)) == Reject401
            && Handle(Request("GET", path, map[ApiKeyHeader := "xyz789"], ""), Online(rows)).Forward?
  {
  }
}
