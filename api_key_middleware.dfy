/** The backend's API-key gate (`ApiKeyMiddleware::handle`): a request reaches the
    controller only if its `X-API-KEY` header names an active row of the `api_keys` table. */
module ApiKeyMiddleware {
  import opened Text
  import opened Php
  import opened Http

  /** One row of `api_keys`. */
  datatype ApiKeyRow = ApiKeyRow(key: string, clientName: Option<string>, isActive: bool)

  /** The key table as the lookup sees it: its rows, or a storage fault (the query throws). */
  datatype KeyStore = Online(rows: seq<ApiKeyRow>) | Offline

  /** The schema's unique index on `key`. */
  predicate UniqueKeys(rows: seq<ApiKeyRow>) {
    forall i, j :: 0 <= i < j < |rows| ==> rows[i].key != rows[j].key
  }

  /** A row inserted without `is_active` gets the column default, true. */
  function NewRow(key: string, clientName: Option<string>): (row: ApiKeyRow)
    ensures row.key == key && row.clientName == clientName && row.isActive
  {
    ApiKeyRow(key, clientName, true)
  }

  /** `where('key', $k)->where('is_active', true)->exists()`, scanned row by row. */
  function ActiveKeyExists(rows: seq<ApiKeyRow>, key: string): (r: bool)
    ensures r <==> exists i :: 0 <= i < |rows| && rows[i].key == key && rows[i].isActive
    decreases |rows|
  {
    if rows == [] then false
    else if rows[0].key == key && rows[0].isActive then true
    else
      var r := ActiveKeyExists(rows[1..], key);
      assert forall i :: 1 <= i < |rows| ==> rows[i] == rows[1..][i - 1];
      r
  }

  /** The middleware's outcome: pass the request on, or answer it with 401 or 500. */
  datatype Gate = Forward(request: Request) | Reject401 | Reject500

  const InvalidKeyMessage := "無效或停用的 API 金鑰。"
  const KeyCheckFailedMessage := "伺服器內部錯誤，無法驗證 API 金鑰。"

  /** `handle($request, $next)`. A falsy header is rejected before the table is queried;
      a storage fault during the query is a 500, never a pass. */
  function Handle(req: Request, store: KeyStore): (g: Gate)
    ensures Falsy(ApiKeyOf(req)) ==> g == Reject401
    ensures !Falsy(ApiKeyOf(req)) && store.Offline? ==> g == Reject500
    // a 500 comes only from the storage fault: an unknown or inactive key is a 401
    ensures g == Reject500 <==> !Falsy(ApiKeyOf(req)) && store.Offline?
    ensures g == Reject401 <==>
              Falsy(ApiKeyOf(req))
              || (store.Online? && !exists i :: 0 <= i < |store.rows| && store.rows[i].key == ApiKeyOf(req).value && store.rows[i].isActive)
    ensures g.Forward? <==>
              !Falsy(ApiKeyOf(req)) && store.Online?
              && exists i :: 0 <= i < |store.rows| && store.rows[i].key == ApiKeyOf(req).value && store.rows[i].isActive
    ensures g.Forward? ==> g.request == req
  {
    var apiKey := ApiKeyOf(req);
    if Falsy(apiKey) then Reject401
    else match store
      case Offline => Reject500
      case Online(rows) => if ActiveKeyExists(rows, apiKey.value) then Forward(req) else Reject401
  }

  /** With unique keys, a key whose row is inactive is refused, whatever else the table holds. */
  lemma {:induction false} InactiveKeyRejected(req: Request, rows: seq<ApiKeyRow>, i: int)
    requires UniqueKeys(rows) && 0 <= i < |rows| && !rows[i].isActive
    requires ApiKeyOf(req) == Some(rows[i].key)
    ensures Handle(req, Online(rows)) == Reject401
  {
  }

  /** Turning a row's `is_active` off revokes the key it holds, even if it was accepted before. */
  lemma DeactivationRevokes(req: Request, rows: seq<ApiKeyRow>, i: int)
    requires UniqueKeys(rows) && 0 <= i < |rows|
    requires ApiKeyOf(req) == Some(rows[i].key)
    ensures Handle(req, Online(rows[i := rows[i].(isActive := false)])) == Reject401
  {
  }

  /** A key provisioned with the column default is accepted as soon as its row is added. */
  lemma {:induction false} ProvisionedKeyAccepted(req: Request, rows: seq<ApiKeyRow>, clientName: Option<string>)
    requires !Falsy(ApiKeyOf(req))
    // the unique index admits the insert only when no row holds the key yet
    requires forall i :: 0 <= i < |rows| ==> rows[i].key != ApiKeyOf(req).value
    ensures Handle(req, Online(rows + [NewRow(ApiKeyOf(req).value, clientName)])) == Forward(req)
  {
    var all := rows + [NewRow(ApiKeyOf(req).value, clientName)];
    assert all[|rows|].key == ApiKeyOf(req).value && all[|rows|].isActive;
  }

  /** The only two answers the gate can give without consulting storage are 401s. */
  lemma FalsyHeaderIgnoresStorage(req: Request, s1: KeyStore, s2: KeyStore)
    requires Falsy(ApiKeyOf(req))
    ensures Handle(req, s1) == Handle(req, s2) == Reject401
  {
  }
}
