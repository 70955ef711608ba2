/**
 * The older request layer at the repository root. It has no token state:
 * authentication rides on the cookies that `credentials: 'include'` sends.
 * Its response handling and order query are written out again here, as
 * that file has its own, and shown to agree with the dashboard's.
 */
module LegacyApi {
  import opened Js
  import UrlForm
  import Api

  const LocalApiUrl := "http://localhost:8080"

  /** `API_BASE_URL`: the build-time URL when set, else the local server. */
  function BaseUrl(env: string): (r: string)
    ensures r != ""
    ensures r == Api.GetApiBaseUrl(env, None)
  {
    if env != "" then env else LocalApiUrl
  }

  /** The request `fetchAPI` hands to `fetch`: no `Authorization` header is ever added. */
  function BuildRequest(env: string, endpoint: string, options: Api.RequestOptions): (req: Api.HttpRequest)
    ensures req.url == (if env != "" then env else "http://localhost:8080") + endpoint
    ensures req.credentials == "include"
    ensures req.verb == options.verb && req.body == options.body
    ensures forall k :: k in req.headers <==> k == "Content-Type" || k in options.headers
    ensures forall k :: k in options.headers ==> req.headers[k] == options.headers[k]
    ensures "Content-Type" !in options.headers ==> req.headers["Content-Type"] == "application/json"
  {
    Api.HttpRequest(options.verb, BaseUrl(env) + endpoint, "include",
      map["Content-Type" := "application/json"] + options.headers, options.body)
  }

  /** The error thrown for a non-2xx response. */
  function ErrorOf(status: int, body: Option<Json>): (f: Api.Failure)
    ensures body.None? ==> f == Api.Message("Request failed")
    ensures body == Some(JNull) ==> f == Api.NullBody
  {
    match body
    case None => Api.Message("Request failed")
    case Some(JNull) => Api.NullBody
    case Some(v) =>
      var e := Js.Get(body, "error");
      if Truthy(e) then
        (if e.value.JString? then Api.Message(e.value.s) else Api.MessageOf(e.value))
      else
        Api.Message("HTTP " + IntToString(status))
  }

  /** How `fetchAPI` settles once `fetch` has. */
  function Settle(outcome: Api.HttpOutcome): (r: Api.Outcome)
    ensures r.Success? ==> outcome.Response? && Api.Ok(outcome.status) && outcome.body == Some(r.data)
    ensures outcome.Response? && !Api.Ok(outcome.status) ==> r == Api.Thrown(Api.ErrorOf(outcome.status, outcome.body))
  {
    match outcome
    case NetworkFailure => Api.Thrown(Api.Network)
    case Response(status, body) =>
      if !Api.Ok(status) then Api.Thrown(ErrorOf(status, body))
      else if body.None? then Api.Thrown(Api.NotJson)
      else Api.Success(body.value)
  }

  /** Responses settle exactly as in the dashboard's request layer. */
  lemma SettleAgrees(outcome: Api.HttpOutcome)
    ensures Settle(outcome) == Api.Settle(outcome)
  {
  }

  /** The error messages: the body's `error`, else "Request failed" for a non-JSON body, else `HTTP <status>`; never empty. */
  lemma ErrorMessages(status: int, body: Option<Json>)
    requires !Api.Ok(status)
    ensures Settle(Api.Response(status, body)).Thrown?
    ensures ErrorOf(status, body).Message? ==> ErrorOf(status, body).text != ""
    ensures body.None? ==> ErrorOf(status, body) == Api.Message("Request failed")
    ensures body.Some? && body.value != JNull && !Truthy(Js.Get(body, "error")) ==>
            ErrorOf(status, body) == Api.Message("HTTP " + IntToString(status))
  {
    Api.ErrorMessages(status, body);
  }

  /** `authAPI.verifyOTP`: the settled body, returned as it is; no token is kept. */
  function VerifyOtp(outcome: Api.HttpOutcome): (r: Api.Outcome)
    ensures r.Success? ==> outcome.Response? && outcome.body == Some(r.data)
    ensures outcome.NetworkFailure? ==> r == Api.Thrown(Api.Network)
  {
    Settle(outcome)
  }

  /** What `verifyOTP` returns here is what the dashboard's `verifyOTP` returns. */
  lemma VerifyOtpReturnsBody(outcome: Api.HttpOutcome)
    ensures VerifyOtp(outcome) == Api.Settle(outcome)
    ensures VerifyOtp(outcome).Success? <==> outcome.Response? && Api.Ok(outcome.status) && outcome.body.Some?
    ensures VerifyOtp(outcome).Success? ==> VerifyOtp(outcome).data == outcome.body.value
  {
    SettleAgrees(outcome);
    Api.SettleSuccess(outcome);
  }

  /** The pairs `ordersAPI.getAll` appends: a non-empty status, then a non-zero limit. */
  function OrderParams(status: Option<string>, limit: Option<int>): (ps: seq<(string, string)>)
    ensures ps == Api.OrderParams(status, limit)
    ensures (status.None? || status.value == "") && (limit.None? || limit.value == 0) <==> ps == []
  {
    (if status.Some? && status.value != "" then [("status", status.value)] else [])
    + (if limit.Some? && limit.value != 0 then [("limit", IntToString(limit.value))] else [])
  }

  /** The endpoint `ordersAPI.getAll` fetches. */
  function OrdersEndpoint(status: Option<string>, limit: Option<int>): (r: string)
    ensures |r| >= 17 && r[..17] == "/api/admin/orders"
  {
    var query := UrlForm.Serialize(OrderParams(status, limit));
    "/api/admin/orders" + (if query != "" then "?" + query else "")
  }

  /** The order query is built as in the dashboard: empty status and zero limit omitted, status first, `?` only when non-empty. */
  lemma OrdersEndpointAgrees(status: Option<string>, limit: Option<int>)
    ensures OrderParams(status, limit) == Api.OrderParams(status, limit)
    ensures OrdersEndpoint(status, limit) == Api.OrdersEndpoint(status, limit)
    ensures OrdersEndpoint(status, limit) == "/api/admin/orders" <==> OrderParams(status, limit) == []
  {
    var q := UrlForm.Serialize(OrderParams(status, limit));
    if q != "" {
      assert |OrdersEndpoint(status, limit)| > |"/api/admin/orders"|;
    }
  }
}
