/**
 * The dashboard's request layer: where requests go, which headers they
 * carry, how a response becomes data or a thrown error, the bearer token
 * the module holds between a successful OTP verification and a logout,
 * and the order-list query string.
 *
 * `fetch` itself is not modelled: its result is an input, `HttpOutcome`.
 */
module Api {
  import opened Js
  import UrlForm

  const ProductionApiUrl := "https://destination-cocktails-production.up.railway.app"
  const LocalApiUrl := "http://localhost:8080"

  /**
   * `getApiBaseUrl`. `env` is the build-time API URL ("" when unset, which
   * `||` treats as unset); `hostname` is the page's host name, `None` when
   * there is no window.
   */
  function GetApiBaseUrl(env: string, hostname: Option<string>): (r: string)
    ensures r != ""
    ensures env != "" ==> r == env
    ensures env == "" ==> r == (if hostname.Some? && Includes(hostname.value, "railway.app") then ProductionApiUrl else LocalApiUrl)
  {
    if hostname.Some? && Includes(hostname.value, "railway.app") then
      (if env != "" then env else ProductionApiUrl)
    else
      (if env != "" then env else LocalApiUrl)
  }

  /** What a caller passes as `RequestInit`; `headers` is a plain object. */
  datatype RequestOptions = RequestOptions(verb: string, headers: map<string, string>, body: Option<Json>)

  /** What `fetch` is called with. */
  datatype HttpRequest = HttpRequest(
    verb: string,
    url: string,
    credentials: string,
    headers: map<string, string>,
    body: Option<Json>)

  function GetOptions(): RequestOptions
  {
    RequestOptions("GET", map[], None)
  }

  function Post(body: Option<Json>): RequestOptions
  {
    RequestOptions("POST", map[], body)
  }

  /** What `fetch` produced: a rejection, or a response whose body parses as JSON or not. */
  datatype HttpOutcome = NetworkFailure | Response(status: int, body: Option<Json>)

  predicate Ok(status: int)
  {
    200 <= status <= 299
  }

  /** What the request layer throws. */
  datatype Failure =
    | Message(text: string)   // new Error(text)
    | MessageOf(value: Json)  // new Error(value) for a truthy non-string `error` field
    | NullBody                // the TypeError of reading `.error` of a `null` body
    | NotJson                 // the SyntaxError of parsing a 2xx body that is not JSON
    | Network                 // the TypeError of a rejected fetch

  datatype Outcome = Success(data: Json) | Thrown(failure: Failure)

  /** The error thrown for a non-2xx response: the body's `error`, else "Request failed" for a non-JSON body, else `HTTP <status>`. */
  function ErrorOf(status: int, body: Option<Json>): (f: Failure)
    ensures body.None? ==> f == Message("Request failed")
    ensures body == Some(JNull) ==> f == NullBody
    ensures body.Some? && body.value.JObject? && "error" !in body.value.fields ==> f == Message("HTTP " + IntToString(status))
  {
    match body
    case None => Message("Request failed")
    case Some(JNull) => NullBody
    case Some(v) =>
      var e := Js.Get(body, "error");
      if Truthy(e) then
        (if e.value.JString? then Message(e.value.s) else MessageOf(e.value))
      else
        Message("HTTP " + IntToString(status))
  }

  /** How `fetchAPI` settles once `fetch` has. */
  function Settle(outcome: HttpOutcome): (r: Outcome)
    ensures r.Success? ==> outcome.Response? && Ok(outcome.status) && outcome.body == Some(r.data)
    ensures outcome.Response? && !Ok(outcome.status) ==> r.Thrown? && !r.failure.NotJson? && !r.failure.Network?
    ensures r == Thrown(Network) <==> outcome.NetworkFailure?
  {
    match outcome
    case NetworkFailure => Thrown(Network)
    case Response(status, body) =>
      if !Ok(status) then Thrown(ErrorOf(status, body))
      else if body.None? then Thrown(NotJson)
      else Success(body.value)
  }

  /** A request yields data exactly when the response is 2xx with a JSON body, and then the data is that body. */
  lemma SettleSuccess(outcome: HttpOutcome)
    ensures Settle(outcome).Success? <==> outcome.Response? && Ok(outcome.status) && outcome.body.Some?
    ensures Settle(outcome).Success? ==> Settle(outcome).data == outcome.body.value
  {
  }

  /**
   * A non-2xx response always throws, and every message thrown is non-empty:
   * the body's `error` string when that is non-empty, "Request failed" for
   * a body that is not JSON, `HTTP <status>` otherwise.
   */
  lemma {:induction false} ErrorMessages(status: int, body: Option<Json>)
    requires !Ok(status)
    ensures Settle(Response(status, body)) == Thrown(ErrorOf(status, body))
    ensures ErrorOf(status, body).Message? ==> ErrorOf(status, body).text != ""
    ensures body.None? ==> ErrorOf(status, body) == Message("Request failed")
    ensures (&& body.Some? && body.value.JObject? && "error" in body.value.fields
             && body.value.fields["error"].JString? && body.value.fields["error"].s != "")
            ==> ErrorOf(status, body) == Message(body.value.fields["error"].s)
    ensures body.Some? && body.value != JNull && !Truthy(Js.Get(body, "error")) ==>
            ErrorOf(status, body) == Message("HTTP " + IntToString(status))
  {
  }

  /** The status can be read back from the `HTTP <status>` fallback. */
  lemma StatusInFallback(status: nat)
    ensures var t := "HTTP " + IntToString(status);
      t[..5] == "HTTP " && (forall i :: 5 <= i < |t| ==> IsDigit(t[i])) && DigitsValue(t[5..]) == status
  {
    var t := "HTTP " + IntToString(status);
    assert t[5..] == NatToString(status);
    NatToStringValue(status);
  }

  /**
   * The token `verifyOTP` keeps: `token ?? access_token ?? jwt`, if that is a string.
   */
  function TokenOf(data: Json): (r: Option<string>)
    ensures !data.JObject? ==> r.None?
    ensures r.Some? ==> exists k :: k in {"token", "access_token", "jwt"} && k in data.fields && data.fields[k] == JString(r.value)
  {
    var d := Some(data);
    var t := Coalesce(Coalesce(Js.Get(d, "token"), Js.Get(d, "access_token")), Js.Get(d, "jwt"));
    if t.Some? && t.value.JString? then Some(t.value.s) else None
  }

  /**
   * Precedence of the token fields: the first one that is present and not
   * `null` decides, and a present non-string value there means no token,
   * even when a later field holds a string.
   */
  lemma TokenPrecedence(data: Json)
    ensures var d := Some(data);
      && (Js.Get(d, "token").Some? && Js.Get(d, "token").value.JString? ==>
            TokenOf(data) == Some(Js.Get(d, "token").value.s))
      && (!Nullish(Js.Get(d, "token")) && !Js.Get(d, "token").value.JString? ==> TokenOf(data) == None)
      && (Nullish(Js.Get(d, "token")) && Js.Get(d, "access_token").Some? && Js.Get(d, "access_token").value.JString? ==>
            TokenOf(data) == Some(Js.Get(d, "access_token").value.s))
      && (Nullish(Js.Get(d, "token")) && Nullish(Js.Get(d, "access_token")) ==>
            TokenOf(data) == (if Js.Get(d, "jwt").Some? && Js.Get(d, "jwt").value.JString? then Some(Js.Get(d, "jwt").value.s) else None))
      && (!data.JObject? ==> TokenOf(data) == None)
  {
  }

  // ---------------------------------------------------------------- orders

  /** The pairs `ordersAPI.getAll` appends: a non-empty status, then a non-zero limit. */
  function OrderParams(status: Option<string>, limit: Option<int>): (ps: seq<(string, string)>)
    ensures |ps| <= 2
    ensures forall i :: 0 <= i < |ps| ==> (ps[i].0 == "status" || ps[i].0 == "limit") && ps[i].1 != ""
  {
    (if status.Some? && status.value != "" then [("status", status.value)] else [])
    + (if limit.Some? && limit.value != 0 then [("limit", IntToString(limit.value))] else [])
  }

  /** The endpoint `ordersAPI.getAll` fetches. */
  function OrdersEndpoint(status: Option<string>, limit: Option<int>): (r: string)
    ensures |r| >= 17 && r[..17] == "/api/admin/orders"
  {
    var query := UrlForm.Serialize(OrderParams(status, limit));
    "/api/admin/orders" + (if query != "" then "?" + query else "")
  }

  /** Which parameters are sent, in which order, with which values. */
  lemma OrderParamsSpec(status: Option<string>, limit: Option<int>)
    ensures var ps := OrderParams(status, limit);
      var hasStatus := status.Some? && status.value != "";
      var hasLimit := limit.Some? && limit.value != 0;
      && |ps| == (if hasStatus then 1 else 0) + (if hasLimit then 1 else 0)
      && (hasStatus ==> ps[0] == ("status", status.value))
      && (hasLimit ==> ps[|ps| - 1] == ("limit", IntToString(limit.value)))
  {
  }

  /** A `?` appears in the endpoint exactly when some parameter is sent. */
  lemma {:induction false} QueryMarkIff(status: Option<string>, limit: Option<int>)
    ensures (exists i :: 0 <= i < |OrdersEndpoint(status, limit)| && OrdersEndpoint(status, limit)[i] == '?')
        <==> OrderParams(status, limit) != []
  {
    var ps := OrderParams(status, limit);
    var e := OrdersEndpoint(status, limit);
    var base := "/api/admin/orders";
    if ps == [] {
      assert e == base;
      assert forall i :: 0 <= i < |e| ==> e[i] != '?';
    } else {
      assert e[|base|] == '?';
    }
  }

  /** With nothing to filter the list endpoint is bare. */
  lemma BareOrdersEndpoint()
    ensures OrdersEndpoint(None, None) == "/api/admin/orders"
    ensures OrdersEndpoint(Some(""), Some(0)) == "/api/admin/orders"
  {
    assert OrderParams(None, None) == [];
    assert OrderParams(Some(""), Some(0)) == [];
  }

  /**
   * With both filters, the query is `status=<status>&limit=<limit>`, status
   * first; a status made of letters, digits and `*-._` is sent as it is.
   */
  lemma {:induction false} BothFiltersEndpoint(status: string, limit: int)
    requires status != "" && limit > 0
    requires forall i :: 0 <= i < |status| ==> UrlForm.IsUnreserved(status[i])
    ensures OrdersEndpoint(Some(status), Some(limit)) == "/api/admin/orders?status=" + status + "&limit=" + IntToString(limit)
  {
    var d := IntToString(limit);
    var ps := OrderParams(Some(status), Some(limit));
    assert ps == [("status", status)] + [("limit", d)];
    assert ps == [("status", status), ("limit", d)];
    var q := UrlForm.Serialize(ps);
    assert q == "status" + "=" + status + "&" + "limit" + "=" + d by {
      DigitsUnreserved(limit);
      LiteralNamesUnreserved();
      SerializeTwo("status", status, "limit", d);
    }
    assert OrdersEndpoint(Some(status), Some(limit)) == "/api/admin/orders" + ("?" + q);
    JoinQuery(status, d);
  }

  /** A decimal limit needs no escaping. */
  lemma DigitsUnreserved(limit: int)
    requires limit >= 0
    ensures forall i :: 0 <= i < |IntToString(limit)| ==> UrlForm.IsUnreserved(IntToString(limit)[i])
  {
    var d := IntToString(limit);
    assert d == NatToString(limit);
    forall i | 0 <= i < |d| ensures UrlForm.IsUnreserved(d[i]) {
      assert IsDigit(d[i]);
    }
  }

  /** The parameter names need no escaping. */
  lemma LiteralNamesUnreserved()
    ensures forall i :: 0 <= i < |"status"| ==> UrlForm.IsUnreserved("status"[i])
    ensures forall i :: 0 <= i < |"limit"| ==> UrlForm.IsUnreserved("limit"[i])
  {
  }

  /** The orders path followed by a two-parameter query, with the literals joined up. */
  lemma JoinQuery(status: string, d: string)
    ensures "/api/admin/orders" + ("?" + ("status" + "=" + status + "&" + "limit" + "=" + d))
         == "/api/admin/orders?status=" + status + "&limit=" + d
  {
    assert "/api/admin/orders" + "?" + "status" + "=" == "/api/admin/orders?status=";
    assert "&" + "limit" + "=" == "&limit=";
  }

  lemma SerializeTwo(n1: string, v1: string, n2: string, v2: string)
    requires forall i :: 0 <= i < |n1| ==> UrlForm.IsUnreserved(n1[i])
    requires forall i :: 0 <= i < |v1| ==> UrlForm.IsUnreserved(v1[i])
    requires forall i :: 0 <= i < |n2| ==> UrlForm.IsUnreserved(n2[i])
    requires forall i :: 0 <= i < |v2| ==> UrlForm.IsUnreserved(v2[i])
    ensures UrlForm.Serialize([(n1, v1), (n2, v2)]) == n1 + "=" + v1 + "&" + n2 + "=" + v2
  {
    PairExample(n1, v1);
    PairExample(n2, v2);
    assert [(n1, v1), (n2, v2)][1..] == [(n2, v2)];
  }

  lemma PairExample(name: string, value: string)
    requires forall i :: 0 <= i < |name| ==> UrlForm.IsUnreserved(name[i])
    requires forall i :: 0 <= i < |value| ==> UrlForm.IsUnreserved(value[i])
    ensures UrlForm.Pair(name, value) == name + "=" + value
  {
    UrlForm.EncodeUnreserved(name);
    UrlForm.EncodeUnreserved(value);
  }

  // ---------------------------------------------------------------- module state

  /** The module: its configuration and the bearer token it holds between calls. */
  class ApiClient {
    const env: string
    const hostname: Option<string>
    var authToken: Option<string>

    constructor (env: string, hostname: Option<string>)
      ensures this.env == env && this.hostname == hostname
      ensures authToken == None
    {
      this.env := env;
      this.hostname := hostname;
      authToken := None;
    }

    /** `if (authToken)`: a token is sent only when held and non-empty. */
    predicate SendsToken()
      reads this
      ensures SendsToken() ==> authToken != None && authToken != Some("")
    {
      authToken.Some? && authToken.value != ""
    }

    /** `setAuthToken`. */
    method SetAuthToken(token: Option<string>)
      modifies this
      ensures authToken == token
    {
      authToken := token;
    }

    /**
     * The request `fetchAPI` hands to `fetch`: base URL plus endpoint,
     * credentials always included, `Content-Type: application/json` unless
     * the caller gives one, the caller's other headers kept, and
     * `Authorization: Bearer <token>` (section 2.1 of RFC 6750) whenever a
     * token is sent, overriding any caller value.
     */
    method BuildRequest(endpoint: string, options: RequestOptions) returns (req: HttpRequest)
      ensures req.url == GetApiBaseUrl(env, hostname) + endpoint
      ensures req.credentials == "include"
      ensures req.verb == options.verb && req.body == options.body
      ensures forall k :: k in req.headers <==>
        (k == "Content-Type" || k in options.headers || (k == "Authorization" && SendsToken()))
      ensures req.headers["Content-Type"] ==
        if "Content-Type" in options.headers then options.headers["Content-Type"] else "application/json"
      ensures SendsToken() ==> req.headers["Authorization"] == "Bearer " + authToken.value
      ensures forall k :: k in options.headers && !(k == "Authorization" && SendsToken()) ==>
        req.headers[k] == options.headers[k]
    {
      var url := GetApiBaseUrl(env, hostname) + endpoint;
      var headers := map["Content-Type" := "application/json"] + options.headers;
      if authToken.Some? && authToken.value != "" {
        headers := headers["Authorization" := "Bearer " + authToken.value];
      }
      req := HttpRequest(options.verb, url, "include", headers, options.body);
    }

    /**
     * `authAPI.verifyOTP`: posts the phone and code; on success keeps the
     * token the body carries, if any, and returns the body.
     */
    method VerifyOtp(phone: string, code: string, outcome: HttpOutcome) returns (req: HttpRequest, result: Outcome)
      modifies this
      ensures req.url == GetApiBaseUrl(env, hostname) + "/api/admin/auth/verify-otp" && req.verb == "POST"
      ensures req.body == Some(JObject(map["phone" := JString(phone), "code" := JString(code)]))
      ensures result == Settle(outcome)
      ensures authToken ==
        if result.Success? && TokenOf(result.data).Some? then TokenOf(result.data) else old(authToken)
    {
      req := BuildRequest("/api/admin/auth/verify-otp", Post(Some(JObject(map["phone" := JString(phone), "code" := JString(code)]))));
      result := Settle(outcome);
      if result.Success? {
        var token := TokenOf(result.data);
        if token.Some? {
          SetAuthToken(token);
        }
      }
    }

    /** `authAPI.logout`: the token is dropped only once the request has succeeded. */
    method Logout(outcome: HttpOutcome) returns (req: HttpRequest, result: Outcome)
      modifies this
      ensures req.url == GetApiBaseUrl(env, hostname) + "/api/admin/auth/logout" && req.verb == "POST"
      ensures result == Settle(outcome)
      ensures authToken == if result.Success? then None else old(authToken)
    {
      req := BuildRequest("/api/admin/auth/logout", Post(None));
      result := Settle(outcome);
      if result.Success? {
        SetAuthToken(None);
      }
    }

    /** `ordersAPI.getAll`: the request for the order list. */
    method GetOrders(status: Option<string>, limit: Option<int>) returns (req: HttpRequest)
      ensures req.url == GetApiBaseUrl(env, hostname) + OrdersEndpoint(status, limit)
      ensures req.verb == "GET" && req.credentials == "include"
    {
      req := BuildRequest(OrdersEndpoint(status, limit), GetOptions());
    }
  }

  /** A logout whose 2xx response has no JSON body (a 204, say) throws, and the token stays. */
  lemma LogoutNeedsJsonBody(status: int)
    requires Ok(status)
    ensures Settle(Response(status, None)) == Thrown(NotJson)
  {
  }
}
