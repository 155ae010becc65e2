/**
 * The identity-service client of src/pages/Auth/authApi.js: response
 * normalisation (`parseResponse`), the five endpoint descriptors, and the
 * bearer request wrapper that refreshes once and retries once on a 401
 * (`fetchWithAuth`). Bearer tokens are sent as in section 2.1 of RFC 6750.
 */
module AuthApi {
  import opened Wrappers
  import opened Js
  import opened Text
  import opened Net

  const JsonMediaType := "application/json"

  /** `res.headers.get("content-type")?.includes("application/json")`. */
  predicate IsJson(r: Response)
  {
    r.contentType.Some? && Contains(r.contentType.value, JsonMediaType)
  }

  /**
   * The `SyntaxError` that `res.json()` rejects with when a body announced as
   * JSON does not parse (its text is engine-specific).
   */
  const MalformedJson: Failure := Failure("Unexpected end of JSON input", None, None, None, false)

  /** The `data` that `parseResponse` works with: the parsed body for JSON, `null` otherwise. */
  function Body(r: Response): Json
    requires !IsJson(r) || r.json.Some?
  {
    if IsJson(r) then r.json.value else JNull
  }

  /** `data?.error || data?.message || "Request failed with status <status>"`, as an `Error` message. */
  function FailureMessage(data: Json, status: int): (m: string)
    ensures Truthy(Get(data, "error")) ==> m == StringOf(Get(data, "error"))
    ensures !Truthy(Get(data, "error")) && Truthy(Get(data, "message")) ==> m == StringOf(Get(data, "message"))
    ensures !Truthy(Get(data, "error")) && !Truthy(Get(data, "message")) ==>
      m == "Request failed with status " + Decimal(status)
  {
    var e := Get(data, "error");
    var msg := Get(data, "message");
    if Truthy(e) then StringOf(e)
    else if Truthy(msg) then StringOf(msg)
    else "Request failed with status " + Decimal(status)
  }

  /**
   * `parseResponse(res)`: the body on success (`null` unless the content type
   * is JSON); on failure an error carrying the chosen message, the status and
   * the body, and no `code`.
   */
  function ParseResponse(r: Response): (res: Result<Json>)
    ensures IsJson(r) && r.json.None? ==> res == Err(MalformedJson)
    ensures IsOk(r) && !IsJson(r) ==> res == Ok(JNull)
    ensures IsOk(r) && IsJson(r) && r.json.Some? ==> res == Ok(r.json.value)
    ensures !IsOk(r) && (!IsJson(r) || r.json.Some?) ==>
      res.Err? && res.error.message == FailureMessage(Body(r), r.status)
      && res.error.status == Some(r.status) && res.error.data == Some(Body(r))
      && res.error.code.None? && !res.error.isAuthError
  {
    if IsJson(r) && r.json.None? then Err(MalformedJson)
    else
      var data := Body(r);
      if !IsOk(r) then Err(Failure(FailureMessage(data, r.status), None, Some(r.status), Some(data), false))
      else Ok(data)
  }

  /** A failed response whose body is not JSON gets the generic message and `null` data. */
  lemma NonJsonFailure(r: Response)
    requires !IsOk(r) && !IsJson(r)
    ensures ParseResponse(r) == Err(Failure("Request failed with status " + Decimal(r.status),
                                            None, Some(r.status), Some(JNull), false))
  {
  }

  /** `await fetch(...)` followed by `parseResponse`: a transport rejection passes through unchanged. */
  function Settle(outcome: Result<Response>): Result<Json>
  {
    match outcome
    case Err(e) => Err(e)
    case Ok(resp) => ParseResponse(resp)
  }

  /** Errors that `parseResponse` builds never carry a `code`. */
  lemma ParsedErrorsHaveNoCode(r: Response)
    requires ParseResponse(r).Err?
    ensures ParseResponse(r).error.code.None?
  {
  }

  // ---------------------------------------------------------------------------
  // Endpoint descriptors
  // ---------------------------------------------------------------------------

  /** The five calls of the identity service. */
  datatype Endpoint =
    | RegisterEp(name: string, email: string, password: string)
    | LoginEp(email: string, password: string)
    | MeEp(token: Option<string>)
    | RefreshEp
    | LogoutEp

  /** `${token}` for the token slot: a missing token prints as "undefined". */
  function TokenText(token: Option<string>): string
  {
    match token
    case Some(t) => t
    case None => "undefined"
  }

  /** The request each `*Api` function sends. */
  function Describe(ep: Endpoint): (r: Request)
    ensures r.credentials == "include"
    ensures "Authorization" in r.headers <==> ep.MeEp?
    ensures ep.MeEp? ==> r.verb == "GET" && r.headers["Authorization"] == "Bearer " + TokenText(ep.token)
    ensures !ep.MeEp? ==> r.verb == "POST"
    ensures r.body != NoBody <==> ep.RegisterEp? || ep.LoginEp?
    ensures ep.RegisterEp? ==>
      && r.url == "/api/auth/register" && r.headers == map["Content-Type" := JsonMediaType]
      && r.body == JsonText(JObj(map["name" := JStr(ep.name), "email" := JStr(ep.email), "password" := JStr(ep.password)]))
    ensures ep.LoginEp? ==>
      && r.url == "/api/auth/login" && r.headers == map["Content-Type" := JsonMediaType]
      && r.body == JsonText(JObj(map["email" := JStr(ep.email), "password" := JStr(ep.password)]))
    ensures ep.MeEp? ==> r.url == "/api/auth/me" && r.headers.Keys == {"Authorization"}
    ensures ep.RefreshEp? ==> r.url == "/api/auth/refresh" && r.headers == map[]
    ensures ep.LogoutEp? ==> r.url == "/api/auth/logout" && r.headers == map[]
  {
    match ep
    case RegisterEp(name, email, password) =>
      Request("POST", "/api/auth/register", map["Content-Type" := JsonMediaType],
              JsonText(JObj(map["name" := JStr(name), "email" := JStr(email), "password" := JStr(password)])),
              "include")
    case LoginEp(email, password) =>
      Request("POST", "/api/auth/login", map["Content-Type" := JsonMediaType],
              JsonText(JObj(map["email" := JStr(email), "password" := JStr(password)])),
              "include")
    case MeEp(token) =>
      Request("GET", "/api/auth/me", map["Authorization" := "Bearer " + TokenText(token)], NoBody, "include")
    case RefreshEp =>
      Request("POST", "/api/auth/refresh", map[], NoBody, "include")
    case LogoutEp =>
      Request("POST", "/api/auth/logout", map[], NoBody, "include")
  }

  /** Calls one endpoint: sends its request and normalises the answer. */
  method CallApi(net: Network, ep: Endpoint) returns (r: Result<Json>)
    modifies net
    ensures net.sent == old(net.sent) + [Describe(ep)]
    ensures r == Settle(net.respond(net.sent))
  {
    var outcome := net.Fetch(Describe(ep));
    r := Settle(outcome);
  }

  // ---------------------------------------------------------------------------
  // fetchWithAuth
  // ---------------------------------------------------------------------------

  /** The caller's fetch options that `fetchWithAuth` passes on. */
  datatype RequestOptions = RequestOptions(verb: Option<string>, headers: map<string, string>, body: Payload)

  /**
   * `makeRequest(token)`: the caller's request with a default JSON content
   * type that caller headers override, a bearer header that overrides any
   * caller header of that name, and credentials always included.
   */
  function MakeRequest(url: string, opts: RequestOptions, token: string): (r: Request)
    ensures r.url == url && r.body == opts.body && r.verb == opts.verb.GetOr("GET")
    ensures r.credentials == "include"
    ensures r.headers.Keys == opts.headers.Keys + {"Content-Type", "Authorization"}
    ensures r.headers["Authorization"] == "Bearer " + token
    ensures r.headers["Content-Type"] ==
      if "Content-Type" in opts.headers then opts.headers["Content-Type"] else JsonMediaType
    ensures forall k :: k in opts.headers && k != "Authorization" ==> r.headers[k] == opts.headers[k]
  {
    var headers := map["Content-Type" := JsonMediaType] + opts.headers + map["Authorization" := "Bearer " + token];
    Request(opts.verb.GetOr("GET"), url, headers, opts.body, "include")
  }

  /** The error a caller gets when the session cannot be renewed. */
  const SessionExpired: Failure := Failure("Session expired. Please login again.", None, Some(401), None, true)

  /** `refreshed?.accessToken` when it is a non-empty string. */
  function NewToken(refreshed: Json): (t: Option<string>)
    ensures t.Some? <==> Get(refreshed, "accessToken").JStr? && Get(refreshed, "accessToken").s != ""
    ensures t.Some? ==> Get(refreshed, "accessToken") == JStr(t.value)
  {
    var v := Get(refreshed, "accessToken");
    if v.JStr? && Truthy(v) then Some(v.s) else None
  }

  /** What one `fetchWithAuth` call does: its result, the token handed to `onNewAccessToken`, the requests sent. */
  datatype Exchange = Exchange(result: Result<Json>, renewed: Option<string>, sent: seq<Request>)

  /**
   * The refresh-once state machine of `fetchWithAuth`, as a function of what
   * the network answers after the requests `history`: first request; on a
   * 401 one refresh; on a refreshed token one retry.
   */
  function Plan(respond: Responder, history: seq<Request>, url: string, opts: RequestOptions, token: string): Exchange
  {
    var q1 := MakeRequest(url, opts, token);
    var o1 := respond(history + [q1]);
    if o1.Err? then Exchange(Err(o1.error), None, [q1])
    else if o1.value.status != 401 then Exchange(ParseResponse(o1.value), None, [q1])
    else
      var q2 := Describe(RefreshEp);
      var refreshed := Settle(respond(history + [q1, q2]));
      if refreshed.Err? then Exchange(Err(SessionExpired), None, [q1, q2])
      else match NewToken(refreshed.value)
        case None => Exchange(ParseResponse(o1.value), None, [q1, q2])
        case Some(t) =>
          var q3 := MakeRequest(url, opts, t);
          var o3 := respond(history + [q1, q2, q3]);
          Exchange(if o3.Err? then Err(SessionExpired) else ParseResponse(o3.value), Some(t), [q1, q2, q3])
  }

  /**
   * `fetchWithAuth(url, { accessToken, onNewAccessToken, ...options })`.
   * `renewed` is the token passed to `onNewAccessToken`, if it was called.
   */
  method FetchWithAuth(net: Network, url: string, opts: RequestOptions, token: string)
    returns (r: Result<Json>, renewed: Option<string>)
    modifies net
    ensures var x := Plan(net.respond, old(net.sent), url, opts, token);
      r == x.result && renewed == x.renewed && net.sent == old(net.sent) + x.sent
  {
    ghost var history := net.sent;
    renewed := None;
    var res := net.Fetch(MakeRequest(url, opts, token));
    if res.Err? {
      r := Err(res.error);
      return;
    }
    var response := res.value;
    if response.status == 401 {
      var refreshed := CallApi(net, RefreshEp);
      assert net.sent == history + [MakeRequest(url, opts, token), Describe(RefreshEp)];
      if refreshed.Err? {
        r := Err(SessionExpired);
        return;
      }
      var t := NewToken(refreshed.value);
      if t.Some? {
        renewed := t;
        var retry := net.Fetch(MakeRequest(url, opts, t.value));
        assert net.sent == history + [MakeRequest(url, opts, token), Describe(RefreshEp), MakeRequest(url, opts, t.value)];
        if retry.Err? {
          r := Err(SessionExpired);
          return;
        }
        response := retry.value;
      }
    }
    r := ParseResponse(response);
  }

  // ---------------------------------------------------------------------------
  // Properties of the refresh-once machine
  // ---------------------------------------------------------------------------

  /** The refresh request is never a bearer request, so it cannot be confused with the caller's. */
  lemma RefreshIsNotBearer(url: string, opts: RequestOptions, token: string)
    ensures MakeRequest(url, opts, token) != Describe(RefreshEp)
  {
    assert "Authorization" in MakeRequest(url, opts, token).headers;
  }

  /** Number of refresh requests in a request list. */
  function Refreshes(qs: seq<Request>): nat
  {
    multiset(qs)[Describe(RefreshEp)]
  }

  /**
   * At most three requests: the first carries the caller's token, the
   * second (if any) is the single refresh, the third (if any) is the single
   * retry, and a refresh happens exactly when the first answer was a 401.
   */
  lemma PlanIsBounded(respond: Responder, history: seq<Request>, url: string, opts: RequestOptions, token: string)
    ensures var x := Plan(respond, history, url, opts, token);
      && 1 <= |x.sent| <= 3
      && x.sent[0] == MakeRequest(url, opts, token)
      && (|x.sent| >= 2 ==> x.sent[1] == Describe(RefreshEp))
      && Refreshes(x.sent) <= 1
      && |x.sent| - Refreshes(x.sent) <= 2
      && (Refreshes(x.sent) == 1 <==> (var o1 := respond(history + [x.sent[0]]); o1.Ok? && o1.value.status == 401))
  {
    var x := Plan(respond, history, url, opts, token);
    var q1 := MakeRequest(url, opts, token);
    var q2 := Describe(RefreshEp);
    RefreshIsNotBearer(url, opts, token);
    var o1 := respond(history + [q1]);
    if o1.Ok? && o1.value.status == 401 {
      if |x.sent| == 3 {
        var q3 := x.sent[2];
        RefreshIsNotBearer(url, opts, x.renewed.value);
        assert x.sent == [q1, q2, q3];
        assert multiset(x.sent) == multiset{q1, q2, q3};
      } else {
        assert x.sent == [q1, q2];
        assert multiset(x.sent) == multiset{q1, q2};
      }
    } else {
      assert x.sent == [q1];
    }
  }

  /** Without a 401 there is no refresh: one request, and its answer is the result. */
  lemma PlanWithout401(respond: Responder, history: seq<Request>, url: string, opts: RequestOptions, token: string)
    requires var o1 := respond(history + [MakeRequest(url, opts, token)]); o1.Err? || o1.value.status != 401
    ensures var x := Plan(respond, history, url, opts, token);
      && x.sent == [MakeRequest(url, opts, token)]
      && x.renewed.None?
      && x.result == Settle(respond(history + [MakeRequest(url, opts, token)]))
  {
  }

  /**
   * The callback gets a token exactly when a retry is sent, and the retry
   * carries that token.
   */
  lemma PlanRetryCarriesNewToken(respond: Responder, history: seq<Request>, url: string, opts: RequestOptions, token: string)
    ensures var x := Plan(respond, history, url, opts, token);
      && (x.renewed.Some? <==> |x.sent| == 3)
      && (x.renewed.Some? ==> x.renewed.value != "" && x.sent[2] == MakeRequest(url, opts, x.renewed.value))
  {
  }

  /**
   * A 401 followed by a refresh that answers a non-empty `accessToken`:
   * the callback gets that token, the request is retried with it, and the
   * caller gets the retried answer (a rejected retry becomes the
   * session-expired error).
   */
  lemma PlanRenewedRetry(respond: Responder, history: seq<Request>, url: string, opts: RequestOptions, token: string, t: string)
    requires var o1 := respond(history + [MakeRequest(url, opts, token)]); o1.Ok? && o1.value.status == 401
    requires var refreshed := Settle(respond(history + [MakeRequest(url, opts, token), Describe(RefreshEp)]));
      refreshed.Ok? && Get(refreshed.value, "accessToken") == JStr(t) && t != ""
    ensures var x := Plan(respond, history, url, opts, token);
      var o3 := respond(history + x.sent);
      && x.renewed == Some(t)
      && x.sent == [MakeRequest(url, opts, token), Describe(RefreshEp), MakeRequest(url, opts, t)]
      && (o3.Ok? ==> x.result == ParseResponse(o3.value))
      && (o3.Err? ==> x.result == Err(SessionExpired))
  {
  }

  /** A failed refresh, or a retry the transport rejects, ends in the session-expired error. */
  lemma PlanSessionExpired(respond: Responder, history: seq<Request>, url: string, opts: RequestOptions, token: string)
    requires var o1 := respond(history + [MakeRequest(url, opts, token)]); o1.Ok? && o1.value.status == 401
    ensures var x := Plan(respond, history, url, opts, token);
      var refreshed := Settle(respond(history + [MakeRequest(url, opts, token), Describe(RefreshEp)]));
      && (refreshed.Err? ==> x.result == Err(SessionExpired) && x.renewed.None?)
      && (|x.sent| == 3 && respond(history + x.sent).Err? ==> x.result == Err(SessionExpired))
      && (x.result == Err(SessionExpired) ==> x.result.error.status == Some(401) && x.result.error.isAuthError)
  {
  }

  /**
   * A 401 on the retry is not refreshed again: it is parsed and fails with
   * status 401 as an ordinary request error.
   */
  lemma PlanRetry401Fails(respond: Responder, history: seq<Request>, url: string, opts: RequestOptions, token: string)
    requires var x := Plan(respond, history, url, opts, token);
      |x.sent| == 3 && (var o3 := respond(history + x.sent); o3.Ok? && o3.value.status == 401)
    ensures var x := Plan(respond, history, url, opts, token);
      && x.result.Err? && !x.result.error.isAuthError
      && (x.result != Err(MalformedJson) ==> x.result.error.status == Some(401))
      && Refreshes(x.sent) == 1
  {
    PlanIsBounded(respond, history, url, opts, token);
  }

  /** A refresh that succeeds without a token neither calls back nor retries: the first 401 is parsed and fails. */
  lemma PlanRefreshWithoutToken(respond: Responder, history: seq<Request>, url: string, opts: RequestOptions, token: string)
    requires var o1 := respond(history + [MakeRequest(url, opts, token)]); o1.Ok? && o1.value.status == 401
    requires var refreshed := Settle(respond(history + [MakeRequest(url, opts, token), Describe(RefreshEp)]));
      refreshed.Ok? && NewToken(refreshed.value).None?
    ensures var x := Plan(respond, history, url, opts, token);
      && x.renewed.None? && |x.sent| == 2
      && x.result == ParseResponse(respond(history + [MakeRequest(url, opts, token)]).value)
      && x.result.Err? && !x.result.error.isAuthError && x.result != Err(SessionExpired)
      && (x.result != Err(MalformedJson) ==> x.result.error.status == Some(401))
  {
  }
}
