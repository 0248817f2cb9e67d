/**
 * The web client `ApiService` of `services/api.ts`: `request` unwraps the
 * response envelope, and the response interceptor answers a 401 by
 * refreshing the session once and retrying, and turns an error envelope into
 * an `Error`.
 *
 * The server is a function from the URL and the number of requests sent
 * before to the response, so it may change its answers as requests go by
 * (a refresh that sets a new cookie, say). Network failures without a
 * response, the redirect to '/login' and the contents of `localStorage` are
 * not modelled; the outcome records whether the client logged out.
 */
module ApiClient {
  import opened Wrappers
  import opened Js
  import Envelope

  datatype Response = Response(status: int, body: Json)

  /** The response to a request for the URL after the given number of earlier requests. */
  type Server = (string, nat) -> Response

  const RefreshUrl: string := "/auth/refresh"
  const DefaultFailure: string := "API request failed"

  /** How a request can fail in the client. */
  datatype ClientError =
    | TypeError                         // a property read on a null response body
    | ApiError(message: Json)           // `new Error(message)`
    | HttpFailure(response: Response)   // the axios error, passed on unchanged

  /** A settled request: its result, the requests sent so far, and whether the client logged out. */
  datatype Outcome = Outcome(result: Result<Json, ClientError>, sent: nat, loggedOut: bool)

  /** axios resolves exactly the 2xx responses. */
  predicate Success(status: int) {
    200 <= status < 300
  }

  /** `request`'s unwrapping of a resolved response body. */
  function Unwrap(body: Json): Result<Json, ClientError> {
    if body.Null? then Err(TypeError)
    else if Truthy(Prop(body, "success")) then Ok(Prop(body, "data"))
    else Err(ApiError(Or(Or(Prop(body, "error"), Prop(body, "message")), Str(DefaultFailure))))
  }

  /** The interceptor's error for a rejected response it does not retry. */
  function MapError(resp: Response): ClientError {
    if Truthy(resp.body) && Prop(resp.body, "success") == Bool(false) then
      ApiError(Or(Or(Prop(resp.body, "message"), Prop(resp.body, "error")), Str(DefaultFailure)))
    else HttpFailure(resp)
  }

  /** `request` after the axios call has settled: a resolved body is unwrapped. */
  function Settle(o: Outcome): Outcome {
    if o.result.Ok? then o.(result := Unwrap(o.result.value)) else o
  }

  /**
   * `request` returns the envelope's data when `success` is truthy and
   * otherwise fails with `error || message || 'API request failed'`; a null
   * body fails on the property read.
   */
  lemma UnwrapCases(body: Json)
    ensures body.Null? ==> Unwrap(body) == Err(TypeError)
    ensures !body.Null? && Truthy(Prop(body, "success")) ==> Unwrap(body) == Ok(Prop(body, "data"))
    ensures !body.Null? && !Truthy(Prop(body, "success")) ==>
      Unwrap(body).Err? && Unwrap(body).error.ApiError? && Truthy(Unwrap(body).error.message) &&
      (Truthy(Prop(body, "error")) ==> Unwrap(body).error.message == Prop(body, "error")) &&
      (!Truthy(Prop(body, "error")) && Truthy(Prop(body, "message")) ==> Unwrap(body).error.message == Prop(body, "message")) &&
      (!Truthy(Prop(body, "error")) && !Truthy(Prop(body, "message")) ==> Unwrap(body).error.message == Str(DefaultFailure))
  {
  }

  /**
   * The round trip: data that is not already an envelope, wrapped by the
   * server below status 400 and unwrapped by the client, comes back unchanged.
   */
  lemma UnwrapWrap(data: Json, status: int)
    requires !Envelope.AlreadyWrapped(data) && status < 400
    ensures Envelope.Wrap(data, status).Ok?
    ensures Unwrap(Envelope.Wrap(data, status).value) == Ok(data)
  {
  }

  /**
   * An error envelope is reported by both client paths with a message, but
   * not the same one: `request` prefers data.error and the interceptor
   * prefers data.message, so when both are set and differ the same envelope
   * yields two different texts.
   */
  lemma ErrorEnvelopeMessages(data: Json, status: int)
    requires !Envelope.AlreadyWrapped(data) && status >= 400 && !data.Null?
    ensures Envelope.Wrap(data, status).Ok?
    ensures var body := Envelope.Wrap(data, status).value;
      Unwrap(body) == Err(ApiError(Or(Or(Prop(data, "error"), Prop(data, "message")), Str(Envelope.DefaultError)))) &&
      MapError(Response(status, body)) == ApiError(Or(Or(Prop(data, "message"), Prop(data, "error")), Str(Envelope.DefaultError)))
    ensures Truthy(Prop(data, "error")) && Truthy(Prop(data, "message")) && Prop(data, "error") != Prop(data, "message") ==>
      var body := Envelope.Wrap(data, status).value;
      Unwrap(body).error.message != MapError(Response(status, body)).message
  {
  }

  // ---------------------------------------------------------------------
  // The interceptor as written
  // ---------------------------------------------------------------------

  /**
   * `this.api(config)` with the response interceptor, as written; `retried`
   * is the config's `_retry` flag. The refresh in the 401 branch is an
   * ordinary `post`, so its own 401 enters the same branch. The chain of
   * requests this can start has no bound, so the model runs on fuel and
   * `None` means the fuel ran out before the call settled.
   */
  function Call(server: Server, url: string, retried: bool, sent: nat, fuel: nat): Option<Outcome>
    decreases fuel, 0
  {
    if fuel == 0 then None
    else
      var resp := server(url, sent);
      if Success(resp.status) then Some(Outcome(Ok(resp.body), sent + 1, false))
      else if resp.status == 401 && !retried then
        match Request(server, RefreshUrl, sent + 1, fuel - 1)
        case None => None
        case Some(refresh) =>
          if refresh.result.Ok? then Call(server, url, true, refresh.sent, fuel - 1)
          else Some(Outcome(refresh.result, refresh.sent, true))
      else Some(Outcome(Err(MapError(resp)), sent + 1, false))
  }

  /** `request`, as written: a fresh config, then the unwrapping. */
  function Request(server: Server, url: string, sent: nat, fuel: nat): Option<Outcome>
    decreases fuel, 1
  {
    match Call(server, url, false, sent, fuel)
    case None => None
    case Some(o) => Some(Settle(o))
  }

  /**
   * When the refresh endpoint answers 401 (no refresh cookie, or a revoked
   * one), every refresh asks for another refresh: no fuel is enough for the
   * refresh request to settle, at any point of the conversation.
   */
  lemma {:induction false} RefreshOf401NeverSettles(server: Server, sent: nat, fuel: nat)
    requires forall n: nat :: server(RefreshUrl, n).status == 401
    ensures Call(server, RefreshUrl, false, sent, fuel) == None
    decreases fuel
  {
    if fuel > 0 {
      RefreshOf401NeverSettles(server, sent + 1, fuel - 1);
    }
  }

  /**
   * So a request answered 401 while the refresh endpoint answers 401 never
   * settles either: the client neither fails the request nor logs out.
   */
  lemma AsWrittenNeverSettles(server: Server, url: string, sent: nat, fuel: nat)
    requires forall n: nat :: server(RefreshUrl, n).status == 401
    requires server(url, sent).status == 401
    ensures Call(server, url, false, sent, fuel) == None
  {
    if fuel > 0 {
      RefreshOf401NeverSettles(server, sent + 1, fuel - 1);
    }
  }

  // ---------------------------------------------------------------------
  // The interceptor with the refresh request exempt from refreshing
  // ---------------------------------------------------------------------

  /**
   * The interceptor with the evidently intended rule: a 401 is answered by a
   * refresh and one retry, except for the refresh request itself, whose 401
   * fails it. At most three requests are sent: the request, one refresh and
   * one retry.
   */
  function CallFixed(server: Server, url: string, retried: bool, sent: nat): (o: Outcome)
    decreases if retried || url == RefreshUrl then 0 else 1
    ensures sent + 1 <= o.sent <= sent + 3
    ensures !(server(url, sent).status == 401 && !retried && url != RefreshUrl) ==> o.sent == sent + 1 && !o.loggedOut
    ensures o.result.Ok? ==> !o.loggedOut
  {
    var resp := server(url, sent);
    if Success(resp.status) then Outcome(Ok(resp.body), sent + 1, false)
    else if resp.status == 401 && !retried && url != RefreshUrl then
      var refresh := Settle(CallFixed(server, RefreshUrl, false, sent + 1));
      if refresh.result.Ok? then CallFixed(server, url, true, refresh.sent)
      else Outcome(refresh.result, refresh.sent, true)
    else Outcome(Err(MapError(resp)), sent + 1, false)
  }

  /** `request` over the corrected interceptor. */
  function RequestFixed(server: Server, url: string, sent: nat): Outcome {
    Settle(CallFixed(server, url, false, sent))
  }

  /**
   * Against the same always-401 server, the corrected client fails the
   * request after exactly two requests with the refresh's error, and logs out.
   */
  lemma FixedSettlesOn401(server: Server, url: string, sent: nat)
    requires forall n: nat :: server(RefreshUrl, n).status == 401
    requires server(url, sent).status == 401 && url != RefreshUrl
    ensures CallFixed(server, url, false, sent) ==
      Outcome(Err(MapError(server(RefreshUrl, sent + 1))), sent + 2, true)
  {
    assert server(RefreshUrl, sent + 1).status == 401;
  }

  /**
   * The one-retry rule: a request is retried only after a refresh that
   * succeeded, and the retry is the last request; a failed refresh fails the
   * request with the refresh's error and logs out.
   */
  lemma FixedRetriesOnce(server: Server, url: string, sent: nat)
    requires server(url, sent).status == 401 && url != RefreshUrl
    ensures var refresh := Settle(CallFixed(server, RefreshUrl, false, sent + 1));
      refresh.sent == sent + 2 &&
      (refresh.result.Ok? ==> CallFixed(server, url, false, sent) == CallFixed(server, url, true, sent + 2) &&
                              CallFixed(server, url, true, sent + 2).sent == sent + 3) &&
      (refresh.result.Err? ==> CallFixed(server, url, false, sent) == Outcome(refresh.result, sent + 2, true))
  {
    var r := CallFixed(server, url, true, sent + 2);
  }

  /**
   * The correction changes nothing unless the refresh endpoint answers 401:
   * with any other answer there, the client as written settles, on fuel for
   * two levels, exactly as the corrected one.
   */
  lemma AgreesUnlessRefreshIs401(server: Server, url: string, retried: bool, sent: nat, fuel: nat)
    requires forall n: nat :: server(RefreshUrl, n).status != 401
    requires fuel >= 2
    ensures Call(server, url, retried, sent, fuel) == Some(CallFixed(server, url, retried, sent))
  {
    var resp := server(url, sent);
    if !Success(resp.status) && resp.status == 401 && !retried {
      assert url != RefreshUrl;
      assert server(RefreshUrl, sent + 1).status != 401;
      var refreshCall := Call(server, RefreshUrl, false, sent + 1, fuel - 1);
      assert refreshCall == Some(CallFixed(server, RefreshUrl, false, sent + 1));
      var refresh := Settle(CallFixed(server, RefreshUrl, false, sent + 1));
      if refresh.result.Ok? {
        var retry := Call(server, url, true, refresh.sent, fuel - 1);
        assert retry == Some(CallFixed(server, url, true, refresh.sent));
      }
    }
  }

  /** The config object of one axios call; the interceptor sets its `_retry` flag. */
  class RequestConfig {
    const url: string
    var retry: bool

    constructor(url: string)
      ensures this.url == url && !retry
    {
      this.url := url;
      retry := false;
    }
  }

  /**
   * The corrected interceptor chain for one config object: a 401 marks the
   * config as retried before refreshing, and the retry reuses the config.
   */
  method Dispatch(server: Server, config: RequestConfig, sent: nat) returns (o: Outcome)
    modifies config
    decreases if config.retry || config.url == RefreshUrl then 0 else 1
    ensures o == CallFixed(server, config.url, old(config.retry), sent)
    ensures config.retry == (old(config.retry) || (server(config.url, sent).status == 401 && config.url != RefreshUrl))
  {
    var resp := server(config.url, sent);
    if Success(resp.status) {
      return Outcome(Ok(resp.body), sent + 1, false);
    }
    if resp.status == 401 && !config.retry && config.url != RefreshUrl {
      config.retry := true;
      var refreshConfig := new RequestConfig(RefreshUrl);
      var refreshCall := Dispatch(server, refreshConfig, sent + 1);
      var refresh := Settle(refreshCall);
      if refresh.result.Ok? {
        o := Dispatch(server, config, refresh.sent);
      } else {
        o := Outcome(refresh.result, refresh.sent, true);
      }
      return;
    }
    o := Outcome(Err(MapError(resp)), sent + 1, false);
  }
}
