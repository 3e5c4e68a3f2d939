/**
 * The request pipeline of `NetworkClient` (NetworkClient.swift): the session
 * and URL guards, the header merge, the single transport call, the
 * classification of the HTTP status and the choice between UTF-8 text and
 * JSON decoding.
 *
 * The transport, URL parsing and the decoders are not modelled; they are the
 * parameters `Session` and `Platform`. A request's observable effects (each
 * transport call, each token refresh) are returned beside its result so that
 * "the network is not touched" and "refresh is never called" can be stated.
 */
module Client {
  import opened Wrappers
  import opened NetworkErrors
  import opened NetworkResults
  import opened HttpMethods

  const ContentTypeKey: string := "Content-Type"
  const JsonContentType: string := "application/json; charset=utf-8"

  /** The fields of a `URLRequest` that the client sets and the curl dump reads. */
  datatype UrlRequest = UrlRequest(
    url: Option<string>,
    httpMethod: Option<string>,
    allHttpHeaderFields: Option<HttpHeaders>,
    httpBody: Option<Bytes>)

  /** The `URLResponse` the session hands back: an HTTP response, or some other kind. */
  datatype UrlResponse = Http(http: HttpResponse) | NonHttp

  /** What `urlSession.data(for:)` does: throw, or return the body and a response. */
  datatype TransportOutcome = Thrown(error: Error) | Received(data: Bytes, response: UrlResponse)

  /** The URL session, reduced to the answer it gives to each request. */
  datatype Session = Session(data: UrlRequest -> TransportOutcome)

  /**
   * A `NetworkAuthHandler`: the pair `getAuthHeader()` returns, and what
   * `refreshToken()` would do (store a new token value, or throw).
   */
  datatype AuthHandler = AuthHandler(authKey: string, authValue: string, refreshToken: Result<string, Error>)

  /** Foundation services used by the client: `URL(string:)`, lossy UTF-8 decoding, `JSONDecoder`. */
  datatype Platform<V> = Platform(
    isValidUrl: string -> bool,
    decodeUtf8: Bytes -> string,
    decodeJson: (string, Bytes) -> Result<V, Error>)

  /** The arguments of `NetworkClient.request`. */
  datatype Call = Call(
    endpoint: string,
    httpMethod: HttpMethod,
    headers: HttpHeaders,
    body: Option<Bytes>,
    expecting: ResponseType,
    authorized: bool,
    refreshTokenIfNecessary: bool)

  /** An externally visible action of a request. */
  datatype Effect = Transport(request: UrlRequest) | RefreshToken

  /** What a request returns or throws, and the effects it had on the way. */
  datatype Outcome<V> = Outcome(result: Result<NetworkResult<Payload<V>>, Error>, effects: seq<Effect>)

  /**
   * One pass through the body of `request`: either it finishes, or it reaches
   * the self-call of the 401 branch, carrying what the refresh yields and the
   * arguments of the second call.
   */
  datatype Step<V> =
    | Finished(outcome: Outcome<V>)
    | RetryAfterRefresh(refreshed: Result<AuthHandler, Error>, retry: Call, effects: seq<Effect>)

  function EffectsOf<V>(s: Step<V>): seq<Effect>
  {
    match s
    case Finished(o) => o.effects
    case RetryAfterRefresh(_, _, effects) => effects
  }

  /** How many transport calls a list of effects holds. */
  function TransportCount(effects: seq<Effect>): (n: nat)
    ensures n <= |effects|
    ensures n == 0 <==> forall e | e in effects :: !e.Transport?
  {
    if effects == [] then 0
    else (if effects[0].Transport? then 1 else 0) + TransportCount(effects[1..])
  }

  /** The auth header is applied only to an authorized call on a client with an auth handler. */
  predicate AuthApplies(authorized: bool, authHandler: Option<AuthHandler>)
  {
    authorized && authHandler.Some?
  }

  /** The header keys a merge produces. */
  function MergedKeys(headers: HttpHeaders, authorized: bool, authHandler: Option<AuthHandler>): set<string>
  {
    {ContentTypeKey} + headers.Keys
      + (if AuthApplies(authorized, authHandler) then {authHandler.value.authKey} else {})
  }

  /**
   * The headers of an outgoing request: the JSON content type, overlaid by
   * the caller's headers, overlaid by the auth header when it applies.
   */
  function MergedHeaders(headers: HttpHeaders, authorized: bool, authHandler: Option<AuthHandler>): (r: HttpHeaders)
    ensures r.Keys == MergedKeys(headers, authorized, authHandler)
    ensures AuthApplies(authorized, authHandler) ==> r[authHandler.value.authKey] == authHandler.value.authValue
    ensures forall k :: k in headers && !(AuthApplies(authorized, authHandler) && k == authHandler.value.authKey) ==>
                          r[k] == headers[k]
    ensures ContentTypeKey !in headers && !(AuthApplies(authorized, authHandler) && authHandler.value.authKey == ContentTypeKey) ==>
              r[ContentTypeKey] == JsonContentType
  {
    var base := map[ContentTypeKey := JsonContentType] + headers;
    if authorized && authHandler.Some? then base[authHandler.value.authKey := authHandler.value.authValue]
    else base
  }

  /** The caller's headers with the keys in `pending` not yet copied. */
  function CopiedSoFar(headers: HttpHeaders, pending: set<string>): HttpHeaders
  {
    map k | k in headers.Keys - pending :: headers[k]
  }

  /** The `2xx` band the client accepts. */
  predicate InSuccessBand(status: int)
  {
    200 <= status <= 299
  }

  /** The handler after a `refreshToken()` call: its new token, or the error the refresh threw. */
  function Refreshed(h: AuthHandler): (r: Result<AuthHandler, Error>)
    ensures r.Success? <==> h.refreshToken.Success?
    ensures r.Success? ==> r.value.authKey == h.authKey && r.value.authValue == h.refreshToken.value
    ensures r.Failure? ==> r.error == h.refreshToken.error
  {
    match h.refreshToken
    case Success(token) => Success(h.(authValue := token))
    case Failure(e) => Failure(e)
  }

  /**
   * Decoding a 2xx body: text for `String` (an empty body is the empty
   * string), the JSON decoder's value or error for any other type.
   */
  function Decode<V>(platform: Platform<V>, expecting: ResponseType, status: int, data: Bytes)
    : (r: Result<NetworkResult<Payload<V>>, Error>)
    ensures r.Success? ==> r.value.statusCode == status
    ensures expecting.StringType? ==> r.Success? && r.value.data.Text?
    ensures expecting.StringType? && |data| == 0 ==> r.value.data.text == ""
    ensures expecting.StringType? && |data| > 0 ==> r.value.data.text == platform.decodeUtf8(data)
    ensures expecting.DecodableType? ==>
              (r.Success? <==> platform.decodeJson(expecting.name, data).Success?)
    ensures expecting.DecodableType? && r.Success? ==>
              r.value.data == Decoded(platform.decodeJson(expecting.name, data).value)
    ensures expecting.DecodableType? && r.Failure? ==>
              r.error == platform.decodeJson(expecting.name, data).error
  {
    match expecting
    case StringType =>
      var text := if |data| == 0 then "" else platform.decodeUtf8(data);
      Success(NetworkResult(status, Text(text)))
    case DecodableType(name) =>
      match platform.decodeJson(name, data)
      case Success(value) => Success(NetworkResult(status, Decoded(value)))
      case Failure(e) => Failure(e)
  }

  /**
   * A `NetworkClient`. None of the modelled operations updates its fields;
   * `urlSession` is a weak reference, so it may be gone (`None`).
   */
  datatype NetworkClient = NetworkClient(
    baseUrl: string,
    isLoggingEnabled: bool,
    session: Option<Session>,
    authHandler: Option<AuthHandler>)
  {
    /**
     * `processHeaders`: start from the JSON content type, copy every caller
     * header over it, then stamp the auth header when authorized.
     */
    method ProcessHeaders(headers: HttpHeaders, authorized: bool) returns (requestHeaders: HttpHeaders)
      ensures requestHeaders == MergedHeaders(headers, authorized, authHandler)
    {
      requestHeaders := map[ContentTypeKey := JsonContentType];
      var pending := headers.Keys;
      while pending != {}
        invariant pending <= headers.Keys
        invariant requestHeaders == map[ContentTypeKey := JsonContentType] + CopiedSoFar(headers, pending)
        decreases pending
      {
        var key :| key in pending;
        requestHeaders := requestHeaders[key := headers[key]];
        pending := pending - {key};
        assert CopiedSoFar(headers, pending) == CopiedSoFar(headers, pending + {key})[key := headers[key]];
      }
      assert CopiedSoFar(headers, {}) == headers;
      if authorized {
        match authHandler
        case Some(h) =>
          requestHeaders := requestHeaders[h.authKey := h.authValue];
        case None =>
      }
    }

    /** The `URLRequest` built for a call: URL, method's raw value, merged headers, body. */
    function RequestFor(c: Call): (r: UrlRequest)
      ensures r.url == Some(baseUrl + c.endpoint)
      ensures r.httpMethod.Some? && FromRawValue(r.httpMethod.value) == Some(c.httpMethod)
      ensures r.allHttpHeaderFields == Some(MergedHeaders(c.headers, c.authorized, authHandler))
      ensures ContentTypeKey in r.allHttpHeaderFields.value
      ensures r.httpBody == c.body
    {
      RawValueRoundTrip(c.httpMethod);
      UrlRequest(Some(baseUrl + c.endpoint), Some(RawValue(c.httpMethod)),
                 Some(MergedHeaders(c.headers, c.authorized, authHandler)), c.body)
    }

    /** The session's answer to the request built for `c`. */
    function Reply(c: Call): TransportOutcome
      requires session.Some?
    {
      session.value.data(RequestFor(c))
    }

    /**
     * One pass through `request`, in the source's order: session guard, URL
     * guard, header merge, transport call, response kind, 2xx guard, the 401
     * branch, then decoding.
     */
    function Attempt<V>(platform: Platform<V>, c: Call): (s: Step<V>)
      ensures s.Finished?
      ensures session.None? ==> s.outcome == Outcome(Failure(Network(InvalidSession)), [])
      ensures session.Some? && !platform.isValidUrl(baseUrl + c.endpoint) ==>
                s.outcome == Outcome(Failure(Network(InvalidURL)), [])
      ensures session.Some? && platform.isValidUrl(baseUrl + c.endpoint) ==>
                && s.outcome.effects == [Transport(RequestFor(c))]
                && (Reply(c).Thrown? ==> s.outcome.result == Failure(Reply(c).error))
                && (Reply(c).Received? && Reply(c).response.NonHttp? ==>
                      s.outcome.result == Failure(Network(InvalidResponse)))
                && (Reply(c).Received? && Reply(c).response.Http? ==>
                      s.outcome.result
                        == if InSuccessBand(Reply(c).response.http.statusCode)
                           then Decode(platform, c.expecting, Reply(c).response.http.statusCode, Reply(c).data)
                           else Failure(Network(Fail(Reply(c).data, Reply(c).response.http))))
    {
      match session
      case None => Finished(Outcome(Failure(Network(InvalidSession)), []))
      case Some(urlSession) =>
        if !platform.isValidUrl(baseUrl + c.endpoint) then
          Finished(Outcome(Failure(Network(InvalidURL)), []))
        else
          var request := RequestFor(c);
          var sent := [Transport(request)];
          match urlSession.data(request)
          case Thrown(e) => Finished(Outcome(Failure(e), sent))
          case Received(_, NonHttp) => Finished(Outcome(Failure(Network(InvalidResponse)), sent))
          case Received(data, Http(httpResponse)) =>
            if !(httpResponse.statusCode >= 200 && httpResponse.statusCode <= 299) then
              Finished(Outcome(Failure(Network(Fail(data, httpResponse))), sent))
            else if httpResponse.statusCode == 401 && c.authorized then
              if c.refreshTokenIfNecessary then
                match authHandler
                case Some(h) =>
                  RetryAfterRefresh(Refreshed(h), c.(body := Some(data), refreshTokenIfNecessary := false), sent)
                case None => Finished(Outcome(Failure(Network(FailedToRefreshToken)), sent))
              else
                Finished(Outcome(Failure(Network(FailedToRefreshToken)), sent))
            else
              Finished(Outcome(Decode(platform, c.expecting, httpResponse.statusCode, data), sent))
    }

    /**
     * `request`: one pass, and, when the pass reaches the 401 branch, the
     * token refresh followed by the self-call with refreshing switched off.
     */
    function Request<V>(platform: Platform<V>, c: Call): (o: Outcome<V>)
      ensures session.None? ==> o == Outcome(Failure(Network(InvalidSession)), [])
      ensures session.Some? && !platform.isValidUrl(baseUrl + c.endpoint) ==>
                o == Outcome(Failure(Network(InvalidURL)), [])
      ensures session.Some? && platform.isValidUrl(baseUrl + c.endpoint) ==>
                o.effects == [Transport(RequestFor(c))]
      ensures RefreshToken !in o.effects
      ensures o.result.Success? ==>
                session.Some? && Reply(c).Received? && Reply(c).response.Http?
                && o.result.value.statusCode == Reply(c).response.http.statusCode
                && InSuccessBand(o.result.value.statusCode)
    {
      match Attempt(platform, c)
      case Finished(o) => o
      case RetryAfterRefresh(refreshed, retry, sent) =>
        match refreshed
        case Failure(e) => Outcome(Failure(e), sent + [RefreshToken])
        case Success(h) =>
          match this.(authHandler := Some(h)).Attempt(platform, retry)
          case Finished(o) => Outcome(o.result, sent + [RefreshToken] + o.effects)
          case RetryAfterRefresh(_, _, _) => assert false; Outcome(Failure(Network(FailedToRefreshToken)), sent)
    }
  }

  /**
   * The 401 branch is dead: a 401 status fails the 2xx guard first, so no
   * pass of `request` ever reaches the refresh-and-retry self-call.
   */
  lemma RefreshBranchUnreachable<V>(client: NetworkClient, platform: Platform<V>, c: Call)
    ensures client.Attempt(platform, c).Finished?
    ensures client.Request(platform, c) == client.Attempt(platform, c).outcome
  {
  }

  /** The transport is called at most once per `request`, and never when a guard fails. */
  lemma AtMostOneTransportCall<V>(client: NetworkClient, platform: Platform<V>, c: Call)
    ensures TransportCount(client.Request(platform, c).effects) <= 1
    ensures (TransportCount(client.Request(platform, c).effects) == 1) <==>
              client.session.Some? && platform.isValidUrl(client.baseUrl + c.endpoint)
  {
  }


  /** Every status outside `200...299` fails with the raw body and the response, 401 included. */
  lemma NonSuccessStatusFails<V>(client: NetworkClient, platform: Platform<V>, c: Call)
    requires client.session.Some? && platform.isValidUrl(client.baseUrl + c.endpoint)
    requires client.Reply(c).Received? && client.Reply(c).response.Http?
    requires !InSuccessBand(client.Reply(c).response.http.statusCode)
    ensures client.Request(platform, c).result
              == Failure(Network(Fail(client.Reply(c).data, client.Reply(c).response.http)))
  {
  }

  /**
   * A 401 on an authorized call, with refreshing on and an auth handler
   * present, still fails as a plain HTTP failure: no refresh, one transport call.
   */
  lemma UnauthorizedIsPlainFailure<V>(client: NetworkClient, platform: Platform<V>, c: Call)
    requires client.session.Some? && platform.isValidUrl(client.baseUrl + c.endpoint)
    requires c.authorized && c.refreshTokenIfNecessary && client.authHandler.Some?
    requires client.Reply(c).Received? && client.Reply(c).response.Http?
    requires client.Reply(c).response.http.statusCode == 401
    ensures client.Request(platform, c)
              == Outcome(Failure(Network(Fail(client.Reply(c).data, client.Reply(c).response.http))),
                         [Transport(client.RequestFor(c))])
  {
  }

  /** The session's error and a non-HTTP response are reported as the source reports them. */
  lemma TransportFailures<V>(client: NetworkClient, platform: Platform<V>, c: Call)
    requires client.session.Some? && platform.isValidUrl(client.baseUrl + c.endpoint)
    ensures client.Reply(c).Thrown? ==> client.Request(platform, c).result == Failure(client.Reply(c).error)
    ensures client.Reply(c).Received? && client.Reply(c).response.NonHttp? ==>
              client.Request(platform, c).result == Failure(Network(InvalidResponse))
  {
  }

  /** A 2xx body is decoded as the expected type asks: text for `String`, JSON otherwise. */
  lemma SuccessIsDecoded<V>(client: NetworkClient, platform: Platform<V>, c: Call)
    requires client.session.Some? && platform.isValidUrl(client.baseUrl + c.endpoint)
    requires client.Reply(c).Received? && client.Reply(c).response.Http?
    requires InSuccessBand(client.Reply(c).response.http.statusCode)
    ensures client.Request(platform, c).result
              == Decode(platform, c.expecting, client.Reply(c).response.http.statusCode, client.Reply(c).data)
  {
  }
}
