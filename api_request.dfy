/**
 * The execution of a typed API request (ApiRequest.swift and
 * ApiRequest+Extension.swift): the short-circuit hook, the environment
 * switch, the body choice and the single forwarded call to a network client.
 *
 * The network client is a parameter (any `NetworkClientProtocol`); the calls
 * made to it are returned beside the result.
 */
module ApiRequests {
  import opened Wrappers
  import opened NetworkErrors
  import opened NetworkResults
  import opened ApiEnvironments
  import opened HttpMethods
  import opened Client

  /** What `response(for:networkClient:)` yields: a canned result, nothing, or an error. */
  type HookResult<V> = Result<Option<NetworkResult<Payload<V>>>, Error>

  /**
   * An `ApiRequest`: its endpoint, method, headers, authorization flag and
   * response type, what `JSONEncoder().encode(self)` gives for it, and its
   * short-circuit hook.
   */
  datatype ApiRequest<V> = ApiRequest(
    endpoint: string,
    httpMethod: HttpMethod,
    headers: HttpHeaders,
    requiresAuthorization: bool,
    responseType: ResponseType,
    encoded: Result<Bytes, Error>,
    response: ApiEnvironment -> HookResult<V>)

  /** The default `response(for:networkClient:)`: no canned result. */
  function NoCannedResponse<V>(environment: ApiEnvironment): (r: HookResult<V>)
    ensures r.Success? && r.value.None?
  {
    Success(None)
  }

  /**
   * A request that keeps the protocol extension's defaults: no authorization,
   * no headers, and the hook that returns nothing.
   */
  function WithDefaults<V>(endpoint: string, httpMethod: HttpMethod, responseType: ResponseType, encoded: Result<Bytes, Error>)
    : (r: ApiRequest<V>)
    ensures !r.requiresAuthorization && r.headers == map[]
    ensures forall environment :: r.response(environment) == Success(None)
    ensures r.endpoint == endpoint && r.httpMethod == httpMethod && r.responseType == responseType && r.encoded == encoded
  {
    ApiRequest(endpoint, httpMethod, map[], false, responseType, encoded, NoCannedResponse)
  }

  /** What `request(networkClient:environment:)` returns or throws, and the client calls it made. */
  datatype Dispatched<V> = Dispatched(result: Result<NetworkResult<Payload<V>>, Error>, calls: seq<Call>)

  /** The body sent: none for GET, the request's JSON encoding (or its error) otherwise. */
  function BodyFor<V>(request: ApiRequest<V>): (r: Result<Option<Bytes>, Error>)
    ensures request.httpMethod == Get ==> r == Success(None)
    ensures request.httpMethod != Get ==> (r.Success? <==> request.encoded.Success?)
    ensures request.httpMethod != Get && r.Success? ==> r.value == Some(request.encoded.value)
    ensures request.httpMethod != Get && r.Failure? ==> r.error == request.encoded.error
  {
    if request.httpMethod == Get then Success(None)
    else
      match request.encoded
      case Success(data) => Success(Some(data))
      case Failure(e) => Failure(e)
  }

  /** The arguments forwarded to the network client for a given body. */
  function ClientCallFor<V>(request: ApiRequest<V>, body: Option<Bytes>): (c: Call)
    ensures c.endpoint == "/" + request.endpoint && c.body == body
    ensures c.httpMethod == request.httpMethod && c.headers == request.headers && c.expecting == request.responseType
    ensures c.authorized == request.requiresAuthorization && c.refreshTokenIfNecessary
  {
    Call("/" + request.endpoint, request.httpMethod, request.headers, body,
         request.responseType, request.requiresAuthorization, true)
  }

  /** True when neither the hook nor the environment settles the call before the network. */
  predicate GoesLive<V>(request: ApiRequest<V>, environment: ApiEnvironment)
  {
    request.response(environment) == Success(None) && environment.Live?
  }

  /**
   * `request(networkClient:environment:)`: the hook's answer wins; otherwise
   * the environment decides, and only `live` reaches the client, once.
   */
  function Execute<V>(request: ApiRequest<V>, environment: ApiEnvironment,
                      client: Call -> Result<NetworkResult<Payload<V>>, Error>): (d: Dispatched<V>)
    ensures |d.calls| <= 1
    ensures request.response(environment).Failure? ==> d == Dispatched(Failure(request.response(environment).error), [])
    ensures request.response(environment).Success? && request.response(environment).value.Some? ==>
              d == Dispatched(Success(request.response(environment).value.value), [])
    ensures request.response(environment) == Success(None) ==>
              && (environment.Failing? ==> d == Dispatched(Failure(Network(InvalidData)), []))
              && (environment.Throwing? ==> d == Dispatched(Failure(environment.error), []))
              && (environment.Mock? ==> d == Dispatched(Failure(Network(InvalidResponse)), []))
    ensures (d.calls != []) <==> GoesLive(request, environment) && BodyFor(request).Success?
    ensures GoesLive(request, environment) && BodyFor(request).Failure? ==>
              d == Dispatched(Failure(request.encoded.error), [])
    ensures forall c | c in d.calls :: c == ClientCallFor(request, BodyFor(request).value)
    ensures forall c | c in d.calls :: (c.body.None? <==> request.httpMethod == Get)
    ensures d.calls != [] ==> d.result == client(d.calls[0])
  {
    match request.response(environment)
    case Failure(e) => Dispatched(Failure(e), [])
    case Success(Some(canned)) => Dispatched(Success(canned), [])
    case Success(None) =>
      match environment
      case Failing => Dispatched(Failure(Network(InvalidData)), [])
      case Throwing(e) => Dispatched(Failure(e), [])
      case Mock => Dispatched(Failure(Network(InvalidResponse)), [])
      case Live =>
        match BodyFor(request)
        case Failure(e) => Dispatched(Failure(e), [])
        case Success(body) =>
          var c := ClientCallFor(request, body);
          Dispatched(client(c), [c])
  }

  /** `throwing(e)` with no canned result fails with exactly `e` and never reaches the client. */
  lemma ThrowingRethrows<V>(request: ApiRequest<V>, e: Error, client: Call -> Result<NetworkResult<Payload<V>>, Error>)
    requires request.response(Throwing(e)) == Success(None)
    ensures Execute(request, Throwing(e), client) == Dispatched(Failure(e), [])
  {
  }

  /** A request with the default hook never short-circuits, whatever the environment. */
  lemma DefaultHookNeverShortCircuits<V>(endpoint: string, httpMethod: HttpMethod, responseType: ResponseType,
                                         encoded: Result<Bytes, Error>, environment: ApiEnvironment,
                                         client: Call -> Result<NetworkResult<Payload<V>>, Error>)
    ensures var request := WithDefaults<V>(endpoint, httpMethod, responseType, encoded);
            var d := Execute(request, environment, client);
            (d.calls != [] <==> environment.Live? && (httpMethod == Get || encoded.Success?))
            && (d.calls != [] ==> !d.calls[0].authorized && d.calls[0].headers == map[])
  {
  }

  /**
   * Dispatching live through a `NetworkClient`: the result is the client's,
   * and when its guards pass the transport sees exactly one request, to
   * `baseUrl + "/" + endpoint`, with the request's method, the merged headers
   * and the body chosen by method.
   */
  lemma LiveThroughNetworkClient<V>(request: ApiRequest<V>, networkClient: NetworkClient, platform: Platform<V>)
    requires GoesLive(request, Live) && BodyFor(request).Success?
    ensures var body := BodyFor(request).value;
            var c := ClientCallFor(request, body);
            && Execute(request, Live, (c': Call) => networkClient.Request(platform, c').result).result
                 == networkClient.Request(platform, c).result
            && (networkClient.session.Some? && platform.isValidUrl(networkClient.baseUrl + "/" + request.endpoint) ==>
                  networkClient.Request(platform, c).effects
                    == [Transport(UrlRequest(
                          Some(networkClient.baseUrl + "/" + request.endpoint),
                          Some(RawValue(request.httpMethod)),
                          Some(MergedHeaders(request.headers, request.requiresAuthorization, networkClient.authHandler)),
                          if request.httpMethod == Get then None else Some(request.encoded.value)))])
  {
    var body := BodyFor(request).value;
    var c := ClientCallFor(request, body);
    assert networkClient.baseUrl + c.endpoint == networkClient.baseUrl + "/" + request.endpoint;
  }
}
