/**
 * The refresh-and-retry protocol that the documentation of
 * `refreshTokenIfNecessary` promises ("if the request fails with error 401,
 * it will call the refreshToken method"), which `NetworkClient.request` never
 * carries out: its 2xx guard rejects 401 before the 401 branch is reached.
 *
 * This is the corrected definition: the 401 check comes before the 2xx
 * guard, and the retry resends the original request body (the source's dead
 * branch would send the response body instead). Everything else is the
 * source's pipeline, built from the same pieces as `Client`.
 */
module IntendedRefresh {
  import opened Wrappers
  import opened NetworkErrors
  import opened NetworkResults
  import opened Client

  /** How many token refreshes a list of effects holds. */
  function RefreshCount(effects: seq<Effect>): (n: nat)
    ensures n <= |effects|
    ensures n == 0 <==> RefreshToken !in effects
  {
    if effects == [] then 0
    else (if effects[0].RefreshToken? then 1 else 0) + RefreshCount(effects[1..])
  }

  /** Counting transport calls distributes over concatenation. */
  lemma {:induction false} TransportCountAppend(a: seq<Effect>, b: seq<Effect>)
    ensures TransportCount(a + b) == TransportCount(a) + TransportCount(b)
  {
    if a != [] {
      assert (a + b)[0] == a[0];
      assert (a + b)[1..] == a[1..] + b;
      TransportCountAppend(a[1..], b);
    } else {
      assert a + b == b;
    }
  }

  /** Counting refreshes distributes over concatenation. */
  lemma {:induction false} RefreshCountAppend(a: seq<Effect>, b: seq<Effect>)
    ensures RefreshCount(a + b) == RefreshCount(a) + RefreshCount(b)
  {
    if a != [] {
      assert (a + b)[0] == a[0];
      assert (a + b)[1..] == a[1..] + b;
      RefreshCountAppend(a[1..], b);
    } else {
      assert a + b == b;
    }
  }

  /**
   * The corrected `request`. A 401 on an authorized call refreshes the token
   * and retries once with refreshing switched off; the retry is the only
   * recursion, so at most two transport calls and one refresh happen.
   */
  function Request<V>(client: NetworkClient, platform: Platform<V>, c: Call): (o: Outcome<V>)
    ensures TransportCount(o.effects) <= (if c.refreshTokenIfNecessary then 2 else 1)
    ensures RefreshCount(o.effects) <= (if c.refreshTokenIfNecessary then 1 else 0)
    ensures client.session.None? ==> o == Outcome(Failure(Network(InvalidSession)), [])
    ensures client.session.Some? && !platform.isValidUrl(client.baseUrl + c.endpoint) ==>
              o == Outcome(Failure(Network(InvalidURL)), [])
    decreases if c.refreshTokenIfNecessary then 1 else 0
  {
    match client.session
    case None => Outcome(Failure(Network(InvalidSession)), [])
    case Some(urlSession) =>
      if !platform.isValidUrl(client.baseUrl + c.endpoint) then
        Outcome(Failure(Network(InvalidURL)), [])
      else
        var request := client.RequestFor(c);
        var sent := [Transport(request)];
        match urlSession.data(request)
        case Thrown(e) => Outcome(Failure(e), sent)
        case Received(_, NonHttp) => Outcome(Failure(Network(InvalidResponse)), sent)
        case Received(data, Http(httpResponse)) =>
          if httpResponse.statusCode == 401 && c.authorized then
            if c.refreshTokenIfNecessary then
              match client.authHandler
              case Some(h) =>
                (match Refreshed(h)
                 case Failure(e) =>
                   RefreshCountAppend(sent, [RefreshToken]);
                   Outcome(Failure(e), sent + [RefreshToken])
                 case Success(renewed) =>
                   var second := Request(client.(authHandler := Some(renewed)), platform, c.(refreshTokenIfNecessary := false));
                   TransportCountAppend(sent + [RefreshToken], second.effects);
                   TransportCountAppend(sent, [RefreshToken]);
                   RefreshCountAppend(sent + [RefreshToken], second.effects);
                   RefreshCountAppend(sent, [RefreshToken]);
                   Outcome(second.result, sent + [RefreshToken] + second.effects))
              case None => Outcome(Failure(Network(FailedToRefreshToken)), sent)
            else
              Outcome(Failure(Network(FailedToRefreshToken)), sent)
          else if !InSuccessBand(httpResponse.statusCode) then
            Outcome(Failure(Network(Fail(data, httpResponse))), sent)
          else
            Outcome(Decode(platform, c.expecting, httpResponse.statusCode, data), sent)
  }

  /**
   * A 401 on an authorized call with an auth handler whose refresh succeeds:
   * one refresh, then exactly one retry that carries the original body and
   * the renewed token, and whose outcome is the call's outcome.
   */
  lemma RetriesOnceAfterRefresh<V>(client: NetworkClient, platform: Platform<V>, c: Call)
    requires client.session.Some? && platform.isValidUrl(client.baseUrl + c.endpoint)
    requires c.authorized && c.refreshTokenIfNecessary
    requires client.authHandler.Some? && client.authHandler.value.refreshToken.Success?
    requires client.Reply(c).Received? && client.Reply(c).response.Http?
    requires client.Reply(c).response.http.statusCode == 401
    ensures var renewed := client.(authHandler := Some(client.authHandler.value.(authValue := client.authHandler.value.refreshToken.value)));
            var retry := c.(refreshTokenIfNecessary := false);
            var second := Request(renewed, platform, retry);
            && Request(client, platform, c) == Outcome(second.result, [Transport(client.RequestFor(c)), RefreshToken] + second.effects)
            && renewed.RequestFor(retry).httpBody == c.body
            && renewed.RequestFor(retry).allHttpHeaderFields.value[client.authHandler.value.authKey]
                 == client.authHandler.value.refreshToken.value
            && RefreshCount(second.effects) == 0
  {
  }

  /**
   * A server that answers 401 to everything: the call refreshes once, sends
   * exactly two requests, and fails with `failedToRefreshToken`.
   */
  lemma AlwaysUnauthorized<V>(client: NetworkClient, platform: Platform<V>, c: Call)
    requires client.session.Some? && platform.isValidUrl(client.baseUrl + c.endpoint)
    requires c.authorized && c.refreshTokenIfNecessary
    requires client.authHandler.Some? && client.authHandler.value.refreshToken.Success?
    requires forall r :: client.session.value.data(r).Received? && client.session.value.data(r).response.Http?
                         && client.session.value.data(r).response.http.statusCode == 401
    ensures Request(client, platform, c).result == Failure(Network(FailedToRefreshToken))
    ensures TransportCount(Request(client, platform, c).effects) == 2
    ensures RefreshCount(Request(client, platform, c).effects) == 1
  {
  }

  /**
   * Away from a 401 on an authorized call, the corrected pipeline and the
   * source's agree exactly: the correction touches nothing else.
   */
  lemma AgreesWithSourceAwayFrom401<V>(client: NetworkClient, platform: Platform<V>, c: Call)
    requires client.session.Some? && platform.isValidUrl(client.baseUrl + c.endpoint) && client.Reply(c).Received?
             && client.Reply(c).response.Http? && c.authorized ==>
               client.Reply(c).response.http.statusCode != 401
    ensures Request(client, platform, c) == client.Request(platform, c)
  {
  }
}
