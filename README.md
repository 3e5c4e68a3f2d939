# SFNetworking request execution, modelled in Dafny

SFNetworking is a Swift library for typed HTTP calls. A caller describes a call as an `ApiRequest`: an endpoint, an `HttpMethod`, headers, whether it needs authorization, and the expected response type. The caller runs it in an `ApiEnvironment` (`live`, `mock`, `failing` or `throwing(error)`) through a network client. `NetworkClient` does the actual work. It checks its URL session and the URL, merges the headers (default JSON content type, then the caller's headers, then the auth header) and calls the session once. It then classifies the response and decodes the body, as UTF-8 text for `String` and through `JSONDecoder` for any other type. For logging, it can also render a request as a curl command line.

This project models that core:

- `http_method.dfy`: module `HttpMethods`. The six methods, their raw values and the failable parse.
- `network_error.dfy`, `network_result.dfy`, `api_environment.dfy`: the error taxonomy, the result envelope and the environment, as datatypes.
- `network_client.dfy`: module `Client`. The `NetworkClient` pipeline:
  - `ProcessHeaders` is a loop proved equal to `MergedHeaders`.
  - `Attempt` is one pass of `request`, proved always to finish without reaching the 401 self-call.
  - `Request` is the whole call.
  - The lemmas include the one showing that the 401 refresh branch is never taken.
- `curl.dfy`: module `Curl`. `getCurlString` as a loop over the header dictionary, with escaping proved reversible.
- `api_request.dfy`: module `ApiRequests`. `ApiRequest.request(networkClient:environment:)` as a total function of the hook's answer, the environment, the method, the encoder's output and the client. It is linked to `NetworkClient` by `LiveThroughNetworkClient`.
- `intended_refresh.dfy`: module `IntendedRefresh`. The corrected refresh-and-retry protocol; see Findings.

Code outside the model becomes explicit parameters:

- `Session.data` is the URL session. Its answer is a thrown error, a non-HTTP response, or a status with a body.
- `Platform` bundles `URL(string:)`, lossy UTF-8 decoding and `JSONDecoder`.
- `AuthHandler` holds the pair `getAuthHeader()` returns and what `refreshToken()` would do.
- A `Foreign(tag)` error stands for an error thrown by any of these collaborators, or injected by a caller.

Each request returns its effects beside its result: every transport call, and every token refresh. This lets the model state "the network is not touched" and "refresh is never called".

Where the library's own doc comments suggest otherwise, the model follows the code:

- A JSON decoding failure propagates the decoder's own error (NetworkClient.swift:109-110). The code does not turn it into `invalidData`, even though the doc comment of `invalidData` says "The expected data could not be decoded" (NetworkError.swift:33).
- A session error propagates unchanged (NetworkClient.swift:70). The code does not wrap it in `other`, the case documented for "Other networking errors" (NetworkError.swift:38).
- In the dead refresh branch, a failing refresh propagates its own error (NetworkClient.swift:88). Only a missing handler or a switched-off flag gives `failedToRefreshToken`.
- `NetworkClient.request` takes no timeout (NetworkClient.swift:36-44), although the protocol declares one (NetworkClientProtocol.swift:38).
- A 401 never triggers a refresh, although `refreshTokenIfNecessary` promises one (NetworkClientProtocol.swift:26). See Findings.

## Model

| member | source | states |
|---|---|---|
| `HttpMethods.RawValue` | Sources/SFNetworking/HttpMethod.swift:10-17 | each case's raw value is its Swift case name in upper case (GET, POST, PUT, DELETE, PATCH, HEAD) |
| `HttpMethods.FromRawValue` | Sources/SFNetworking/HttpMethod.swift:10-17 | `init?(rawValue:)`: a result is a case whose raw value is the input; nil exactly when no case has that raw value |
| `HttpMethods.RawValueRoundTrip` | Sources/SFNetworking/HttpMethod.swift:10-17 | parsing a case's raw value gives back that case |
| `HttpMethods.RawValueInjective` | Sources/SFNetworking/HttpMethod.swift:11-16 | two cases have the same raw value iff they are the same case |
| `HttpMethods.SixMethods` | Sources/SFNetworking/HttpMethod.swift:10-17 | the enum is closed: every method is among the six listed, which are pairwise distinct |
| `Client.MergedHeaders` | Sources/SFNetworking/NetworkClient.swift:114-128 | keys are exactly Content-Type, the caller's keys and (when authorized with a handler) the auth key; the auth value wins on its key; every other caller header keeps the caller's value; Content-Type is the JSON default unless the caller or the auth key set it |
| `Client.NetworkClient.ProcessHeaders` | Sources/SFNetworking/NetworkClient.swift:114-128 | the in-place dictionary loop produces exactly `MergedHeaders` for any caller headers, whatever the iteration order |
| `Client.NetworkClient.RequestFor` | Sources/SFNetworking/NetworkClient.swift:50-62 | the URLRequest has URL `baseUrl + endpoint`, a method string that parses back to the call's method, exactly the `MergedHeaders` of the call's headers, authorization flag and the client's auth handler (so Content-Type is always present), and the call's body |
| `Client.Decode` | Sources/SFNetworking/NetworkClient.swift:104-111 | a 2xx body keeps the response status; for String it always succeeds, empty body to "" and otherwise the UTF-8 text; for other types it succeeds iff the JSON decoder does, with its value, else fails with the decoder's error |
| `Client.Refreshed` | Sources/SFNetworking/NetworkClient.swift:87-88 | a refresh succeeds iff the handler's refresh does, then the handler yields the same key with the new token; otherwise the refresh's own error |
| `Client.NetworkClient.Attempt` | Sources/SFNetworking/NetworkClient.swift:46-111 | every pass finishes without reaching the self-call; no session gives invalidSession and an invalid URL gives invalidURL, both with no effects; otherwise one transport call with the built request, after which a session error is rethrown, a non-HTTP response gives invalidResponse, a status outside 200...299 gives `fail(data, response)` and a 2xx status gives the decoded body |
| `Client.NetworkClient.Request` | Sources/SFNetworking/NetworkClient.swift:36-112 | no session gives invalidSession and no effects; an invalid URL gives invalidURL and no effects; otherwise exactly one transport call with the built request; never a refresh; a success carries the reply's status, which lies in 200...299 |
| `Client.RefreshBranchUnreachable` | Sources/SFNetworking/NetworkClient.swift:82-102 | no pass ever reaches the refresh-and-retry branch; `request` equals its first pass |
| `Client.AtMostOneTransportCall` | Sources/SFNetworking/NetworkClient.swift:46-70 | at most one transport call per request, and one exactly when the session exists and the URL is valid |
| `Client.NonSuccessStatusFails` | Sources/SFNetworking/NetworkClient.swift:82-84 | every status outside 200...299 fails with `fail(data, response)` carrying the raw body and the response |
| `Client.UnauthorizedIsPlainFailure` | Sources/SFNetworking/NetworkClient.swift:82-102 | a 401 on an authorized call with refreshing on and a handler still fails with `fail`, after one transport call and no refresh |
| `Client.TransportFailures` | Sources/SFNetworking/NetworkClient.swift:70-75 | a session error is rethrown unchanged; a non-HTTP response gives invalidResponse |
| `Client.SuccessIsDecoded` | Sources/SFNetworking/NetworkClient.swift:104-111 | a 2xx reply's outcome is the decoding of its body for the expected type |
| `Curl.BaseCommand` | Sources/SFNetworking/NetworkClient.swift:137-141 | the command starts with `curl "<url>"` and ends with ` --head` iff the method is HEAD |
| `Curl.HeaderLines` | Sources/SFNetworking/NetworkClient.swift:149-153 | one `-H "key: value"` line per listed key, in order, with that key's value |
| `Curl.Escape` | Sources/SFNetworking/NetworkClient.swift:155-157 | every double quote in the escaped body is preceded by a backslash |
| `Curl.UnescapeEscape` | Sources/SFNetworking/NetworkClient.swift:155-157 | escaping is reversible: the body can be read back from the escaped text |
| `Curl.Join` | Sources/SFNetworking/NetworkClient.swift:160 | the joined line starts with the first part |
| `Curl.GetCurlString` | Sources/SFNetworking/NetworkClient.swift:134-161 | "" without a URL; otherwise the base command, the -X flag, one header line for each header except Cookie, each exactly once in the order met, and the escaped body, joined by the line continuation |
| `Curl.XFlagIffOtherMethod` | Sources/SFNetworking/NetworkClient.swift:145-147 | some part of the curl line starts with `-X ` iff the method is present and neither GET nor HEAD |
| `Curl.MethodFlag` | Sources/SFNetworking/NetworkClient.swift:145-147 | the method part is non-empty iff a method is present and is neither GET nor HEAD, and then it is exactly `-X <method>` |
| `Curl.BodyFlag` | Sources/SFNetworking/NetworkClient.swift:155-157 | the `-d` part is present iff the request has a body that decodes as UTF-8; it is then `-d "<escaped text>"`, and unescaping its inner text gives back the decoded body |
| `Curl.ClientRequestFlags` | Sources/SFNetworking/NetworkClient.swift:139-153 | for a request the client built: ` --head` iff `.head`, `-X` iff POST/PUT/DELETE/PATCH, and no Cookie header line |
| `ApiRequests.NoCannedResponse` | Sources/SFNetworking/ApiRequest+Extension.swift:60-65 | the default hook returns nil and does not throw |
| `ApiRequests.WithDefaults` | Sources/SFNetworking/ApiRequest+Extension.swift:12-14 | by default a request needs no authorization, has no headers and its hook returns nil in every environment |
| `ApiRequests.BodyFor` | Sources/SFNetworking/ApiRequest+Extension.swift:45-46 | GET sends no body; every other method, HEAD included, sends the JSON encoding, or fails with the encoder's error |
| `ApiRequests.ClientCallFor` | Sources/SFNetworking/ApiRequest+Extension.swift:47-55 | the client is called with `"/" + endpoint`, the request's method, headers and response type, `authorized == requiresAuthorization` and `refreshTokenIfNecessary == true` |
| `ApiRequests.Execute` | Sources/SFNetworking/ApiRequest+Extension.swift:25-58 | a non-nil hook result or a hook error is returned unchanged with no client call; otherwise failing gives invalidData, throwing(e) gives e, mock gives invalidResponse, none calling the client; the client is called (once) iff live and the body could be built; its call has the forwarded arguments, no body iff GET, and its result is returned unchanged |
| `ApiRequests.ThrowingRethrows` | Sources/SFNetworking/ApiRequest+Extension.swift:37-38 | throwing(e) without a canned result fails with exactly e and never calls the client |
| `ApiRequests.DefaultHookNeverShortCircuits` | Sources/SFNetworking/ApiRequest+Extension.swift:60-65 | with the defaults the client is called iff the environment is live and the body can be built, unauthorized and with no headers |
| `ApiRequests.LiveThroughNetworkClient` | Sources/SFNetworking/ApiRequest+Extension.swift:47-55 | dispatching live through a NetworkClient returns the client's result, and the transport sees one request to `baseUrl + "/" + endpoint` with the method's raw value, the merged headers and no body iff GET |
| `IntendedRefresh.Request` | Sources/SFNetworking/NetworkClientProtocol.swift:26 | corrected pipeline: at most two transport calls and one refresh (one call and no refresh without the refresh flag); the same guards as the source |
| `IntendedRefresh.RetriesOnceAfterRefresh` | Sources/SFNetworking/NetworkClientProtocol.swift:26 | corrected: a 401 on an authorized call refreshes once, then retries once with the original body and the renewed token, and returns the retry's outcome |
| `IntendedRefresh.AlwaysUnauthorized` | Sources/SFNetworking/NetworkClient.swift:86-101 | corrected: a server that always answers 401 yields failedToRefreshToken after exactly two transport calls and one refresh |
| `IntendedRefresh.AgreesWithSourceAwayFrom401` | Sources/SFNetworking/NetworkClient.swift:46-111 | for every input whose reply is not a 401 to an authorized call, the corrected `Request` returns the same result and effects as `Client.NetworkClient.Request` |

## Left out

- The URL session, `URLRequest` construction and `async`/`await` (NetworkClient.swift:57-62, 70). The session is the function `Session.data` from a request to its outcome. The model cannot express cancellation, timeouts or concurrency.
- The header loop at NetworkClient.swift:59-61. The request carries the merged dictionary as it is. `URLRequest.addValue` joins, with a comma, two fields whose names differ only in letter case; this is Foundation behaviour and is not modelled.
- `URL(string:)`, `url.absoluteString`, `String(decoding:as:)`, `String(data:encoding:)`, `JSONEncoder` and `JSONDecoder` are Foundation functions. They are parameters (`Platform`, the curl `utf8` argument, `ApiRequest.encoded`). The curl line shows the URL string exactly as it was given.
- Logging: `log`, `print`, the static `DateFormatter`, `prettyPrint` and the `isLoggingEnabled` switch (NetworkClient.swift:18-22, 64-67, 77-80, 130-132, 163-179). These are I/O. The curl string itself is modelled.
- `NetworkAuthHandler` is a protocol. It is a value holding the header pair and the outcome of a refresh. A refresh renews only the value of the auth header.
- The `response(for:networkClient:)` hook is given the client and may call it. Such calls happen inside the hook and are not counted in `Dispatched.calls`.
- `NetworkClientMock`: a test double that always throws `invalidResponse`.
- `MultipartData`: a plain record, and no multipart serialiser exists in the source.
- The `timeoutInterval` parameter of `NetworkClientProtocol`: `NetworkClient.request` does not take it.
- The weak reference to the URL session is an optional that may be empty.
- Swift compares `String`s, including dictionary keys, by Unicode canonical equivalence, while a Dafny `string` compares code points. This affects the header keys merged by `processHeaders`, the `key != "Cookie"` test and the `"GET"`/`"HEAD"` tests in `getCurlString`. HTTP method names and header names are ASCII tokens, where the two agree, so the model does not capture the difference for non-ASCII keys.
- Dictionary iteration order: `GetCurlString` reports the order it used as a ghost result. The other operations treat headers as a map.

## Findings

| source | as written | input that shows it | evidently intended | confidence | as-written member | corrected member |
|---|---|---|---|---|---|---|
| Sources/SFNetworking/NetworkClient.swift:82-102 | The 2xx guard throws `fail(data, response)` for every status outside 200...299. It runs before the `statusCode == 401` check, so the refresh-and-retry branch can never run. The dead retry would also send the response `data` as the request body (:93). That resend is read from the code and modelled in `Client.NetworkClient.Attempt`; it is not proved, because the branch cannot be reached. | An authorized call with `refreshTokenIfNecessary` true and an auth handler, answered with status 401. Result: `fail(data, response)`, one transport call, no `refreshToken()` call. | On a 401, refresh the token and retry once with the original body, as NetworkClientProtocol.swift:26 documents. | high; not executed | `Client.UnauthorizedIsPlainFailure` | `IntendedRefresh.RetriesOnceAfterRefresh` |

`Client.NetworkClient.Request` keeps the code as written, and `ApiRequests.LiveThroughNetworkClient` composes with that version. `IntendedRefresh.Request` is the corrected definition. It moves the 401 check before the 2xx guard and resends the original body. `IntendedRefresh.AgreesWithSourceAwayFrom401` shows that it agrees with the source everywhere else.
