/**
 * The error taxonomy of the networking layer (NetworkError.swift) and the
 * byte, header and HTTP-response shapes its cases carry.
 */
module NetworkErrors {

  /** One octet of a `Data` value. */
  newtype Byte = b: int | 0 <= b < 256

  /** Foundation's `Data`. */
  type Bytes = seq<Byte>

  /** `HttpHeaders`, a `[String: String]` dictionary. */
  type HttpHeaders = map<string, string>

  /** What the layer reads of an `HTTPURLResponse`: its status and header fields. */
  datatype HttpResponse = HttpResponse(statusCode: int, headerFields: HttpHeaders)

  /**
   * Swift's open `Error` existential: either one of this layer's own errors,
   * or an error thrown by code outside the model (the URL session, the JSON
   * encoder and decoder, the auth handler's refresh, a caller's injected
   * error), told apart only by an opaque tag.
   */
  datatype Error = Network(kind: NetworkError) | Foreign(tag: nat)

  /** The seven cases of `NetworkError`. */
  datatype NetworkError =
    | InvalidSession
    | InvalidURL
    | InvalidResponse
    | Fail(data: Bytes, response: HttpResponse)
    | InvalidData
    | Other(underlying: Error)
    | FailedToRefreshToken
}
