/** The success envelope of a request (NetworkResult.swift) and the payload shapes it holds. */
module NetworkResults {

  /** `NetworkResult<T>`: the HTTP status and the decoded payload; there is no headers field. */
  datatype NetworkResult<T> = NetworkResult(statusCode: int, data: T)

  /**
   * The `expecting:` type of a request: `String`, or some other `Decodable`
   * type, named so that the JSON decoder can be told which one.
   */
  datatype ResponseType = StringType | DecodableType(name: string)

  /** A decoded payload: UTF-8 text for `String`, a decoded value of type `V` otherwise. */
  datatype Payload<V> = Text(text: string) | Decoded(value: V)
}
