/** The environment a typed API call executes in (ApiEnvironment.swift). */
module ApiEnvironments {
  import opened NetworkErrors

  /** Live network, mock, the default failure, or a caller-chosen error. */
  datatype ApiEnvironment = Live | Mock | Failing | Throwing(error: Error)
}
