/**
 * The shared HTTP client (`src/services/api.ts`): a request interceptor that
 * adds a bearer credential read from storage at request time, and a response
 * interceptor that hands successes back unchanged and re-rejects every error.
 * The transport itself is not modelled: what the server answers is a value of
 * `Settled`, given to the callers as a parameter.
 */
module Api {
  import opened Js

  const AUTHORIZATION := "Authorization"
  const BEARER_PREFIX := "Bearer "
  const UNAUTHORIZED := 401

  /** An HTTP response as the client hands it on: the status and the parsed JSON body. */
  datatype Response<T> = Response(status: int, data: T)

  /**
   * A rejected request. `status` is the status of the error's response, or
   * `None` when no response arrived (a network failure).
   */
  datatype HttpError = HttpError(message: string, status: Option<int>)

  /** The outcome of a promise: resolved with a value or rejected with an error. */
  datatype Settled<T> = Fulfilled(value: T) | Rejected(error: HttpError)

  /** The parts of an outgoing request's configuration the client passes along. */
  datatype RequestConfig = RequestConfig(
    httpMethod: string,
    url: string,
    headers: map<string, string>,
    params: map<string, string>,
    data: Option<string>)

  /** True of an error whose response has status 401. */
  predicate IsUnauthorized(error: HttpError)
  {
    error.status == Some(UNAUTHORIZED)
  }

  /** The success half of the response interceptor. */
  function OnResponse<T>(response: Response<T>): (r: Settled<Response<T>>)
    ensures r.Fulfilled? && r.value == response
  {
    Fulfilled(response)
  }

  /**
   * The error half of the response interceptor. The 401 branch has no effect
   * yet: an unauthorized error is rejected back to the caller like any other.
   */
  function OnResponseError<T>(error: HttpError): (r: Settled<Response<T>>)
    ensures r.Rejected? && r.error == error
  {
    if IsUnauthorized(error) then
      // reserved for handling an unauthorized response (a redirect to login, say)
      Rejected(error)
    else
      Rejected(error)
  }

  /**
   * The response interceptor applied to a settled request: it is transparent,
   * so the caller sees exactly the outcome the transport produced.
   */
  function InterceptResponse<T>(outcome: Settled<Response<T>>): (r: Settled<Response<T>>)
    ensures r == outcome
    ensures r.Rejected? <==> outcome.Rejected?
  {
    match outcome
    case Fulfilled(response) => OnResponse(response)
    case Rejected(error) => OnResponseError(error)
  }

  /** The client instance. It keeps a reference to storage, not a copy of the token. */
  class ApiClient {
    const storage: TokenStorage

    constructor (storage: TokenStorage)
      ensures this.storage == storage
    {
      this.storage := storage;
    }

    /**
     * The request interceptor. The token is read from storage when the request
     * is made, so a token written after the client was created applies.
     * With a truthy token the `Authorization` header is set to the bearer
     * credential; otherwise the configuration goes out as it came in.
     * No other header and no other field of the configuration changes.
     */
    method InterceptRequest(config: RequestConfig) returns (out: RequestConfig)
      ensures out.httpMethod == config.httpMethod && out.url == config.url
      ensures out.params == config.params && out.data == config.data
      ensures Truthy(storage.token) ==>
        AUTHORIZATION in out.headers && out.headers[AUTHORIZATION] == BEARER_PREFIX + storage.token.value
      ensures Truthy(storage.token) ==> out.headers.Keys == config.headers.Keys + {AUTHORIZATION}
      ensures !Truthy(storage.token) ==> out == config
      ensures forall k :: k in config.headers && k != AUTHORIZATION ==>
        k in out.headers && out.headers[k] == config.headers[k]
      ensures forall k :: k in out.headers && k != AUTHORIZATION ==> k in config.headers
    {
      var token := storage.token;
      out := config;
      if Truthy(token) {
        out := out.(headers := out.headers[AUTHORIZATION := BEARER_PREFIX + token.value]);
      }
    }
  }
}
