/**
 * The shapes the transport (axios) exchanges with the core: request
 * configurations, responses, the values a failed call throws, and the
 * outcome of one transport call. The transport itself is not modelled; the
 * core receives its outcomes as inputs.
 */
module Http {
  import opened Wrappers
  import opened Json
  import opened ApiError

  /** A cancel token, named by the id of the token source that issued it. */
  type CancelToken = nat

  /** A snapshot of an `AxiosRequestConfig`. */
  datatype Config = Config(
    url: Option<string>,
    requestMethod: Option<string>,       // the method string, opaque here
    data: Option<Json>,
    headers: Option<map<string, string>>,
    cancelToken: Option<CancelToken>,
    other: map<string, string>           // every other field, carried through untouched
  )

  /** A response that reached the client. */
  datatype Response = Response(status: int, data: Json)

  /** An `AxiosError`: its message, the response if one arrived, and the config of the failed call. */
  datatype AxiosError = AxiosError(message: string, response: Option<Response>, config: Option<Config>)

  /** A value a failed call throws. */
  datatype Thrown =
    | Axios(error: AxiosError)           // a transport failure
    | Api(exception: ApiException)       // a normalised API error
    | Canceled(message: string)          // the `axios.Cancel` that cancelling a queued request rejects with
    | OtherError(message: string)        // any other `Error` instance
    | NonError                           // a thrown value that is not an `Error` instance

  /** `thrown instanceof Error`. */
  predicate IsErrorInstance(t: Thrown) {
    !t.NonError?
  }

  /** `thrown.message` of an `Error` instance. */
  function ErrorMessage(t: Thrown): string
    requires IsErrorInstance(t)
  {
    match t
    case Axios(e) => e.message
    case Api(x) => x.message
    case Canceled(m) => m
    case OtherError(m) => m
  }

  /** `error.response`: only a transport failure carries one. */
  function ResponseOf(t: Thrown): (r: Option<Response>)
    ensures r.Some? ==> t.Axios?
  {
    if t.Axios? then t.error.response else None
  }

  /** The outcome of one transport call: the response, or what it threw. */
  datatype Outcome = Success(response: Response) | Failure(thrown: Thrown)
}
