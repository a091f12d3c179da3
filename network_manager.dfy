/**
 * The request dispatcher: builds the request config, dispatches it, and
 * classifies the outcome as the body, a shape-mismatch error, a normalised
 * API error, or the raw failure. The transport instance (with the
 * response-error hook registered on it) is abstract: its final outcome for
 * the dispatched config is an input.
 */
module Network {
  import opened Wrappers
  import opened Json
  import opened NetworkErrorParamsModule
  import opened ApiError
  import opened Http
  import opened RequestQueueService
  import opened ErrorHandling

  const NotAnObjectMessage := "Response is not an object"
  const NotAListMessage := "Response is not a list"
  /** The status of both shape-mismatch errors. */
  const ShapeMismatchStatus := 400

  /** A config with no fields set: `{}`. */
  const EmptyConfig := Config(None, None, None, None, None, map[])

  /**
   * The caller's config with `url`, `data`, `method` and `headers`
   * overwritten, as the dispatcher assigns them.
   */
  function Prepared(base: Config, url: string, requestMethod: string, data: Option<Json>,
                    headers: map<string, string>): (c: Config)
    ensures c.url == Some(url) && c.requestMethod == Some(requestMethod)
    ensures c.data == data && c.headers == Some(headers)
    ensures c.cancelToken == base.cancelToken && c.other == base.other
  {
    base.(url := Some(url), data := data, requestMethod := Some(requestMethod), headers := Some(headers))
  }

  /**
   * The `catch (error)` block shared by the three operations: a failure
   * that carries a response becomes the normalised `ApiException` of its
   * body and status; anything else is rethrown as it is.
   */
  function Rethrown(t: Thrown, params: NetworkErrorParams): (r: Thrown)
    ensures ResponseOf(t).Some? ==>
      r == Api(FromJson(ResponseOf(t).value.data, params, Some(ResponseOf(t).value.status)))
    ensures ResponseOf(t).None? ==> r == t
  {
    match ResponseOf(t)
    case Some(response) => Api(FromJson(response.data, params, Some(response.status)))
    case None => t
  }

  /** What `request` returns or throws for one outcome of the transport instance. */
  function RequestOutcome(o: Outcome, params: NetworkErrorParams): (r: Result<Json, Thrown>)
    ensures r.Ok? <==> o.Success? && !o.response.data.Array?
    ensures r.Ok? ==> r.value == o.response.data
    ensures o.Success? && o.response.data.Array? ==>
      r == Err(Api(ApiException(ShapeMismatchStatus, NotAnObjectMessage, [])))
    ensures o.Failure? ==> r == Err(Rethrown(o.thrown, params))
  {
    match o
    case Success(response) =>
      if response.data.Array? then
        // thrown inside the try: the catch sees an error without a response
        Err(Rethrown(Api(NewApiException(ShapeMismatchStatus, NotAnObjectMessage)), params))
      else Ok(response.data)
    case Failure(t) => Err(Rethrown(t, params))
  }

  /** What `requestList` returns or throws for one outcome of the transport instance. */
  function RequestListOutcome(o: Outcome, params: NetworkErrorParams): (r: Result<seq<Value>, Thrown>)
    ensures r.Ok? <==> o.Success? && o.response.data.Array?
    ensures r.Ok? ==> o.response.data == Array(r.value)
    ensures o.Success? && !o.response.data.Array? ==>
      r == Err(Api(ApiException(ShapeMismatchStatus, NotAListMessage, [])))
    ensures o.Failure? ==> r == Err(Rethrown(o.thrown, params))
  {
    match o
    case Success(response) =>
      if response.data.Array? then Ok(response.data.items)
      else Err(Rethrown(Api(NewApiException(ShapeMismatchStatus, NotAListMessage)), params))
    case Failure(t) => Err(Rethrown(t, params))
  }

  /** What `requestVoid` returns or throws for one outcome of the transport instance. */
  function RequestVoidOutcome(o: Outcome, params: NetworkErrorParams): (r: Result<(), Thrown>)
    ensures r.Ok? <==> o.Success?
    ensures o.Failure? ==> r == Err(Rethrown(o.thrown, params))
  {
    match o
    case Success(_) => Ok(())
    case Failure(t) => Err(Rethrown(t, params))
  }

  /** On a successful call, exactly one of `request` and `requestList` succeeds. */
  lemma RequestAndListPartitionBodies(o: Outcome, params: NetworkErrorParams)
    requires o.Success?
    ensures RequestOutcome(o, params).Ok? != RequestListOutcome(o, params).Ok?
  {
  }

  /** On a failed call, the three operations throw the same value. */
  lemma OperationsAgreeOnFailure(t: Thrown, params: NetworkErrorParams)
    ensures RequestOutcome(Failure(t), params).Err?
    ensures RequestListOutcome(Failure(t), params) == Err(RequestOutcome(Failure(t), params).error)
    ensures RequestVoidOutcome(Failure(t), params) == Err(RequestOutcome(Failure(t), params).error)
  {
  }

  /**
   * A failure with a response is always normalised: the caller sees an
   * `ApiException` whose status is the response's, unless the body names its
   * own numeric status.
   */
  lemma ServerFailureIsNormalised(error: AxiosError, params: NetworkErrorParams)
    requires error.response.Some?
    requires !Property(error.response.value.data, params.statusCodeKey).VNumber?
    ensures RequestOutcome(Failure(Axios(error)), params).error.Api?
    ensures RequestOutcome(Failure(Axios(error)), params).error.exception.statusCode == error.response.value.status
  {
  }

  /** A failure without a response (no server reached) is rethrown unchanged. */
  lemma TransportFailureIsRethrown(t: Thrown, params: NetworkErrorParams)
    requires ResponseOf(t).None?
    ensures RequestOutcome(Failure(t), params) == Err(t)
    ensures RequestListOutcome(Failure(t), params) == Err(t)
    ensures RequestVoidOutcome(Failure(t), params) == Err(t)
  {
  }

  /** `request` against an endpoint returning `[{"id": 1}]` fails with "Response is not an object". */
  lemma ArrayBodyIsNotAnObject(params: NetworkErrorParams)
    ensures RequestOutcome(Success(Response(200, Array([VOther]))), params)
            == Err(Api(ApiException(400, "Response is not an object", [])))
  {
  }

  /** A 400 whose body is `{message: "error"}` surfaces as an `ApiException` with message "error". */
  lemma MessageTakenFromBody()
    ensures RequestOutcome(
              Failure(Axios(AxiosError("Request failed with status code 400",
                                       Some(Response(400, Object(map["message" := VText("error")]))),
                                       Some(EmptyConfig)))),
              NewNetworkErrorParams(Some(NoOptions)))
            == Err(Api(ApiException(400, "error", [])))
  {
  }

  /** The caller's `AxiosRequestConfig` object, which the dispatcher updates in place. */
  class RequestConfig {
    var url: Option<string>
    var requestMethod: Option<string>
    var data: Option<Json>
    var headers: Option<map<string, string>>
    var cancelToken: Option<CancelToken>
    var other: map<string, string>

    constructor(c: Config)
      ensures Snapshot() == c
    {
      url, requestMethod, data, headers, cancelToken, other :=
        c.url, c.requestMethod, c.data, c.headers, c.cancelToken, c.other;
    }

    /** The config as the transport receives it. */
    function Snapshot(): Config
      reads this
    {
      Config(url, requestMethod, data, headers, cancelToken, other)
    }
  }

  class NetworkManager {
    const baseUrl: string
    const devBaseUrl: string
    const testMode: bool
    /** Base options for requests; only their headers are used. */
    var baseOptions: Config
    const errorParams: NetworkErrorParams
    const errorInterceptor: ErrorHandlingInterceptor
    /** The base URL the transport instance is created with. */
    const instanceBaseUrl: string
    /** Whether the transport instance sends credentials. */
    const instanceWithCredentials: bool
    /** The cancel token the transport instance is created with. */
    const instanceCancelToken: Option<CancelToken>

    /**
     * `new NetworkManager({...})`: stores the options, creates the refresh
     * coordinator over a fresh empty queue, and creates the transport
     * instance against the development URL in test mode, else the base URL.
     */
    constructor(baseUrl: string, devBaseUrl: string, testMode: bool, refreshTokenPath: string,
                baseOptions: Config, errorParams: NetworkErrorParams,
                withCredentials: Option<bool>, cancelToken: Option<CancelToken>)
      ensures this.baseUrl == baseUrl && this.devBaseUrl == devBaseUrl && this.testMode == testMode
      ensures this.baseOptions == baseOptions && this.errorParams == errorParams
      ensures instanceBaseUrl == if testMode then devBaseUrl else baseUrl
      ensures instanceWithCredentials == withCredentials.GetOr(true)
      ensures instanceCancelToken == cancelToken
      ensures fresh(errorInterceptor) && fresh(errorInterceptor.requestQueue)
      ensures errorInterceptor.refreshTokenPath == refreshTokenPath && !errorInterceptor.isRefreshing
      ensures errorInterceptor.requestQueue.Valid() && errorInterceptor.requestQueue.queue == []
    {
      var queue := new RequestQueue();
      errorInterceptor := new ErrorHandlingInterceptor(refreshTokenPath, queue);
      this.baseUrl := baseUrl;
      this.devBaseUrl := devBaseUrl;
      this.testMode := testMode;
      this.baseOptions := baseOptions;
      this.errorParams := errorParams;
      instanceBaseUrl := if testMode then devBaseUrl else baseUrl;
      instanceWithCredentials := withCredentials.GetOr(true);
      instanceCancelToken := cancelToken;
    }

    /** `getHeaders()`: a copy of the base options' headers, empty when there are none. */
    function GetHeaders(): (h: map<string, string>)
      reads this
      ensures forall name :: name in h <==> baseOptions.headers.Some? && name in baseOptions.headers.value
      ensures forall name :: name in h ==> h[name] == baseOptions.headers.value[name]
    {
      baseOptions.headers.GetOr(map[])
    }

    /**
     * The assignments that open `request`, `requestList` and `requestVoid`:
     * `config = config || {}`, then `url`, `data`, `method` and `headers` are
     * overwritten on that object, the caller's own when it gave one.
     */
    method PrepareConfig(url: string, requestMethod: string, data: Option<Json>, config: RequestConfig?)
      returns (c: RequestConfig)
      modifies config
      ensures config != null ==> c == config
      ensures config == null ==> fresh(c)
      ensures c.Snapshot()
              == Prepared(old(if config == null then EmptyConfig else config.Snapshot()),
                          url, requestMethod, data, GetHeaders())
    {
      if config == null {
        c := new RequestConfig(EmptyConfig);
      } else {
        c := config;
      }
      c.url := Some(url);
      c.data := data;
      c.requestMethod := Some(requestMethod);
      c.headers := Some(GetHeaders());
    }

    /** `request<T>(...)`: a non-array body, or what the failure becomes. */
    method Request(url: string, requestMethod: string, data: Option<Json>, config: RequestConfig?,
                   send: Config -> Outcome)
      returns (r: Result<Json, Thrown>)
      modifies config
      ensures config != null ==>
        config.Snapshot() == Prepared(old(config.Snapshot()), url, requestMethod, data, GetHeaders())
      ensures r == RequestOutcome(send(Prepared(old(if config == null then EmptyConfig else config.Snapshot()),
                                                url, requestMethod, data, GetHeaders())), errorParams)
    {
      var c := PrepareConfig(url, requestMethod, data, config);
      r := RequestOutcome(send(c.Snapshot()), errorParams);
    }

    /** `requestList<T>(...)`: an array body, or what the failure becomes. */
    method RequestList(url: string, requestMethod: string, data: Option<Json>, config: RequestConfig?,
                       send: Config -> Outcome)
      returns (r: Result<seq<Value>, Thrown>)
      modifies config
      ensures config != null ==>
        config.Snapshot() == Prepared(old(config.Snapshot()), url, requestMethod, data, GetHeaders())
      ensures r == RequestListOutcome(send(Prepared(old(if config == null then EmptyConfig else config.Snapshot()),
                                                    url, requestMethod, data, GetHeaders())), errorParams)
    {
      var c := PrepareConfig(url, requestMethod, data, config);
      r := RequestListOutcome(send(c.Snapshot()), errorParams);
    }

    /** `requestVoid(...)`: success exactly when the call succeeds, the body discarded. */
    method RequestVoid(url: string, requestMethod: string, data: Option<Json>, config: RequestConfig?,
                       send: Config -> Outcome)
      returns (r: Result<(), Thrown>)
      modifies config
      ensures config != null ==>
        config.Snapshot() == Prepared(old(config.Snapshot()), url, requestMethod, data, GetHeaders())
      ensures r == RequestVoidOutcome(send(Prepared(old(if config == null then EmptyConfig else config.Snapshot()),
                                                    url, requestMethod, data, GetHeaders())), errorParams)
    {
      var c := PrepareConfig(url, requestMethod, data, config);
      r := RequestVoidOutcome(send(c.Snapshot()), errorParams);
    }
  }
}
