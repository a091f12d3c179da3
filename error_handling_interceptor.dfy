/**
 * The refresh coordinator: the response-error hook that, on a 401, either
 * guards the refresh endpoint, queues the caller while a refresh is in
 * flight, or starts exactly one refresh and then drains or cancels the
 * pending request queue. The hook is asynchronous and suspends while the
 * refresh POST is outstanding; it is modelled as two steps split at that
 * suspension point, so that other failures can be handled in between.
 */
module ErrorHandling {
  import opened Wrappers
  import opened Http
  import opened RequestQueueService

  /** HTTP 401 Unauthorized (section 15.5.2 of RFC 9110). */
  const Unauthorized := 401
  /** The cancel reason when the failure is not an `Error` or the refresh endpoint itself failed. */
  const RefreshFailedReason := "Token refresh failed"

  /** How the promise the hook returns ends up. */
  datatype HandlerResult =
    | Returned(response: Response)       // resolves with a response
    | Threw(thrown: Thrown)              // rejects
    | Deferred(entry: nat)               // the queue's promise for entry `entry`, settled later

  /** Where the hook stands when it yields: finished, or suspended on the refresh POST. */
  datatype Step = Done(result: HandlerResult) | AwaitingRefresh

  /** How the refresh POST ended. */
  datatype RefreshOutcome = Refreshed | RefreshFailed(thrown: Thrown)

  /** A call the coordinator makes on the transport. */
  datatype Call = RefreshPost(path: string) | Send(config: Config)

  /** Returning the promise of a transport call from the hook. */
  function ResultOf(o: Outcome): (r: HandlerResult)
    ensures r.Returned? <==> o.Success?
    ensures r.Returned? ==> r.response == o.response
    ensures r.Threw? ==> r.thrown == o.thrown
  {
    match o
    case Success(resp) => Returned(resp)
    case Failure(t) => Threw(t)
  }

  /** The reason the queue is cancelled with after a failed refresh. */
  function CancelReason(t: Thrown): (reason: string)
    ensures IsErrorInstance(t) ==> reason == ErrorMessage(t)
    ensures !IsErrorInstance(t) ==> reason == RefreshFailedReason
  {
    if IsErrorInstance(t) then ErrorMessage(t) else RefreshFailedReason
  }

  /** The hook acts on the failure: a 401 response, and a refresh path is configured. */
  predicate Engages(error: AxiosError, refreshTokenPath: string) {
    error.response.Some? && error.response.value.status == Unauthorized && refreshTokenPath != ""
  }

  /** The failed request was the refresh request itself. */
  predicate TargetsRefreshPath(error: AxiosError, refreshTokenPath: string) {
    error.config.Some? && error.config.value.url == Some(refreshTokenPath)
  }

  /** The replays of a drained queue, as transport calls. */
  function Sends(configs: seq<Config>): (calls: seq<Call>)
    ensures |calls| == |configs|
    ensures forall i :: 0 <= i < |configs| ==> calls[i] == Send(configs[i])
  {
    seq(|configs|, i requires 0 <= i < |configs| => Send(configs[i]))
  }

  /** The number of refresh POSTs among the calls. */
  function Posts(calls: seq<Call>): nat
    decreases |calls|
  {
    if calls == [] then 0
    else Posts(calls[..|calls| - 1]) + (if calls[|calls| - 1].RefreshPost? then 1 else 0)
  }

  lemma {:induction false} PostsAppend(a: seq<Call>, b: seq<Call>)
    ensures Posts(a + b) == Posts(a) + Posts(b)
    decreases |b|
  {
    if b == [] {
      assert a + b == a;
    } else {
      var n := |b| - 1;
      assert (a + b)[..|a + b| - 1] == a + b[..n];
      assert (a + b)[|a + b| - 1] == b[n];
      PostsAppend(a, b[..n]);
    }
  }

  /** Sending requests never issues a refresh. */
  lemma {:induction false} SendsPostNothing(configs: seq<Config>)
    ensures Posts(Sends(configs)) == 0
    decreases |configs|
  {
    if configs != [] {
      var n := |configs| - 1;
      assert Sends(configs)[..n] == Sends(configs[..n]);
      SendsPostNothing(configs[..n]);
    }
  }

  /** One refresh round (POST, replays, retry) issues exactly one refresh. */
  lemma RefreshRoundPostsOnce(before: seq<Call>, path: string, replayed: seq<Config>, retry: Option<Config>)
    ensures Posts(before + [RefreshPost(path)]) == Posts(before) + 1
    ensures Posts(before + [RefreshPost(path)] + Sends(replayed)
                  + (if retry.Some? then [Send(retry.value)] else [])) == Posts(before) + 1
  {
    var posted := before + [RefreshPost(path)];
    PostsAppend(before, [RefreshPost(path)]);
    SendsPostNothing(replayed);
    PostsAppend(posted, Sends(replayed));
    if retry.Some? {
      PostsAppend(posted + Sends(replayed), [Send(retry.value)]);
    } else {
      assert posted + Sends(replayed) + [] == posted + Sends(replayed);
    }
  }

  /** The promises of a drained queue once the refresh has ended: replayed on success, cancelled on failure. */
  ghost function SettledByRefresh(s: map<nat, Settlement>, q: seq<Entry>, refresh: RefreshOutcome,
                                  transport: Config -> Outcome): map<nat, Settlement>
  {
    if refresh.Refreshed? then UpdateEach(s, q, Replay(transport))
    else UpdateEach(s, q, Cancellation(CancelReason(refresh.thrown)))
  }

  /**
   * The callers queued behind a refresh, and the entries `q0` queued before
   * them, each get their own settlement when the refresh ends.
   */
  lemma QueuedCallersSettled(s: map<nat, Settlement>, q0: seq<Entry>, q: seq<Entry>, waiting: seq<AxiosError>,
                             deferred: seq<nat>, refresh: RefreshOutcome, transport: Config -> Outcome)
    requires |deferred| == |waiting| && forall j :: 0 <= j < |waiting| ==> waiting[j].config.Some?
    requires q == q0 + Arrivals(waiting, deferred) && IncreasingIds(q)
    ensures forall j :: 0 <= j < |waiting| ==>
      && deferred[j] in SettledByRefresh(s, q, refresh, transport)
      && SettledByRefresh(s, q, refresh, transport)[deferred[j]]
         == if refresh.Refreshed?
            then SettlementOf(transport(waiting[j].config.value.(cancelToken := Some(deferred[j]))))
            else Rejected(Canceled(CancelMessage(CancelReason(refresh.thrown))))
    ensures forall i :: 0 <= i < |q0| ==>
      && q0[i].id in SettledByRefresh(s, q, refresh, transport)
      && SettledByRefresh(s, q, refresh, transport)[q0[i].id]
         == if refresh.Refreshed? then SettlementOf(transport(q0[i].config))
            else Rejected(Canceled(CancelMessage(CancelReason(refresh.thrown))))
  {
    forall i | 0 <= i < |q0|
      ensures q0[i].id in SettledByRefresh(s, q, refresh, transport)
      ensures SettledByRefresh(s, q, refresh, transport)[q0[i].id]
              == if refresh.Refreshed? then SettlementOf(transport(q0[i].config))
                 else Rejected(Canceled(CancelMessage(CancelReason(refresh.thrown))))
    {
      assert q[i] == q0[i];
      if refresh.Refreshed? {
        ReplaySettlesEach(s, q, transport, i);
      } else {
        CancellationRejectsEach(s, q, CancelReason(refresh.thrown), i);
      }
    }
    forall j | 0 <= j < |waiting|
      ensures deferred[j] in SettledByRefresh(s, q, refresh, transport)
      ensures SettledByRefresh(s, q, refresh, transport)[deferred[j]]
              == if refresh.Refreshed?
                 then SettlementOf(transport(waiting[j].config.value.(cancelToken := Some(deferred[j]))))
                 else Rejected(Canceled(CancelMessage(CancelReason(refresh.thrown))))
    {
      assert q[|q0| + j] == Arrivals(waiting, deferred)[j];
      if refresh.Refreshed? {
        ReplaySettlesEach(s, q, transport, |q0| + j);
      } else {
        CancellationRejectsEach(s, q, CancelReason(refresh.thrown), |q0| + j);
      }
    }
  }

  /** The entries a burst of waiting callers is queued as: each config with its own fresh token, in arrival order. */
  function Arrivals(waiting: seq<AxiosError>, deferred: seq<nat>): (r: seq<Entry>)
    requires |deferred| == |waiting| && forall j :: 0 <= j < |waiting| ==> waiting[j].config.Some?
    ensures |r| == |waiting|
    ensures forall j :: 0 <= j < |waiting| ==>
      r[j] == Entry(deferred[j], waiting[j].config.value.(cancelToken := Some(deferred[j])))
  {
    seq(|waiting|, j requires 0 <= j < |waiting| => Entry(deferred[j], waiting[j].config.value.(cancelToken := Some(deferred[j]))))
  }

  /** The ids a burst is queued under increase in arrival order, since ids increase along the queue. */
  lemma ArrivalIdsIncrease(q0: seq<Entry>, waiting: seq<AxiosError>, deferred: seq<nat>)
    requires |deferred| == |waiting| && forall j :: 0 <= j < |waiting| ==> waiting[j].config.Some?
    requires IncreasingIds(q0 + Arrivals(waiting, deferred))
    ensures forall i, j :: 0 <= i < j < |deferred| ==> deferred[i] < deferred[j]
  {
    var q := q0 + Arrivals(waiting, deferred);
    forall i, j | 0 <= i < j < |deferred|
      ensures deferred[i] < deferred[j]
    {
      assert q[|q0| + i].id == deferred[i] && q[|q0| + j].id == deferred[j];
    }
  }

  /** Queueing one more waiting caller extends the queue by that caller's entry. */
  lemma ArrivalsSnoc(q0: seq<Entry>, waiting: seq<AxiosError>, deferred: seq<nat>, i: nat, id: nat)
    requires i < |waiting| && |deferred| == i
    requires forall j :: 0 <= j < |waiting| ==> waiting[j].config.Some?
    ensures q0 + Arrivals(waiting[..i], deferred) + [Entry(id, waiting[i].config.value.(cancelToken := Some(id)))]
            == q0 + Arrivals(waiting[..i + 1], deferred + [id])
  {
    var e := Entry(id, waiting[i].config.value.(cancelToken := Some(id)));
    assert Arrivals(waiting[..i], deferred) + [e] == Arrivals(waiting[..i + 1], deferred + [id]);
  }

  class ErrorHandlingInterceptor {
    const refreshTokenPath: string
    const requestQueue: RequestQueue
    /** True while a refresh POST is outstanding. */
    var isRefreshing: bool
    /** Every transport call the hook made, in order. */
    ghost var calls: seq<Call>

    constructor(refreshTokenPath: string, requestQueue: RequestQueue)
      ensures this.refreshTokenPath == refreshTokenPath && this.requestQueue == requestQueue
      ensures !isRefreshing && calls == []
    {
      this.refreshTokenPath := refreshTokenPath;
      this.requestQueue := requestQueue;
      isRefreshing := false;
      calls := [];
    }

    /**
     * `onResponseError(error)` up to its first suspension: pass the failure
     * through, guard the refresh endpoint, queue the caller while a refresh
     * is in flight, or raise the flag and issue the refresh POST.
     */
    method OnResponseError(error: AxiosError) returns (step: Step)
      requires requestQueue.Valid()
      modifies this, requestQueue
      ensures requestQueue.Valid()
      // only the last case issues a call, and that call is the refresh POST
      ensures step.Done? ==> calls == old(calls)
      ensures step.AwaitingRefresh? ==>
        calls == old(calls) + [RefreshPost(refreshTokenPath)] && isRefreshing && unchanged(requestQueue)
      // not a 401, or no refresh path: rethrown untouched
      ensures !Engages(error, refreshTokenPath) ==>
        && step == Done(Threw(Axios(error)))
        && isRefreshing == old(isRefreshing) && calls == old(calls)
        && unchanged(requestQueue)
      // the refresh request itself failed with 401: cancel everyone, rethrow, no refresh
      ensures Engages(error, refreshTokenPath) && TargetsRefreshPath(error, refreshTokenPath) ==>
        && step == Done(Threw(Axios(error)))
        && isRefreshing == old(isRefreshing) && calls == old(calls)
        && requestQueue.queue == []
        && requestQueue.settlements
           == UpdateEach(old(requestQueue.settlements), old(requestQueue.queue), Cancellation(RefreshFailedReason))
        && requestQueue.cancelReasons
           == UpdateEach(old(requestQueue.cancelReasons), old(requestQueue.queue), CancelledWith(RefreshFailedReason))
        && requestQueue.sent == old(requestQueue.sent)
      // a refresh is in flight: the caller waits in the queue, no second refresh
      ensures Engages(error, refreshTokenPath) && !TargetsRefreshPath(error, refreshTokenPath)
              && old(isRefreshing) && error.config.Some? ==>
        && step.Done? && step.result.Deferred?
        && step.result.entry !in old(requestQueue.settlements)
        && isRefreshing && calls == old(calls)
        && requestQueue.queue
           == old(requestQueue.queue) + [Entry(step.result.entry, error.config.value.(cancelToken := Some(step.result.entry)))]
        && requestQueue.settlements == old(requestQueue.settlements)[step.result.entry := Pending]
        && requestQueue.cancelReasons == old(requestQueue.cancelReasons)
        && requestQueue.sent == old(requestQueue.sent)
      // otherwise: raise the flag, then issue exactly one refresh POST
      ensures Engages(error, refreshTokenPath) && !TargetsRefreshPath(error, refreshTokenPath)
              && !(old(isRefreshing) && error.config.Some?) ==>
        && step == AwaitingRefresh
        && isRefreshing && calls == old(calls) + [RefreshPost(refreshTokenPath)]
        && unchanged(requestQueue)
    {
      if Engages(error, refreshTokenPath) {
        if TargetsRefreshPath(error, refreshTokenPath) {
          requestQueue.CancelAll(RefreshFailedReason);
          return Done(Threw(Axios(error)));
        }
        if isRefreshing && error.config.Some? {
          var id := requestQueue.Enqueue(error.config.value);
          return Done(Deferred(id));
        }
        isRefreshing := true;
        calls := calls + [RefreshPost(refreshTokenPath)];  // axios.post(refreshTokenPath)
        return AwaitingRefresh;
      }
      return Done(Threw(Axios(error)));
    }

    /**
     * The rest of `onResponseError(error)` once the refresh POST has ended.
     * On success: lower the flag, drain the queue, then retry the original
     * request and return its promise (rethrow the error if it has no config).
     * On failure: lower the flag, cancel the queue, rethrow the refresh error.
     * A failed retry rejects the returned promise without reaching the catch.
     */
    method CompleteRefresh(error: AxiosError, refresh: RefreshOutcome, transport: Config -> Outcome)
      returns (result: HandlerResult)
      requires requestQueue.Valid()
      modifies this, requestQueue
      ensures requestQueue.Valid()
      ensures !isRefreshing
      ensures requestQueue.queue == []
      ensures refresh.Refreshed? ==>
        && requestQueue.settlements
           == UpdateEach(old(requestQueue.settlements), old(requestQueue.queue), Replay(transport))
        && requestQueue.cancelReasons == old(requestQueue.cancelReasons)
        && requestQueue.sent == old(requestQueue.sent) + Configs(old(requestQueue.queue))
        && calls == old(calls) + Sends(Configs(old(requestQueue.queue)))
                    + (if error.config.Some? then [Send(error.config.value)] else [])
        // the replays the hook sends are exactly what the queue records as sent
        && calls == old(calls) + Sends(requestQueue.sent[|old(requestQueue.sent)|..])
                    + (if error.config.Some? then [Send(error.config.value)] else [])
        && result == (if error.config.Some? then ResultOf(transport(error.config.value)) else Threw(Axios(error)))
      ensures refresh.RefreshFailed? ==>
        && requestQueue.settlements
           == UpdateEach(old(requestQueue.settlements), old(requestQueue.queue), Cancellation(CancelReason(refresh.thrown)))
        && requestQueue.cancelReasons
           == UpdateEach(old(requestQueue.cancelReasons), old(requestQueue.queue), CancelledWith(CancelReason(refresh.thrown)))
        && requestQueue.sent == old(requestQueue.sent)
        && calls == old(calls)
        && result == Threw(refresh.thrown)
    {
      if refresh.Refreshed? {
        isRefreshing := false;
        ghost var replayed := Configs(requestQueue.queue);
        requestQueue.ProcessQueue(transport);
        calls := calls + Sends(replayed);
        if error.config.Some? {
          calls := calls + [Send(error.config.value)];
          return ResultOf(transport(error.config.value));  // axios.request(error.config), not awaited
        }
        return Threw(Axios(error));
      } else {
        isRefreshing := false;
        requestQueue.CancelAll(CancelReason(refresh.thrown));
        return Threw(refresh.thrown);
      }
    }

    /**
     * The whole hook when nothing else runs while the refresh POST is
     * outstanding: at most one refresh, and the flag is down again after it.
     */
    method HandleResponseError(error: AxiosError, refresh: RefreshOutcome, transport: Config -> Outcome)
      returns (result: HandlerResult)
      requires requestQueue.Valid()
      modifies this, requestQueue
      ensures requestQueue.Valid()
      ensures Posts(calls) <= old(Posts(calls)) + 1
      ensures Posts(calls) == old(Posts(calls)) + 1 ==> !isRefreshing && requestQueue.queue == []
      // not a 401, or no refresh path: rethrown untouched
      ensures !Engages(error, refreshTokenPath) ==>
        && result == Threw(Axios(error))
        && isRefreshing == old(isRefreshing) && calls == old(calls) && unchanged(requestQueue)
      // the refresh request itself failed with 401: cancel everyone, rethrow, no refresh
      ensures Engages(error, refreshTokenPath) && TargetsRefreshPath(error, refreshTokenPath) ==>
        && result == Threw(Axios(error))
        && isRefreshing == old(isRefreshing) && calls == old(calls)
        && requestQueue.queue == []
        && requestQueue.settlements
           == UpdateEach(old(requestQueue.settlements), old(requestQueue.queue), Cancellation(RefreshFailedReason))
        && requestQueue.cancelReasons
           == UpdateEach(old(requestQueue.cancelReasons), old(requestQueue.queue), CancelledWith(RefreshFailedReason))
        && requestQueue.sent == old(requestQueue.sent)
      // a refresh is in flight: the caller waits in the queue with a pending promise
      ensures Engages(error, refreshTokenPath) && !TargetsRefreshPath(error, refreshTokenPath)
              && old(isRefreshing) && error.config.Some? ==>
        && result.Deferred? && result.entry !in old(requestQueue.settlements)
        && isRefreshing && calls == old(calls)
        && requestQueue.queue
           == old(requestQueue.queue) + [Entry(result.entry, error.config.value.(cancelToken := Some(result.entry)))]
        && requestQueue.settlements == old(requestQueue.settlements)[result.entry := Pending]
        && requestQueue.cancelReasons == old(requestQueue.cancelReasons)
        && requestQueue.sent == old(requestQueue.sent)
      // otherwise one refresh: drain and retry on success, cancel and rethrow on failure
      ensures Engages(error, refreshTokenPath) && !TargetsRefreshPath(error, refreshTokenPath)
              && !(old(isRefreshing) && error.config.Some?) ==>
        && !isRefreshing && requestQueue.queue == []
        && Posts(calls) == old(Posts(calls)) + 1
        && (refresh.Refreshed? ==>
              && requestQueue.settlements
                 == UpdateEach(old(requestQueue.settlements), old(requestQueue.queue), Replay(transport))
              && requestQueue.cancelReasons == old(requestQueue.cancelReasons)
              && requestQueue.sent == old(requestQueue.sent) + Configs(old(requestQueue.queue))
              && result == if error.config.Some? then ResultOf(transport(error.config.value)) else Threw(Axios(error)))
        && (refresh.RefreshFailed? ==>
              && requestQueue.settlements
                 == UpdateEach(old(requestQueue.settlements), old(requestQueue.queue),
                               Cancellation(CancelReason(refresh.thrown)))
              && requestQueue.cancelReasons
                 == UpdateEach(old(requestQueue.cancelReasons), old(requestQueue.queue),
                               CancelledWith(CancelReason(refresh.thrown)))
              && requestQueue.sent == old(requestQueue.sent)
              && result == Threw(refresh.thrown))
    {
      ghost var before := calls;
      var step := OnResponseError(error);
      if step.Done? {
        result := step.result;
      } else {
        RefreshRoundPostsOnce(before, refreshTokenPath, Configs(requestQueue.queue), error.config);
        result := CompleteRefresh(error, refresh, transport);
      }
    }
    /**
     * Single flight: a 401 that starts a refresh, followed, while the
     * refresh POST is outstanding, by further 401s that carry a config. The
     * later callers are all queued, exactly one refresh is issued, and when
     * it ends every queued caller is settled: replayed in arrival order on
     * success, cancelled with the refresh failure's reason otherwise.
     */
    method UnauthorizedBurst(first: AxiosError, waiting: seq<AxiosError>, refresh: RefreshOutcome,
                             transport: Config -> Outcome)
      returns (result: HandlerResult, deferred: seq<nat>)
      requires requestQueue.Valid() && !isRefreshing
      requires Engages(first, refreshTokenPath) && !TargetsRefreshPath(first, refreshTokenPath)
      requires forall i :: 0 <= i < |waiting| ==>
        && Engages(waiting[i], refreshTokenPath)
        && !TargetsRefreshPath(waiting[i], refreshTokenPath)
        && waiting[i].config.Some?
      modifies this, requestQueue
      ensures requestQueue.Valid() && !isRefreshing && requestQueue.queue == []
      ensures Posts(calls) == old(Posts(calls)) + 1
      ensures |deferred| == |waiting|
      ensures forall i :: 0 <= i < |waiting| ==>
        && deferred[i] in requestQueue.settlements
        && requestQueue.settlements[deferred[i]]
           == if refresh.Refreshed?
              then SettlementOf(transport(waiting[i].config.value.(cancelToken := Some(deferred[i]))))
              else Rejected(Canceled(CancelMessage(CancelReason(refresh.thrown))))
      // so is every caller queued before the burst
      ensures forall i :: 0 <= i < |old(requestQueue.queue)| ==>
        && old(requestQueue.queue)[i].id in requestQueue.settlements
        && requestQueue.settlements[old(requestQueue.queue)[i].id]
           == if refresh.Refreshed?
              then SettlementOf(transport(old(requestQueue.queue)[i].config))
              else Rejected(Canceled(CancelMessage(CancelReason(refresh.thrown))))
      // on success the queue is replayed: first what was queued before, then the burst in arrival order
      ensures refresh.Refreshed? ==>
        requestQueue.sent
        == old(requestQueue.sent) + Configs(old(requestQueue.queue) + Arrivals(waiting, deferred))
      ensures refresh.RefreshFailed? ==> requestQueue.sent == old(requestQueue.sent)
      ensures result == if refresh.RefreshFailed? then Threw(refresh.thrown)
                        else if first.config.Some? then ResultOf(transport(first.config.value))
                        else Threw(Axios(first))
    {
      ghost var before := calls;
      StartRefresh(first);
      deferred := QueueWaiting(waiting);
      ghost var q1, s1 := requestQueue.queue, requestQueue.settlements;
      RefreshRoundPostsOnce(before, refreshTokenPath, Configs(q1), first.config);
      result := CompleteRefresh(first, refresh, transport);
      assert requestQueue.settlements == SettledByRefresh(s1, q1, refresh, transport);
      QueuedCallersSettled(s1, old(requestQueue.queue), q1, waiting, deferred, refresh, transport);
    }

    /** A 401 with no refresh in flight and off the refresh path: raise the flag, then issue the refresh POST. */
    method StartRefresh(error: AxiosError)
      requires requestQueue.Valid() && !isRefreshing
      requires Engages(error, refreshTokenPath) && !TargetsRefreshPath(error, refreshTokenPath)
      modifies this, requestQueue
      ensures requestQueue.Valid() && isRefreshing
      ensures calls == old(calls) + [RefreshPost(refreshTokenPath)]
      ensures unchanged(requestQueue)
    {
      var step := OnResponseError(error);
    }

    /** A 401 off the refresh path while a refresh is in flight: queue the caller under a fresh id. */
    method Defer(error: AxiosError) returns (id: nat)
      requires requestQueue.Valid() && isRefreshing && error.config.Some?
      requires Engages(error, refreshTokenPath) && !TargetsRefreshPath(error, refreshTokenPath)
      modifies this, requestQueue
      ensures requestQueue.Valid() && isRefreshing && calls == old(calls)
      ensures id !in old(requestQueue.settlements)
      ensures requestQueue.queue == old(requestQueue.queue) + [Entry(id, error.config.value.(cancelToken := Some(id)))]
      ensures requestQueue.settlements == old(requestQueue.settlements)[id := Pending]
      ensures requestQueue.cancelReasons == old(requestQueue.cancelReasons)
      ensures requestQueue.sent == old(requestQueue.sent)
    {
      var step := OnResponseError(error);
      id := step.result.entry;
    }

    /**
     * The later 401s of a burst, each arriving while the refresh is in
     * flight: all are appended to the queue in arrival order, each with a
     * fresh id whose promise is pending; nothing is sent or cancelled.
     */
    method QueueWaiting(waiting: seq<AxiosError>) returns (deferred: seq<nat>)
      requires requestQueue.Valid() && isRefreshing
      requires forall i :: 0 <= i < |waiting| ==>
        && Engages(waiting[i], refreshTokenPath)
        && !TargetsRefreshPath(waiting[i], refreshTokenPath)
        && waiting[i].config.Some?
      modifies this, requestQueue
      ensures requestQueue.Valid() && isRefreshing && calls == old(calls)
      ensures |deferred| == |waiting|
      ensures requestQueue.queue == old(requestQueue.queue) + Arrivals(waiting, deferred)
      ensures forall j :: 0 <= j < |waiting| ==>
        && deferred[j] !in old(requestQueue.settlements)
        && deferred[j] in requestQueue.settlements && requestQueue.settlements[deferred[j]] == Pending
      ensures forall i, j :: 0 <= i < j < |waiting| ==> deferred[i] < deferred[j]
      ensures forall id :: id in old(requestQueue.settlements) ==>
        id in requestQueue.settlements && requestQueue.settlements[id] == old(requestQueue.settlements)[id]
      ensures requestQueue.cancelReasons == old(requestQueue.cancelReasons)
      ensures requestQueue.sent == old(requestQueue.sent)
    {
      ghost var q0, s0 := requestQueue.queue, requestQueue.settlements;
      deferred := [];
      var i := 0;
      while i < |waiting|
        invariant 0 <= i <= |waiting| && |deferred| == i
        invariant requestQueue.Valid() && isRefreshing && calls == old(calls)
        invariant requestQueue.queue == q0 + Arrivals(waiting[..i], deferred)
        invariant forall j :: 0 <= j < i ==>
          && deferred[j] !in s0
          && deferred[j] in requestQueue.settlements && requestQueue.settlements[deferred[j]] == Pending
        invariant forall id :: id in s0 ==> id in requestQueue.settlements && requestQueue.settlements[id] == s0[id]
        invariant requestQueue.cancelReasons == old(requestQueue.cancelReasons)
        invariant requestQueue.sent == old(requestQueue.sent)
      {
        var id := Defer(waiting[i]);
        ArrivalsSnoc(q0, waiting, deferred, i, id);
        deferred := deferred + [id];
        i := i + 1;
      }
      assert waiting[..i] == waiting;
      ArrivalIdsIncrease(q0, waiting, deferred);
    }
  }
}
