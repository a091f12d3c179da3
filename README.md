# next-netkit core, modelled in Dafny

This project models the core of next-netkit, an authenticated HTTP client built on axios. The core has four parts:

- **Error normaliser** (`ApiError`, with `NetworkErrorParamsModule` and `Json`). `ApiException.fromJson` turns any server error body plus an optional status hint into a status code, a message and a list of sub-messages. It is a total function over a tagged union of body shapes. A getter that raises while a key is read is the way into the `catch` branch.
- **Pending request queue** (`RequestQueueService`). `RequestQueue` is a class whose `queue` field is a `seq` of entries. `Enqueue`, `ProcessQueue` and `CancelAll` change that field step by step, as the source does. Four ghost fields record what cannot be seen from the queue itself: the state of each promise `enqueue` returned (`settlements`), the reason each cancel token was cancelled with (`cancelReasons`), the configs sent to the transport, in order (`sent`), and the ids of the entries in the order they were settled (`settleLog`), which is what "head to tail" in `ProcessQueue` and `CancelAll` is stated over.
- **Refresh coordinator** (`ErrorHandling`). `ErrorHandlingInterceptor` owns the `isRefreshing` flag and the queue. The response-error hook is asynchronous. It is split at its first suspension point, the refresh POST; the awaits inside the drain are not split (see "## Left out"):
  - `OnResponseError` is the synchronous part. It passes the error through, guards the refresh endpoint, queues the caller, or raises the flag and issues the POST.
  - `CompleteRefresh` is the continuation. It drains or cancels the queue, then retries or rethrows.
  - Other failures can be handled between the two. `UnauthorizedBurst` does exactly that and proves the single-flight property: one refresh, and every queued caller settled.
- **Request dispatcher** (`Network`). `NetworkManager` builds the request config by writing `url`, `data`, `method` and `headers` into the caller's config object. The outcome classification for `request`, `requestList` and `requestVoid` is a set of pure functions over the transport outcome.

The transport is abstract in two places:
- Replays and the retry use a function `Config -> Outcome`.
- The refresh POST's outcome and the transport instance's final outcome for a dispatched config (`send`) are inputs.

HTTP 401 is Unauthorized, as defined in section 15.5.2 of RFC 9110.

Some behaviours of the code that the model reproduces as written:
- In the catch branch of `fromJson`, the status is always the hint or 400. An empty string, and an empty first array element, both fall back to the "could not parse" string.
- A 401 that arrives while a refresh is in flight is queued only if it carries a config. Without a config it starts a second refresh (`OnResponseError`, last case).
- No pre-emptive refresh happens before dispatch. The `isTokenRefreshRequired` flag is declared but never read.
- The retry of the original request is returned, not awaited, inside the `try`. A failed retry therefore rejects the caller without cancelling the queue.

## Model

| member | source | states |
|---|---|---|
| `NetworkErrorParamsModule.NewNetworkErrorParams` | src/interfaces/network-error-params.ts:11-38 | every supplied option is stored as given; every omitted option takes its default |
| `NetworkErrorParamsModule.DefaultVocabulary` | src/interfaces/network-error-params.ts:12-17 | the defaults are "message", "status", "Could not parse the error", and "Empty error message" for both the null and the empty body |
| `NetworkErrorParamsModule.NoArgumentIsEmptyOptions` | src/interfaces/network-error-params.ts:29 | constructing with no argument equals constructing with `{}` |
| `NetworkErrorParamsModule.FullOptionsStoredVerbatim` | src/interfaces/network-error-params.ts:30-37 | with every option supplied, the record is exactly those options |
| `ApiError.NewApiException` | src/error/api-exception.ts:9-14 | the constructor stores status code, message and sub-messages |
| `ApiError.NewApiExceptionDefaultsToNoSubMessages` | src/error/api-exception.ts:9 | sub-messages default to empty |
| `ApiError.FromJson` | src/error/api-exception.ts:22-67 | total on every body. Sub-messages come only from an array under the message key. The message is non-empty whenever the fallback strings are. A hint is kept unless the body has its own numeric status. Without a hint the status is 400, 417 or the body's own |
| `ApiError.FromJsonNullBody` | src/error/api-exception.ts:28-30 | a null or undefined body gives the null-body string, the hint or 400, and no sub-messages |
| `ApiError.FromJsonTextBody` | src/error/api-exception.ts:33-36 | a string body is the message if non-empty, else the empty-body string; the hint or 400 |
| `ApiError.FromJsonMessageText` | src/error/api-exception.ts:41-58 | a string under the message key is the message (empty falls back to "could not parse"), with no sub-messages |
| `ApiError.FromJsonMessageArray` | src/error/api-exception.ts:44-58 | an array under the message key becomes the sub-messages; its non-empty first element is the message, else "could not parse" |
| `ApiError.FromJsonMessageUnreadable` | src/error/api-exception.ts:39-58 | any other value under the message key gives "could not parse" and no sub-messages |
| `ApiError.FromJsonObjectStatus` | src/error/api-exception.ts:51-52 | in an object body a numeric status overrides the hint; otherwise the hint, else 400 |
| `ApiError.FromJsonUnparseable` | src/error/api-exception.ts:39-62 | an empty object or array, a number or a boolean gives "could not parse" with the hint or 417 |
| `ApiError.FromJsonCaughtFault` | src/error/api-exception.ts:63-65 | a raising read of either key is caught: "could not parse" with the hint or 400 |
| `Json.KeyCount` | src/error/api-exception.ts:39 | only objects and arrays have keys |
| `Json.Property` | src/error/api-exception.ts:41-52 | a key of an object body reads its value and a key the object lacks reads as missing; any non-object body reads as missing |
| `RequestQueueService.SettlementOf` | src/services/request-queue.service.ts:39-43 | a replayed promise is resolved with the response on success and rejected with the failure otherwise, never left pending |
| `RequestQueueService.CancelMessage` | src/services/request-queue.service.ts:57 | the cancel message is exactly "Request canceled: " followed by the reason |
| `RequestQueueService.RequestQueue.constructor` | src/services/request-queue.service.ts:8-13 | a new queue is empty and has issued no promise |
| `RequestQueueService.RequestQueue.Enqueue` | src/services/request-queue.service.ts:18-29 | exactly one entry is appended at the tail. Its config is the caller's with only the cancel token replaced by a fresh one. Its promise is pending, and earlier entries are unchanged |
| `RequestQueueService.RequestQueue.ProcessQueue` | src/services/request-queue.service.ts:34-46 | ends with the queue empty. Sends the entries head first, in enqueue order. Settles each promise with its own outcome. Nothing else changes |
| `RequestQueueService.RequestQueue.ReplayHead` | src/services/request-queue.service.ts:36-43 | one turn: the head is shifted off, sent, and its promise settled |
| `RequestQueueService.RequestQueue.CancelAll` | src/services/request-queue.service.ts:51-61 | ends with the queue empty. Head to tail, it cancels each token with the reason and rejects each promise with the cancel message. Nothing is sent |
| `RequestQueueService.RequestQueue.CancelHead` | src/services/request-queue.service.ts:53-58 | one turn: the head is shifted off, its token cancelled and its promise rejected |
| `RequestQueueService.ReplaySettlesEach` | src/services/request-queue.service.ts:35-43 | after draining, each drained entry's promise holds the outcome of sending its own config |
| `RequestQueueService.CancellationRejectsEach` | src/services/request-queue.service.ts:52-58 | after cancelling, each cancelled promise is rejected with "Request canceled: " and the reason |
| `RequestQueueService.SettledStaysSettled` | src/services/request-queue.service.ts:35-58 | a promise already settled is never settled again by draining or cancelling |
| `RequestQueueService.PendingGetsSettled` | src/services/request-queue.service.ts:35-58 | every promise pending in the queue is settled by draining or cancelling it |
| `RequestQueueService.EnqueueKeepsValid` | src/services/request-queue.service.ts:18-29 | the appended entry's id is fresh, and appending it with a pending promise keeps the invariant |
| `RequestQueueService.ReplayTurn` | src/services/request-queue.service.ts:36-43 | one replay turn keeps the invariant and leaves unchanged what the rest of the drain will do |
| `RequestQueueService.CancelTurn` | src/services/request-queue.service.ts:53-58 | one cancel turn keeps the invariant and leaves unchanged what the rest of the cancellation will do |
| `RequestQueueService.SettleHeadKeepsValid` | src/services/request-queue.service.ts:36-53 | an entry removed by `shift` is gone for good: its promise is settled and the rest stay pending and queued |
| `RequestQueueService.UpdateEachAt` | src/services/request-queue.service.ts:35-58 | visiting the queue head to tail sets every visited entry's own value |
| `RequestQueueService.UpdateEachElsewhere` | src/services/request-queue.service.ts:35-58 | visiting the queue leaves every id not in it untouched |
| `RequestQueueService.UpdateEachKeys` | src/services/request-queue.service.ts:35-58 | visiting the queue adds exactly the visited ids |
| `ErrorHandling.ResultOf` | src/interceptors/error-handling.interceptor.ts:35 | the returned retry resolves with its response or rejects with its failure |
| `ErrorHandling.CancelReason` | src/interceptors/error-handling.interceptor.ts:40-44 | after a failed refresh, the cancel reason is the error's message if it is an `Error`, else "Token refresh failed" |
| `ErrorHandling.PostsAppend` | src/interceptors/error-handling.interceptor.ts:26-36 | refresh POSTs in a run of calls add up over its parts |
| `ErrorHandling.SendsPostNothing` | src/interceptors/error-handling.interceptor.ts:33-35 | replays and retries issue no refresh |
| `ErrorHandling.RefreshRoundPostsOnce` | src/interceptors/error-handling.interceptor.ts:26-36 | one refresh round (POST, replays, retry) issues exactly one refresh |
| `ErrorHandling.QueuedCallersSettled` | src/interceptors/error-handling.interceptor.ts:21-46 | callers queued behind a refresh, and the entries queued before them, each get their own settlement when it ends: their replay's outcome, or the refresh failure's reason |
| `ErrorHandling.Arrivals` | src/interceptors/error-handling.interceptor.ts:21-24 | the entries a burst of waiting callers is queued as: one per caller, in arrival order, each its own config with only the cancel token replaced |
| `ErrorHandling.ErrorHandlingInterceptor.constructor` | src/interceptors/error-handling.interceptor.ts:4-9 | `isRefreshing` starts false and no call has been made |
| `ErrorHandling.ErrorHandlingInterceptor.OnResponseError` | src/interceptors/error-handling.interceptor.ts:13-30 | a non-401, or no refresh path: rethrown, nothing changes. A 401 on the refresh path: queue cancelled with "Token refresh failed", rethrown, no refresh. Refreshing and a config: enqueued, no refresh. Otherwise: the flag is raised and exactly one refresh POST issued |
| `ErrorHandling.ErrorHandlingInterceptor.CompleteRefresh` | src/interceptors/error-handling.interceptor.ts:30-50 | the flag ends false and the queue empty. On success the queue is replayed, then the original config is retried and its result returned; with no config the error is rethrown. The replays the hook sends are exactly the configs the queue records as sent. On failure the queue is cancelled with the refresh error's reason and the refresh error rethrown |
| `ErrorHandling.ErrorHandlingInterceptor.HandleResponseError` | src/interceptors/error-handling.interceptor.ts:13-51 | the whole hook with nothing interleaved. Not a 401, or no refresh path: rethrown, nothing changes. A 401 on the refresh path: the queue is cancelled with "Token refresh failed" and the error rethrown. Refreshing and a config: `Deferred`, with the caller appended with a pending promise. Otherwise exactly one refresh, after which the flag is down and the queue empty. On success the old queue is replayed in order, each promise gets its own outcome, and the retry's result is returned (the error is rethrown with no config). On failure every queued promise is rejected and every token cancelled with the refresh error's reason, and the refresh error is rethrown |
| `ErrorHandling.ErrorHandlingInterceptor.UnauthorizedBurst` | src/interceptors/error-handling.interceptor.ts:21-46 | single flight: later 401s are queued while the first one refreshes, and exactly one refresh is issued. On success the queue is replayed: the entries queued before, then the burst in arrival order, each with its own token. Every queued caller is settled with its replay's outcome, or rejected with the refresh failure's reason, and then nothing is sent |
| `ErrorHandling.ErrorHandlingInterceptor.QueueWaiting` | src/interceptors/error-handling.interceptor.ts:21-24 | while the flag is up, each 401 with a config is appended after the entries already queued, in arrival order, with its own fresh token. Each gets a fresh id, increasing in arrival order, whose promise is pending. Earlier promises keep their state, no token is cancelled, and nothing is sent |
| `ErrorHandling.ErrorHandlingInterceptor.Defer` | src/interceptors/error-handling.interceptor.ts:21-24 | a 401 with a config, off the refresh path, while the flag is up: appended to the queue under an id never used before, with its own token and a pending promise. The flag stays up, no call is made, no token is cancelled, nothing is sent |
| `ErrorHandling.ErrorHandlingInterceptor.StartRefresh` | src/interceptors/error-handling.interceptor.ts:26-30 | a 401 off the refresh path with the flag down: the flag is raised and exactly one refresh POST to the refresh path is issued; the queue is untouched |
| `Network.Prepared` | src/network-manager.ts:94-98 | the dispatched config keeps the caller's other fields and has `url`, `data`, `method` and `headers` overwritten |
| `Network.Rethrown` | src/network-manager.ts:106-111 | a failure with a response becomes `fromJson(data, errorParams, status)`; any other is rethrown unchanged |
| `Network.RequestOutcome` | src/network-manager.ts:100-111 | succeeds exactly on a non-array body and returns it. An array body fails with (400, "Response is not an object"), not normalised. Failures go through the catch |
| `Network.RequestListOutcome` | src/network-manager.ts:134-146 | succeeds exactly on an array body and returns its items. Any other body fails with (400, "Response is not a list") |
| `Network.RequestVoidOutcome` | src/network-manager.ts:169-176 | succeeds exactly when the call succeeds; failures go through the catch |
| `Network.RequestAndListPartitionBodies` | src/network-manager.ts:100-140 | on a successful call exactly one of `request` and `requestList` succeeds |
| `Network.OperationsAgreeOnFailure` | src/network-manager.ts:106-176 | on a failed call the three operations throw the same value |
| `Network.ServerFailureIsNormalised` | src/network-manager.ts:107-108 | a failure with a response is an `ApiException` carrying the response status unless the body names its own |
| `Network.TransportFailureIsRethrown` | src/network-manager.ts:106-111 | a failure without a response is rethrown unchanged by all three operations |
| `Network.ArrayBodyIsNotAnObject` | src/network-manager.ts:102-104 | `request` on `[{"id": 1}]` fails with (400, "Response is not an object") |
| `Network.MessageTakenFromBody` | tests/network-manager.test.ts:94-113 | a 400 with body `{message: "error"}` surfaces as an `ApiException` with message "error" |
| `Network.NetworkManager.constructor` | src/network-manager.ts:39-68 | options stored. The instance's base URL is `devBaseUrl` in test mode, else `baseUrl`. Credentials default to true. A fresh coordinator with its flag down owns a fresh, empty queue |
| `Network.NetworkManager.GetHeaders` | src/network-manager.ts:77-81 | exactly the base options' headers, empty when there are none |
| `Network.NetworkManager.PrepareConfig` | src/network-manager.ts:94-98 | the caller's config object, or a fresh one when none is given, is updated in place to the prepared config |
| `Network.NetworkManager.Request` | src/network-manager.ts:83-112 | the caller's config object, when given, is left holding the prepared config. The result is the classification of the outcome of sending the prepared config |
| `Network.NetworkManager.RequestList` | src/network-manager.ts:117-147 | the caller's config object, when given, is left holding the prepared config. The result is the list classification of the outcome of sending the prepared config |
| `Network.NetworkManager.RequestVoid` | src/network-manager.ts:152-177 | the caller's config object, when given, is left holding the prepared config. The result is the void classification of the outcome of sending the prepared config |

## Left out

- axios itself is not modelled: `axios.create`, registering the hook on the instance, `axios.post`, `axios.request` and `CancelToken.source`. Outcomes are inputs or an abstract `Config -> Outcome` function. A cancel token is a number naming its source, and its cancelled state is a ghost map.
- Promises are modelled as recorded settlements, and a queued caller's promise as `Deferred`. The dispatcher takes the instance's final outcome as an input. It does not compose that outcome from the hook, because a queued caller's outcome is only known once the queue is drained.
- Interleaving is modelled only at the refresh POST. Arrivals during `processQueue`'s own awaits are not modelled. The flag is already down then, so they would start a new refresh, and a failed one could cancel the rest of the queue mid-drain.
- Pre-emptive refresh (`isTokenRefreshRequired`) is not modelled. It is declared in src/network-manager.interface.ts and never read.
- The request method string is opaque. src/enums/request-method.enum.ts is not part of this model.
- Dependency-injection decorators, module re-exports and the unused `NetKitConfig` interface are glue.
- `noInternetError`, `notMapTypeError` and `jsonUnsupportedObjectError` are stored fields only, because no logic reads them.
- `Json.Property` reads only `length` on a top-level array body. A configured key that is an array index ("0", "1", …) would read an element in the source, and inherited properties of objects are not modelled either.
- Numbers are integers. Array elements under the message key are strings only.
- Bodies are one level deep: inside an object body, a nested object, `null`, a boolean or an array of non-strings is the single value `VOther`, and an array body's elements are kept only as such values. So `Request` and `RequestList` return this abstraction of the body, not the body itself.
- A getter is taken to return the same value on every read.
- A thrown `null` or `undefined`, which would make `error.response` itself raise in the dispatcher's catch, is not modelled.
- Stale tests are not followed: token setters and token headers that the source lacks, and `request` expected to return an array body.
