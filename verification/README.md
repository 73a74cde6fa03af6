# FreightFlow: verified concurrency

FreightFlow holds shipments, payments and their announcements together without locks: conditional updates
in MongoDB, reservations and counters in Redis, transactions, a retry queue, and a browser client that
refreshes its session and resends requests. This project models those protocols and proves what they keep,
for any number of requests, workers, sockets and browser calls, interleaved in any order.

## How it is built

Every protocol has a machine: a value `State` or `World`, an `Action` per atomic operation (one
`findOneAndUpdate`, one Redis command, one transaction commit, one stretch of JavaScript between two
awaits), and a total function `Step`; an action that is not enabled changes nothing. `Run` folds `Step` over
a list of actions, so a statement about `Run(EMPTY, acts)` for all `acts`, or about `Reachable(w)`, is a
statement about every interleaving, including crashes, aborts and lost answers where actions for them exist.

Beside each machine stands the code in its own form: a class whose fields are the variables, documents or keys
that the source changes in place, and whose methods carry the source's branches. Every method is proved to take
exactly the step of the machine (`View() == Step(old(View()), action)`), loops against functions of their
input. The theorems then are about the machine.

| files | part of the system |
|---|---|
| `Client`, `ClientProofs`, `ClientTheorems`, `ClientAnswers`, `AxiosInstance` | CSRF token, refresh queue and retries of the browser client |
| `Rotation`, `AuthController`, `Session`, `SessionTheorems` | refresh-token rotation, alone and together with the client |
| `Idempotency`, `IdempotencyProofs`, `IdempotencyMiddleware` | Idempotency-Key reservation and replay |
| `Lifecycle` (also module `ShipmentEvents`), `LifecycleProofs`, `LifecycleTheorems`, `LifecycleAccess`, `ShipmentControllers` | create, assign, advance, cancel |
| `Payments`, `PaymentProofs`, `PaymentTheorems`, `PaymentAccess`, `PaymentController` | initiate and confirm as snapshot transactions |
| `Outbox`, `OutboxProofs`, `OutboxWorker`, `OutboxJob`, `Recovery` | claim, emit, publish; queue retries; sweep and drain |
| `Analytics`, `AnalyticsCache`, `AnalyticsCacheProofs`, `AnalyticsService` | dashboard figures and their cache |
| `RateLimit`, `RateLimiter` | fixed-window rate limiting |
| `Rooms`, `SocketService`, `Cookies`, `Pagination` | shipment rooms, handshake cookies, paging |

## Where the code promises less than it seems to

Each of these is a lemma with a concrete run, next to the lemma that says exactly when the promise holds.

- `published` is not terminal when the publishing write is applied but its acknowledgement is lost: the catch block
  overwrites it with `failed`, and the event is announced again (`LostAckRepeatsEmission`, `PublishedIsLeftOnlyBy`).
- A worker that dies after its claim, does not learn of it, or cannot record its failure leaves the event in
  `processing` for ever; the queue may even count its job as completed (`OrphansStayOrphaned`, `JobOutcome`,
  `LostClaimCompletes`).
- A job id that the queue still retains blocks the sweep for that event, and a hundred such events starve every younger
  one for as long as the ids are retained (`BlockedBatchStarves`, `StarvationHappens`); with fewer, an event whose own id
  is free is served within a bound (`EventIsServed`). Failed audit and notification jobs are retried by the recovery,
  failed outbox jobs are not.
- The `previousStatus` of an administrator's cancellation can be older than the true one (`AdminPreviousCanBeStale`).
- If an idempotency reservation expires under a running handler, a second handler runs, and the failure of the first
  deletes the reservation of the second (`LateExpiryAdmitsTwo`, `ExclusiveIffEntriesStand`). Keys of different requests
  can coincide when a URL contains a colon (`ColonCollision`).
- A dashboard built before a write and stored after that write's invalidation stays until it expires (`LateStoreStaysStale`).
- Two refreshes that look the same token up before either saves both succeed, and the first caller's new token is dead
  on arrival (`EarlyRefreshesBothSucceed`).
- A refresh whose answer does not arrive ends the session, and so does one that the browser has given up and that saves
  its token later (`LostAnswerLocksOut`, `LateSaveLocksOut`, both reached by the runs of `LossesAreReachable`). Which
  runs lock the browser out is `LockedOutExactly`.
- Deactivating a user is documented to force a new login (src/controllers/adminController.js:405-407), but a login that
  had read the user while active, or a refresh that had looked the token up, stores a token over the cleared one, which
  works after reactivation (`LoginOutlivesDeactivation`, `RefreshOutlivesDeactivation`, from worlds that
  `RacesAreReachable` shows to be reachable). These two are the only exceptions (`ClearedMeansLoggedOut`).
- A client that joins a shipment's room under another spelling of its id is told that it has joined, and hears nothing
  (`HeardUnderStoredSpelling`, `DeafJoinHappens`).
- Two adjacent rate-limit windows can admit twice the maximum within one window length, or one less where a key outlives
  its deadline (`BoundIsReached`, `ShortBoundIsReached`).
- The cookie parser loses a cookie named `__proto__` (`RoundTrip`).

## Model

| member | source | states |
|---|---|---|
| ClientTheorems.QueueIsServed | client/src/api/axiosInstance.js:91-179 | In every reachable client state waiters imply a refresh, the refresh has exactly one leader, and the queue lists exactly the waiting calls, each once |
| ClientTheorems.CycleEndReleasesAll | client/src/api/axiosInstance.js:94-103 | The end of a cycle resends every waiter and the leader, or rejects them all, empties the queue, and moves no other call |
| ClientTheorems.RefreshIsSingleFlight | client/src/api/axiosInstance.js:151-177 | At most one refresh call is under way, and it is the leader's |
| ClientTheorems.CyclesAtMostRequests | client/src/api/axiosInstance.js:151-177 | N application requests run at most N refresh cycles |
| ClientTheorems.SendsAreBounded | client/src/api/axiosInstance.js:106-179 | Whatever the server answers, each of N requests is sent at most N + 2 times and each refresh call at most twice |
| ClientTheorems.StepUsesWork | client/src/api/axiosInstance.js:106-179 | Every enabled step lowers a measure built from the cycles left, the phases and the fetches |
| ClientTheorems.RunsAreBounded | client/src/api/axiosInstance.js:106-179 | A run of enabled steps for N requests has at most 12 N² + 42 N of them |
| ClientTheorems.UnsettledCallsProgress | client/src/api/axiosInstance.js:106-179 | While a call is unsettled some step is enabled on its behalf; with the bound, every issued call settles |
| ClientTheorems.AtMostOneExecution | client/src/api/axiosInstance.js:33-39 | All attempts of one call carry the same Idempotency-Key, exactly the listed mutations carry one, and every resend follows a refusal |
| ClientTheorems.ControllerRunsAtMostOnce | client/src/api/axiosInstance.js:73-123 | Of all attempts of one call at most the last passes the CSRF check and authentication, so its controller runs at most once |
| ClientTheorems.ResolvedMeansSucceeded | client/src/api/axiosInstance.js:106-179 | A settled call is resolved exactly if its last answer was a success |
| ClientAnswers.AttemptsCarryTokens | client/src/api/axiosInstance.js:73-79 | In every run every attempt of an unsafe request carries a token that a successful CSRF fetch has brought, and no attempt of a safe one carries any |
| ClientAnswers.InterceptedCallsAreSent | client/src/api/axiosInstance.js:43-87 | Whatever happens between interceptor and send: a call that found a cached token is sent with that one; one that found none waits for one fetch shared by all, and is sent with what it brings, or rejected unsent if it fails |
| ClientAnswers.AnswerIsHandled | client/src/api/axiosInstance.js:106-168 | In every reachable state: a success resolves; the first CSRF refusal in a call's history is tried again with a new token, no second one; a 401 makes a request that has not led a refresh join or lead one, never the one that asks who is logged in; everything else rejects |
| ClientAnswers.LoginPageIsForLostSessions | client/src/api/axiosInstance.js:133-172 | In every run the login page has been opened if and only if a refresh was answered 401, a request that had led a refresh was, or a cycle ended with a failed refresh |
| AxiosInstance.QueueThenLeader | client/src/api/axiosInstance.js:94-103 | Draining the queue and then waking the leader wakes exactly both, once |
| AxiosInstance.EndIsRelease | client/src/api/axiosInstance.js:164-177 | The end of a cycle in the machine is: queue and leader woken, queue emptied, no refresh under way, login page on failure |
| AxiosInstance.AxiosClient.EnsureCsrfToken | client/src/api/axiosInstance.js:43-59 | Cached token, shared promise, or one new fetch |
| AxiosInstance.AxiosClient.ClearCsrfToken | client/src/api/axiosInstance.js:61-67 | Only the cached token is forgotten |
| AxiosInstance.AxiosClient.RequestInterceptor | client/src/api/axiosInstance.js:73-87 | The interceptor up to its await takes the machine's step |
| AxiosInstance.AxiosClient.SendRequest | client/src/api/axiosInstance.js:73-87 | Sends with token and key, the key generated once per call, or rejects after a failed token fetch |
| AxiosInstance.AxiosClient.CsrfAnswered | client/src/api/axiosInstance.js:43-59 | A token fetch's answer stores the token |
| AxiosInstance.AxiosClient.CsrfFinally | client/src/api/axiosInstance.js:43-59 | The shared promise is released after the fetch |
| AxiosInstance.AxiosClient.Finish | client/src/api/axiosInstance.js:125-149 | Settles the call, with or without going to the login page |
| AxiosInstance.AxiosClient.RetryCsrf | client/src/api/axiosInstance.js:114-121 | Forgets the token and waits for the shared promise |
| AxiosInstance.AxiosClient.JoinFailedQueue | client/src/api/axiosInstance.js:151-158 | A 401 during a refresh joins the queue |
| AxiosInstance.AxiosClient.LeadRefresh | client/src/api/axiosInstance.js:160-169 | A 401 outside a refresh makes the call the leader and issues its refresh call |
| AxiosInstance.AxiosClient.OnResponse | client/src/api/axiosInstance.js:106-164 | The response interceptor's branches, in their order, take the machine's step |
| AxiosInstance.AxiosClient.ResumeAfterCsrf | client/src/api/axiosInstance.js:114-123 | A CSRF retry goes out again exactly if the new token came |
| AxiosInstance.AxiosClient.ProcessQueue | client/src/api/axiosInstance.js:94-103 | The loop wakes every queued call once and empties the queue |
| AxiosInstance.AxiosClient.SettleRefresh | client/src/api/axiosInstance.js:164-177 | try, catch and finally of the leader in one stretch |
| AxiosInstance.AxiosClient.FinishRefresh | client/src/api/axiosInstance.js:164-177 | The end of the leader's cycle takes the machine's step |
| Rotation.HolderIsUnique | src/controllers/authController.js:243-246 | At most one user stores a token, so the lookup has one answer |
| Rotation.NeverStoredAgain | src/controllers/authController.js:272-279 | A token once issued and not stored is never stored again, whatever logins, logouts and refreshes follow |
| Rotation.ReplacedTokenIsRefused | src/controllers/authController.js:243-258 | A replaced token is refused with 401 by every later lookup |
| Rotation.SaveUsesTokenUp | src/controllers/authController.js:272-279 | After a refresh's save its presented token is dead, whatever raced with it, and its new token is stored |
| Rotation.LateRefreshIsRefused | src/controllers/authController.js:243-279 | No refresh that looks a token up after another one used it can succeed, however much later |
| Rotation.EarlyRefreshesBothSucceed | src/controllers/authController.js:243-279 | Two lookups of one token before either save both succeed, and the first new token is dead on arrival |
| Rotation.DeactivationClears | src/controllers/adminController.js:428-439 | Deactivating an active user clears the stored token |
| Rotation.ClearedMeansLoggedOut | src/controllers/adminController.js:405-439 | A user whose token was cleared stays without one until a new login reads the user, whatever else happens, if and only if neither a refresh nor a login of that user was between its read and its save |
| Rotation.LoginOutlivesDeactivation | src/controllers/authController.js:150-170 | From every reachable world with the user active: a login reads, the user is deactivated, the login saves; after reactivation that token is accepted and rotated without a new login |
| Rotation.RefreshOutlivesDeactivation | src/controllers/authController.js:243-279 | Likewise for a refresh that looked the token up before the deactivation |
| Rotation.RacesAreReachable | src/controllers/authController.js:141-172 | Active users without and with a stored token are reachable from the empty world, so both of these runs exist |
| Rotation.InactiveIsShutOut | src/controllers/authController.js:157-164 | Along every run without a reactivation: every login of the inactive user with the right password, and every lookup that finds the user, is refused with 403, and if no request of the user was between read and save, the user never stores a token |
| Rotation.LoginIsAnswered | src/controllers/authController.js:152-164 | 401 exactly for wrong credentials, 403 exactly for right ones of an inactive user; only an active user with the right password goes on |
| Rotation.LookUpIsAnswered | src/controllers/authController.js:233-270 | 401 exactly for a token that nobody stores or none at all, 403 exactly for an inactive user's; only the active holder goes on |
| Rotation.SessionsEnd | src/controllers/authController.js:199-203 | In every reachable world a step takes a user's token away exactly if it is that user's logout, deactivation while active, or save of another login or refresh |
| Rotation.LostTokenIsDead | src/controllers/authController.js:243-258 | A token that its user has lost in one of these ways is refused with 401 by every later lookup |
| Rotation.AnswersAreFinal | src/controllers/authController.js:229-282 | An answered or failed login or refresh saves nothing any more, along every run |
| AuthController.Controller.GenerateRefreshToken | src/controllers/authController.js:41-46 | The new token was never issued before and nobody stores it |
| AuthController.Controller.ReadForLogin | src/controllers/authController.js:150-164 | The refusals of login, in their order, with their status codes; activity is that of the user as read |
| AuthController.Controller.SaveLogin | src/controllers/authController.js:166-172 | The rest of login, after any other steps: the single slot is overwritten with the token handed out, active or not by then |
| AuthController.Controller.LogOut | src/controllers/authController.js:199-206 | Logout clears the slot |
| AuthController.Controller.UpdateUserStatus | src/controllers/adminController.js:418-448 | A conditional update: changes nothing for a user already in that state, and clears the token on deactivation |
| AuthController.Controller.LookUpToken | src/controllers/authController.js:229-270 | The refusals of refresh, in their order, with their status codes |
| AuthController.Controller.SaveRotated | src/controllers/authController.js:272-281 | The slot gets the new token, which the answer sets as the cookie |
| Session.OnePending | client/src/api/axiosInstance.js:151-177 | In the combined system at most one refresh call awaits its answer |
| SessionTheorems.StepAlive | src/controllers/authController.js:243-281 | A step leaves the browser able to hold the stored token again exactly if it was able to before and the step is not one of three: giving up the awaited refresh, or a failure of its save, while the cookie is not the stored token; a save of a refresh given up earlier, with no awaited one about to save over it |
| SessionTheorems.LockedOutExactly | client/src/api/axiosInstance.js:17-21 | After every run, with any calls given up at any point: the cookie is never the stored token again, in any continuation, if and only if one of these steps occurred |
| SessionTheorems.EveryRefreshIsAccepted | src/controllers/authController.js:243-279 | Along every run without such a step, every lookup of an awaited call presents exactly the stored token and is accepted; none is refused unless the browser had given it up |
| SessionTheorems.RepliesArriveAsSent | client/src/api/axiosInstance.js:130-137 | A rotation resolves the refresh and sets its token as the cookie; a refusal leaves the cookie and rejects it, and opens the login page if it is a 401 |
| SessionTheorems.LockedOutIsRefused | src/controllers/authController.js:243-258 | After such a step every lookup answers 401, along every continuation |
| SessionTheorems.LostAnswerLocksOut | src/controllers/authController.js:272-281 | After every run, if a call is given up whose save is done, then along every continuation the browser keeps its dead token, no awaited refresh is accepted, and every lookup answers 401 |
| SessionTheorems.LateSaveLocksOut | src/controllers/authController.js:272-281 | A call given up before its save has locked nothing; once it saves, the browser is locked out along every continuation |
| SessionTheorems.LossesAreReachable | client/src/api/axiosInstance.js:106-168 | Concrete runs of one request lead to both situations |
| IdempotencyProofs.OneHolderPerKey | src/middlewares/idempotency.js:45-76 | At most one request per key is between reservation and release |
| IdempotencyProofs.OneSuccessPerLifetime | src/middlewares/idempotency.js:45-76 | Within one lifetime of a key at most one handler run ends in 2xx |
| IdempotencyProofs.GuardAlongRuns | src/middlewares/idempotency.js:18-31 | In every run a request goes to its handler unguarded if and only if it came without a key where none is required, and is refused with 400 if and only if it came without one where it is required, or with one of more than 128 characters |
| IdempotencyProofs.HandlersAreReserved | src/middlewares/idempotency.js:45-60 | In every run a guarded handler that runs, has answered or is done had reserved its key, absent until then, before |
| IdempotencyProofs.ClientsGetTheHandlersAnswer | src/middlewares/idempotency.js:59-78 | In every run a guarded request that is done carries the status and body of a logged handler run of its key |
| IdempotencyProofs.NoneUnguarded | src/middlewares/idempotency.js:18-25 | Where every route requires a key no request is unguarded |
| IdempotencyProofs.ArrivalIsAnswered | src/middlewares/idempotency.js:18-43 | A processing key is answered 409, a completed one with the stored answer, a new one goes on to the reservation; no arrival changes an entry |
| IdempotencyProofs.ReservationIsAnswered | src/middlewares/idempotency.js:45-57 | A reservation is made exactly if the key has no entry, and leads to the handler exactly if the request learns of it; otherwise 409 and nothing changes |
| IdempotencyProofs.ReplaysAreFaithful | src/middlewares/idempotency.js:35-40 | Every replay returns status and body of a successful run of that key and lifetime |
| IdempotencyProofs.OnlyTheHolderReleases | src/middlewares/idempotency.js:54-72 | Apart from expiry, an entry changes only by the release of the one request that holds it |
| IdempotencyProofs.SuccessIsReplayed | src/middlewares/idempotency.js:33-75 | A stored success is replayed word for word to the next request |
| IdempotencyProofs.FailureIsRetried | src/middlewares/idempotency.js:59-75 | A failure frees the key, and the next request runs the handler |
| IdempotencyProofs.ExclusiveIffEntriesStand | src/middlewares/idempotency.js:45-57 | From the end of any run, untimely ones included: no key ever has two holders again, as long as no further entry expires under a holder, if and only if none has two now and every held key still has its entry |
| IdempotencyProofs.LateExpiryAdmitsTwo | src/middlewares/idempotency.js:45-72 | If the entry expires under its holder a second handler runs, and the first's failure deletes the second's reservation |
| IdempotencyProofs.KeysAgreeExactly | src/middlewares/idempotency.js:10-16 | Two requests share a key exactly if user, method, URL and header agree, or a colon shifts between URL and header |
| IdempotencyProofs.ColonCollision | src/middlewares/idempotency.js:13-16 | Such a pair of different requests exists |
| IdempotencyMiddleware.Middleware.LookUp | src/middlewares/idempotency.js:20-43 | Header checks and lookup take the machine's step |
| IdempotencyMiddleware.Middleware.ReserveKey | src/middlewares/idempotency.js:45-56 | SET NX and its conflict answer take the machine's step |
| IdempotencyMiddleware.Middleware.Json | src/middlewares/idempotency.js:59-66 | The handler's answer is logged and its release begun |
| IdempotencyMiddleware.Middleware.StoreOrDelete | src/middlewares/idempotency.js:68-74 | 2xx is stored, anything else deletes the key |
| LifecycleTheorems.HistoriesAreLegal | src/controllers/driverController.js:16-20 | Every reachable shipment has a legal history ending in its status, a driver exactly if `assigned` occurs, and the driver's signature on every driver-made entry |
| LifecycleTheorems.ExactHistories | src/controllers/adminController.js:210-313 | The histories that happen are exactly the non-empty prefixes of pending, assigned, picked_up, in_transit, delivered, optionally followed by one cancelled |
| LifecycleTheorems.NothingIsRewritten | src/controllers/adminController.js:210-230 | Along every run histories and recorded events are only appended to, the shipper never changes, and a driver once set stays |
| LifecycleTheorems.EventsMatchHistory | src/services/shipmentEventService.js:15-166 | Every recorded event announces one entry of its shipment, shares it with no other event, and reports the entry just before it; an administrator's cancellation some earlier one |
| LifecycleTheorems.EveryEntryIsAnnouncedOnce | src/controllers/shipmentController.js:39-59 | Once no request is between its update and its event write and none died there, every entry has exactly one event |
| LifecycleTheorems.UnannouncedEntryHasACulprit | src/controllers/driverController.js:172-206 | An entry without an event is owed by exactly one request, alive or dead |
| LifecycleTheorems.AdminPreviousIsExact | src/controllers/adminController.js:289-326 | The previousStatus of an administrator's cancellation is the entry before it if and only if no update of the shipment committed between the request's read and its cancellation |
| LifecycleTheorems.AdminPreviousCanBeStale | src/controllers/adminController.js:289-326 | A reachable run in which it is wrong |
| LifecycleAccess.EveryEntryIsSigned | src/controllers/shipmentController.js:199-222 | In every run each entry of each history is signed by a user who asked for just that: creation, assignment, that status, cancellation as shipper or as administrator |
| LifecycleAccess.ShippersCancelTheirOwn | src/controllers/shipmentController.js:185-232 | In every run a cancellation announced as the shipper's, recorded or owed, is the shipment's last entry, signed by its own shipper |
| LifecycleAccess.StrangersAreRefused | src/controllers/shipmentController.js:185-192 | A cancellation by another shipper, or a report by another driver, is answered 403 for good and changes nothing |
| LifecycleAccess.AnswersHaveReasons | src/controllers/driverController.js:132-199 | In every run a request is answered 400, 403, 404, 409, 200 or 500 if and only if the reason for that code held when it took one of its steps |
| LifecycleAccess.UpdateIsAnswered | src/controllers/shipmentController.js:206-228 | In every run a conditional update is made exactly if the shipment's status still permits it; otherwise nothing changes and the answer is 409 for an administrator, 400 for the others |
| LifecycleAccess.AssignmentIsAnswered | src/controllers/adminController.js:210-242 | An assignment is made exactly for a pending shipment; otherwise the second read tells 404 from 409 |
| LifecycleAccess.SuccessMeansRecorded | src/controllers/shipmentController.js:230-255 | In every run an answer 200 is that of a request whose event is recorded |
| ShipmentControllers.Store.FindOneAndUpdate | src/controllers/adminController.js:210-230 | A conditional update: matched exactly if the document exists and fits the filter; then that document alone is replaced |
| ShipmentControllers.Store.CreateShipment | src/controllers/shipmentController.js:23-56 | Insertion with the first history entry |
| ShipmentControllers.Store.AssignDriverTo | src/controllers/adminController.js:210-230 | Assigns only a pending shipment, in one conditional update |
| ShipmentControllers.Store.ExplainAssignMiss | src/controllers/adminController.js:232-241 | A missed assignment is 404 or 409 by a second look |
| ShipmentControllers.Store.ReadShipmentForStatus | src/controllers/driverController.js:118-168 | The checks of a status update, in their order |
| ShipmentControllers.Store.UpdateShipmentStatus | src/controllers/driverController.js:172-200 | Compare-and-set on driver and status |
| ShipmentControllers.Store.ReadShipmentForCancel | src/controllers/shipmentController.js:169-205 | The checks of the shipper's cancellation |
| ShipmentControllers.Store.CancelShipment | src/controllers/shipmentController.js:206-229 | Cancels only while still pending and still the shipper's |
| ShipmentControllers.Store.ReadShipmentForAdminCancel | src/controllers/adminController.js:277-297 | The administrator's read and check |
| ShipmentControllers.Store.CancelShipmentAsAdmin | src/controllers/adminController.js:299-321 | Cancels whatever is not cancelled yet |
| ShipmentControllers.Store.WriteOwedEvent | src/services/outboxService.js:7-29 | The event write, apart from the shipment update |
| PaymentTheorems.PaymentMirror | src/controllers/paymentController.js:77-109 | A shipment is `unpaid` exactly if it has no payment; otherwise it has one and mirrors its status |
| PaymentTheorems.SecondWriteAlwaysMatches | src/controllers/paymentController.js:198-219 | The mirror's update inside a transaction always matches: the error thrown there is unreachable |
| PaymentTheorems.FinalStays | src/controllers/paymentController.js:177-204 | `paid` and `failed` are terminal, amount and shipment included |
| PaymentTheorems.ResponseIsCommitted | src/controllers/paymentController.js:87-133 | The payment a successful response carries is the committed document, whatever was retried |
| PaymentTheorems.RevenueConserved | src/controllers/paymentController.js:177-204 | A step grows the revenue by exactly the amount of the payment it turns from pending to paid, and by nothing else |
| PaymentTheorems.RevenueIsWhatWasEarned | src/services/analyticsService.js:24-27 | Over a run the revenue is the sum of what its commits earned |
| PaymentTheorems.LoneConfirmSucceeds | src/controllers/paymentController.js:136-243 | An undisturbed confirmation settles payment and shipment |
| PaymentTheorems.LoneInitiateSucceeds | src/controllers/paymentController.js:34-118 | An undisturbed initiation creates the pending payment and its mirror |
| PaymentAccess.OwnersConfirm | src/controllers/paymentController.js:157-200 | In every run a step that makes a payment paid or failed commits a confirmation asked for, with just that outcome, by the payment's own shipper, who is the shipment's |
| PaymentAccess.OwnersInitiate | src/controllers/paymentController.js:66-110 | In every run a step that adds a payment commits an initiation asked for, with just that amount of at least 0.01, by the shipment's own shipper |
| PaymentAccess.StrangersAreRefused | src/controllers/paymentController.js:157-164 | A confirmation by anybody but the owner is answered 403 for good and changes nothing |
| PaymentAccess.AnswersHaveReasons | src/controllers/paymentController.js:137-235 | In every run a payment request is answered with a code if and only if the reason for that code held when it took one of its steps |
| PaymentAccess.LateConfirmationFails | src/controllers/paymentController.js:188-206 | In every run a confirmation's first write fails exactly if the payment of its snapshot is no longer pending |
| PaymentAccess.CommitIsAnswered | src/controllers/paymentController.js:175-222 | A conflict changes nothing and starts the callback again; otherwise both writes are committed, and 200 or 201 with the payment is answered exactly if the commit is acknowledged |
| PaymentController.Store.StartInitiate | src/controllers/paymentController.js:34-75 | Validation and ownership checks of initiate |
| PaymentController.Store.RefuseSecondPayment | src/controllers/paymentController.js:77-85 | 409 for a shipment that already has a payment |
| PaymentController.Store.StartConfirm | src/controllers/paymentController.js:136-173 | The checks of confirm, in their order |
| PaymentController.Store.BeginTransaction | src/controllers/paymentController.js:87-90 | The callback starts on a snapshot with no writes |
| PaymentController.Store.WritePaymentInTxn | src/controllers/paymentController.js:177-197 | First write: insert the payment or move it out of pending |
| PaymentController.Store.WriteShipmentInTxn | src/controllers/paymentController.js:198-219 | Second write: the shipment's mirror |
| PaymentController.Store.CommitTransaction | src/controllers/paymentController.js:87-109 | Commit exactly if no written document changed and the unique index holds |
| PaymentController.Store.AbortTransaction | src/controllers/paymentController.js:177-219 | Abort, with or without another run of the callback |
| OutboxProofs.ClaimIsExclusive | src/jobs/outboxJobs.js:58-77 | At most one live run works on an event, only while it is claimed |
| OutboxProofs.AttemptsAreAccounted | src/jobs/outboxJobs.js:55-112 | attempts = recorded failures + 1 if processing or published; emission rounds never exceed attempts; published implies notified |
| OutboxProofs.OneNotificationJob | src/jobs/outboxJobs.js:41-53 | The queue never holds two notification jobs of one event |
| OutboxProofs.PublishedIsLeftOnlyBy | src/jobs/outboxJobs.js:98-110 | An event leaves `published` if and only if a run whose publishing write was reported as failed records that failure |
| OutboxProofs.PublishedIsTerminal | src/jobs/outboxJobs.js:83-92 | Where acknowledgements of publishing writes arrive, `published` is terminal |
| OutboxProofs.LostAckRepeatsEmission | src/jobs/outboxJobs.js:79-110 | One lost acknowledgement of a publishing write makes any claimable event published, and then claimed and announced once more |
| OutboxProofs.OrphansStayOrphaned | src/jobs/recoveryJobs.js:11-14 | An event left in processing without a live run stays so for ever, untouched |
| OutboxProofs.LiveRunCanPublish | src/jobs/outboxJobs.js:79-97 | A claimed event is published by its run's remaining steps if they succeed |
| OutboxProofs.FailureWaitsAMinute | src/jobs/outboxJobs.js:98-110 | A recorded failure makes the event claimable and, whatever happens then, not available within the next minute |
| OutboxProofs.InsertionIsKept | src/services/outboxService.js:6-29 | Along every run an event keeps its creation time and its purpose, and is available from its insertion until its first failure |
| OutboxProofs.NotificationsAreWanted | src/jobs/outboxJobs.js:41-53 | In every reachable world only events that carry a notification have, or ever had, a notification job |
| OutboxProofs.ClaimsAreAnswered | src/jobs/outboxJobs.js:58-77 | A claim is made exactly if it is applied to a claimable event, and its run goes on exactly if it learns of that |
| OutboxProofs.ErrorsAreCaught | src/jobs/outboxJobs.js:79-112 | An exception or an unanswered command leads to the catch block and nowhere else |
| OutboxWorker.TryBlockMeans | src/jobs/outboxJobs.js:79-97 | The try block ends the run exactly if it is told that it published; what it leaves, for writes refused, applied, or applied and reported as failed |
| OutboxWorker.HandleMeans | src/jobs/outboxJobs.js:55-112 | What one undisturbed run of the handler does to its event, its job and everything else, for every combination of refused commands, lost acknowledgements and exceptions |
| OutboxWorker.OutcomesTell | src/jobs/outboxJobs.js:66-112 | Done only for an event just published, skipped only with nothing to claim and nothing changed, thrown exactly if the claim was not answered or the publication is not certain |
| OutboxWorker.Worker.ClaimEvent | src/jobs/outboxJobs.js:58-77 | Conditional claim with its attempt count |
| OutboxWorker.Worker.EmitRound | src/jobs/outboxJobs.js:80-80 | One emission round |
| OutboxWorker.Worker.EnqueueNotification | src/jobs/outboxJobs.js:41-53 | The notification job, deduplicated by its id |
| OutboxWorker.Worker.WritePublished | src/jobs/outboxJobs.js:83-92 | The publishing write, applied or not, acknowledged or not |
| OutboxWorker.Worker.WriteFailed | src/jobs/outboxJobs.js:98-110 | The failure write with its delay |
| OutboxWorker.Worker.TryToPublish | src/jobs/outboxJobs.js:79-97 | The try block as a whole, under every such combination |
| OutboxWorker.Worker.PublishOutboxEvent | src/jobs/outboxJobs.js:55-112 | The whole handler: claim, try, catch, and whether it is skipped, done or throws |
| OutboxWorker.ShipmentEventsHaveARoom | src/jobs/outboxJobs.js:14-17 | A shipment's payload goes to its own room or, without one, to its shipment's |
| OutboxWorker.SocketServer.EmitSocketEvents | src/jobs/outboxJobs.js:10-39 | Every socket event of the payload goes to the payload's room, in order, once; nothing is sent without a room or a socket server |
| OutboxJob.JobOutcome | src/queues/index.js:20-33 | For every sequence of attempts, with refused commands and lost acknowledgements: published, lost in processing or still claimable, each if and only if the first attempt that does not leave the event claimable publishes it, loses it, or does not exist; and completed if and only if that attempt succeeds or a later claim is answered |
| OutboxJob.AttemptOutcome | src/jobs/outboxJobs.js:55-112 | One attempt on a claimable event does exactly one of three things: leaves it claimable, publishes it, loses it |
| OutboxJob.JobIsDecided | src/queues/index.js:20-33 | The first attempt that does not leave the event claimable decides its status, the end of the job and the attempts counted |
| OutboxJob.JobGivesUp | src/queues/index.js:20-33 | Without such an attempt the event stays claimable, the job is a failed one, and every applied claim is counted |
| OutboxJob.ThreeFailuresGiveUp | src/queues/index.js:20-33 | The queue tries three times: three recorded failures end the job and leave the event unavailable for a minute |
| OutboxJob.LostClaimCompletes | src/queues/index.js:20-33 | A claim whose reply is lost leaves the event in processing while the queue counts the job as completed |
| OutboxJob.RunAttempt | src/jobs/outboxJobs.js:55-112 | One attempt, by what it does to its event and whether it throws |
| OutboxJob.RunJob | src/queues/index.js:20-33 | The retry loop around the handler computes that outcome and touches no other event |
| Recovery.RoundPublishesUnheld | src/jobs/recoveryJobs.js:10-24 | A round publishes exactly those of the oldest due events whose job id the queue does not hold |
| Recovery.RoundDrains | src/jobs/recoveryJobs.js:10-24 | With no id blocked a round publishes min(100, n) of n due events, oldest first, and leaves no due event blocked |
| Recovery.RoundIsIdleIff | src/services/outboxService.js:31-48 | A round does nothing if and only if every event of its batch is blocked by a held id |
| Recovery.RoundsDrain | src/jobs/recoveryJobs.js:10-24 | After k rounds max(0, n - 100 k) of n due events are left, the youngest |
| Recovery.BacklogIsDrained | src/jobs/recoveryJobs.js:10-24 | ceil(n / 100) rounds publish all n due events |
| Recovery.SweepsProgress | src/jobs/recoveryJobs.js:10-24 | While events keep arriving and falling due and at most B blocked ones are ahead of a due event, k sweeps publish it or (100 - B) k of those ahead of it |
| Recovery.EventIsServed | src/jobs/recoveryJobs.js:10-24 | While its own id is free and B < 100 bounds the blocked events not younger than it, an event is published at the latest when 100 - B times the number of sweeps exceeds the unpublished events that were ahead of it |
| Recovery.BlockedBatchStarves | src/jobs/recoveryJobs.js:10-24 | With a hundred due events of held id strictly older than it, an event is neither published nor queued by any number of rounds at any later times, while the ids are held |
| Recovery.StarvationHappens | src/queues/index.js:20-33 | A concrete state from which any number of rounds at any times is answered and changes nothing, though a due event's id is free |
| Recovery.NotSweptForAMinute | src/jobs/recoveryJobs.js:11-14 | No sweep picks an event up within a minute of its last recorded failure, along every run |
| Recovery.NewEventsAreDue | src/jobs/recoveryJobs.js:11-17 | Along every run an event that has not failed is due from its insertion on while nobody claims it, and no later insertion is older |
| Recovery.Service.EnqueueOutboxEvent | src/services/outboxService.js:31-48 | One job per event id; a held id is ignored, and an add that fails changes nothing |
| Recovery.Service.RecoverPendingOutboxEvents | src/jobs/recoveryJobs.js:10-24 | The sweep adds a job, in the order of the batch, for exactly the batch's events that are not held and whose add does not fail |
| Recovery.Service.Drain | src/jobs/outboxJobs.js:55-97 | The workers publish every waiting claimable event and nothing else |
| Recovery.Service.Round | src/jobs/recoveryJobs.js:10-24 | Sweep and drain together |
| Analytics.CountByStatus | src/services/analyticsService.js:36-47 | The zero-filled counters end as the per-status counts, for any order of the groups |
| Analytics.FillCounters | src/services/analyticsService.js:45-47 | The loop sets exactly the counters of the groups and leaves the rest |
| Analytics.BuildAdminAnalytics | src/services/analyticsService.js:10-56 | The dashboard put together from the queries' answers |
| Analytics.CountsConserved | src/services/analyticsService.js:19-53 | The six counts add up to the total, each shipment counted once |
| Analytics.CountsFollowHistories | src/services/analyticsService.js:21-21 | A status count is the number of shipments whose history ends in that status |
| Analytics.RevenueIsConserved | src/services/analyticsService.js:24-53 | After any run of the payment transactions the revenue shown is what their commits earned |
| AnalyticsCacheProofs.HitsAreYoung | src/services/analyticsService.js:58-74 | A hit is a build stored at most the time to live ago, figure by figure what its queries read |
| AnalyticsCacheProofs.SettledCacheIsRecent | src/services/cacheService.js:36-54 | Once every write has had its invalidation, whatever is cached was stored after the last write |
| AnalyticsCacheProofs.QuietCacheIsCoherent | src/services/analyticsService.js:10-77 | If moreover no write fell between its reads and its store, the cached counts and revenue equal a fresh build |
| AnalyticsCacheProofs.RightExactlyIfQuiet | src/services/analyticsService.js:58-77 | Whatever the writers wrote, the cached figures are right if and only if no write fell between one of the build's reads and its store |
| AnalyticsCacheProofs.LateStoreStaysStale | src/services/analyticsService.js:58-74 | From any settled state with nothing cached, a write carried through between a build's reads and its store leaves the old dashboard cached; it stays along every continuation without a write or another store, within its time to live |
| AnalyticsCacheProofs.EntriesLiveAsConfigured | src/services/cacheService.js:7-34 | In every run an entry lives for the configured seconds, 300 by default: not served or there later, and until then there unless deleted or replaced |
| AnalyticsCacheProofs.LookupIsAnswered | src/services/analyticsService.js:58-66 | A lookup hits exactly if something is cached, with just that, and builds otherwise |
| AnalyticsCacheProofs.FailedBuildsStoreNothing | src/services/analyticsService.js:58-74 | A build that fails leaves the cache as it is and never stores, along every run |
| AnalyticsCacheProofs.WritesAreRecorded | src/services/cacheService.js:36-54 | A write owes an invalidation exactly if it is not a registration, and leaves the cache as it is |
| AnalyticsService.PutTogether | src/services/analyticsService.js:10-56 | The dashboard of the versions its queries read |
| AnalyticsService.Service.GetAdminAnalytics | src/services/analyticsService.js:58-66 | Hit or start of a build |
| AnalyticsService.Service.AnswerQuery | src/services/analyticsService.js:11-34 | One query reads the current version |
| AnalyticsService.Service.SetJsonCache | src/services/cacheService.js:29-34 | The completed build is stored with its time to live |
| AnalyticsService.Service.BeginInvalidation | src/services/cacheService.js:36-40 | An invalidation's scan begins |
| AnalyticsService.Service.EndInvalidationScan | src/services/cacheService.js:40-46 | Its scan ends with or without the key |
| AnalyticsService.Service.DeleteFoundKeys | src/services/cacheService.js:48-50 | What was found is deleted |
| AnalyticsService.Redis.DeleteCacheByPattern | src/services/cacheService.js:36-54 | No matching key that was there all along the scan is left, and no other key is touched, single yields and batches alike |
| RateLimit.WindowBound | src/middlewares/rateLimiters.js:6-13 | Each window admits at most max requests, for every arrival sequence and lost reply |
| RateLimit.StretchBound | src/middlewares/rateLimiters.js:6-79 | Any interval as long as a window, both ends included, admits at most 2 max |
| RateLimit.ShortStretchBound | src/middlewares/rateLimiters.js:6-79 | A stretch over whose length a key does not expire admits at most 2 max - 1 |
| RateLimit.BoundIsReached | src/middlewares/rateLimiters.js:6-79 | Where a key is gone at its deadline, one burst as a window opens and one as it ends reach 2 max, for every max and window length |
| RateLimit.ShortBoundIsReached | src/middlewares/rateLimiters.js:6-79 | A longest such stretch reaches 2 max - 1, for every max, window length and expiry convention in which a key survives one instant |
| RateLimit.AtMostAdjacent | src/middlewares/rateLimiters.js:6-13 | Requests at most one window length apart fall into the same or adjacent windows; after a window's first request, into the next only once its key has expired |
| RateLimit.ResetIsHonest | src/middlewares/rateLimiters.js:66-77 | A lone caller who waits RateLimit-Reset seconds is never early and is admitted, unless its quota is used up and Redis keeps a key at its very deadline |
| RateLimit.ResetIsTight | src/middlewares/rateLimiters.js:66-66 | RateLimit-Reset is the least number of seconds, at least 1, that covers the rest of the window |
| RateLimit.RemainingIsHonest | src/middlewares/rateLimiters.js:66-77 | RateLimit-Remaining is exactly the number of further requests this window admits |
| RateLimiter.KeysDiffer | src/middlewares/rateLimiters.js:32-35 | Different clients of a limiter have different keys; no user is taken for an address |
| RateLimiter.Limiter.EvalScript | src/middlewares/rateLimiters.js:6-13 | INCR, PEXPIRE and PTTL on one key, no other touched |
| RateLimiter.Limiter.RunRateLimitScript | src/middlewares/rateLimiters.js:37-56 | Loading and NOSCRIPT retry: the script runs exactly once, or not at all exactly if the command is refused or the script is unknown twice |
| RateLimiter.Limiter.Limit | src/middlewares/rateLimiters.js:58-85 | Counts exactly if the script runs, fails exactly if it does not or its reply is lost, and otherwise passes or answers 429 exactly as the counter of the client's key says, with that counter's headers; no other client is affected, and nothing is counted under the test switch |
| Rooms.OnlyInsidersInRoom | src/services/socketService.js:83-96 | In every run a socket in a shipment's room, under any spelling of its id, is an administrator's, its current shipper's or its current driver's |
| Rooms.EmissionsReachInsiders | src/jobs/outboxJobs.js:10-39 | Every lifecycle emission goes to its own shipment's room and is heard by insiders only |
| Rooms.EmissionsFollowStatus | src/services/shipmentEventService.js:15-166 | In every run the type and the messages of a recorded event are those of the status it announces: none for a creation, two for a delivery |
| Rooms.HeardUnderStoredSpelling | src/services/socketService.js:218-241 | Of the rooms joined under the spellings of a shipment's id, its events reach the one with the stored spelling and no other |
| Rooms.DeafJoinHappens | src/services/socketService.js:218-241 | A concrete run in which the shipment's own shipper joins under capital digits and is not in the room of its events |
| Rooms.AllowedForever | src/services/socketService.js:83-96 | Who may join a shipment's room may join it for ever |
| Rooms.JoinsAreAnswered | src/services/socketService.js:83-96 | An administrator, the shipment's shipper as a shipper and its driver as a driver are let in and end up in the room; nobody else is |
| Rooms.SignersGetIn | src/services/socketService.js:83-96 | In every run whoever signed the creation as shipper, or one of the reports as driver, gets into the shipment's room |
| Rooms.LeavingLeaves | src/services/socketService.js:252-264 | A leave takes a socket out of one room, a disconnect out of all, and no other socket out of any |
| SocketService.SocketServer.CanJoinShipmentRoom | src/services/socketService.js:83-96 | The access check, missing user or shipment included |
| SocketService.SocketServer.CheckJoinRequest | src/services/socketService.js:201-233 | A join is cleared exactly if its user may join |
| SocketService.SocketServer.JoinRoom | src/services/socketService.js:236-241 | The join itself, a step of its own, into the room named by the client's spelling |
| SocketService.SocketServer.LeaveRoom | src/services/socketService.js:252-258 | Leaves one room |
| SocketService.SocketServer.DisconnectSocket | src/services/socketService.js:261-264 | Leaves every room |
| Cookies.ParseCookies | src/services/socketService.js:69-81 | The parser's loop against its specification |
| Cookies.ParseIsStored | src/services/socketService.js:69-81 | A cookie-string of RFC 6265 section 4.2.1 is read as its pairs, assigned in order with decoded values |
| Cookies.RoundTrip | src/services/socketService.js:69-81 | Unencoded values come back exactly, `=` included and the last duplicate winning, if and only if no cookie is called `__proto__` |
| Cookies.EncodedRoundTrip | src/services/socketService.js:69-81 | Encoded values come back decoded |
| Cookies.LastPieceIsRead | src/services/socketService.js:69-81 | In any header at all the last piece is ignored without `=`, and otherwise gives its trimmed name its trimmed value, decoded where that is possible and as it came where not |
| Cookies.TrimIsExact | src/services/socketService.js:75-76 | Trimming cuts the white space, and only that, off both ends |
| Pagination.EveryQueryIsAPage | src/utils/pagination.js:3-16 | Every query yields a page of at least 1 and a limit from 1 to the maximum exactly if that is positive, and honours queries within bounds |
| Pagination.BadQueriesGetDefaults | src/utils/pagination.js:3-10 | Missing, unreadable and out-of-bounds queries get the first page, the default limit, at least 1 and at most the maximum |
| Pagination.PagesPartition | src/utils/pagination.js:3-23 | Pages 1 to totalPages put together are the list, none of them empty, every later one empty |
| Pagination.OnOnePage | src/utils/pagination.js:13-23 | Every element is on exactly one page |

## Left out

- Real MongoDB, Redis, BullMQ, Socket.IO, JWT, bcrypt and SHA-256: only the atomic operation, the transaction's conflict check, the keyed job set, the injective hash and the fresh token are modelled.
- The CSRF endpoint: the token fetch succeeds or fails; that it might itself answer 401 and join the refresh queue is not modelled.
- Requests, components and routing of the browser other than the shared HTTP client; timeouts appear as failed answers, and a page reload, which loses the client state, does not appear.
- Access tokens: whether a request is unauthorized is the server's free choice in the client machine.
- Session: one browser, one user, no other login, logout or deactivation; Rotation has all of these.
- Registration: in Rotation it is a login whose read is the creation of the user, in AnalyticsCache a write without invalidation.
- Audit log, metrics, tracing, logging, health checks, e-mail notifications beyond the enqueued job, field validation and response formatting.
- The tracking number and the transaction id: random strings without a promise.
- recoverFailedQueueJobs, detectStuckPayments and detectStaleShipments: they only retry or count.
- ShipmentControllers.Store.AssignDriverTo: starts after the lookup of the driver, which refuses a missing, non-driver or inactive user and writes nothing.
- OutboxJob.RunJob: other runs of the event in between belong to Outbox, and a worker that dies in an attempt, which the queue may hand to another one, to OrphansStayOrphaned; the delays between attempts and the clock are left out; the claim ignores `availableAt`, so they do not matter to it.
- Recovery.RoundsDrain: assumes that no event falls due between the rounds and no add fails; EventIsServed does not. In both no run of a drain fails; faults are the business of Outbox and OutboxJob.
- Recovery.BacklogIsDrained: shares the fixed due set of RoundsDrain.
- Recovery.Service.Drain: the notification jobs of the drained events are added in OutboxWorker and not tracked here.
- Idempotency: an entry expires at any moment; the 24 hours appear only as the assumption that it does not expire under a holder.
- Analytics.BuildAdminAnalytics: recentShipments, the list of the five newest shipments with their shippers' names, is not part of this model.
- AnalyticsService.PutTogether: likewise without recentShipments.
- AnalyticsCacheProofs.QuietCacheIsCoherent: the shipment counts and the revenue; user counts may lag, because registration does not invalidate, and recentShipments is not part of this model.
- Rate limiter: the per-route limits and messages.
- Rooms: ids are compared as hexadecimal strings; that an ObjectId has 24 digits is not used, and spellings other than strings are not modelled.
- Cookies: decodeURIComponent is a parameter; characters are Unicode code points rather than UTF-16 units.
- Pagination: parseInt is a parameter, its result an integer or NaN; integers beyond 2^53 are exact here.
- Payment amounts are exact reals; floating-point rounding of the revenue sum is not modelled.
