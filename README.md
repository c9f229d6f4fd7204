# API Auth Interceptor — a Dafny model

This is a model of the AngularJS `api-auth-interceptor` module.

The module installs a `responseError` interceptor on each registered HTTP transport service. A request that fails with 401 is suspended:

- its config is stored in that transport's buffer, together with a fresh deferred;
- `event:auth-loginRequired` is broadcast;
- the caller receives the deferred's pending promise.

A 403 is announced with `event:auth-forbidden` and passed on. Any other failure is passed on. A request whose config sets `ignoreAuthModule` is never touched.

The application later calls one of two coordinator functions:

- `loginConfirmed(data, configUpdater)` re-issues every buffered request of the most recently failing transport, in order. Each config is passed through the updater first (the identity when none is given). Each original deferred is settled by the outcome of its retry.
- `loginCancelled(data, reason)` rejects every waiting request with `reason` when the reason is truthy. Otherwise it abandons them. Either way it empties the buffer.

Both throw if no transport has failed yet.

## Layout

- `http.dfy`, module `Http`: request configs, responses, retry outcomes and updaters. It also defines JavaScript truthiness for the optional `reason`.
- `promises.dfy`, module `Promises`: the `$q` deferreds as a ledger of settlement states indexed by handle. `Settle` changes only a pending deferred, as `$q` does.
- `buffers.dfy`, module `Buffers`: buffer entries and re-issued requests. It defines two specification functions, implemented by the loops of `retryAll` and `rejectAll`:
  - `RetryCalls`, the requests a drain re-issues;
  - `RejectEach`, the deferred states after a rejecting drain.
- `ownership.dfy`, module `Ownership`: the invariant `Owned`. It says that every buffered entry and every unanswered retry holds its own deferred, and that this deferred is still pending. There is one lemma per operation showing that the operation preserves the invariant.
- `auth.dfy`, module `Auth`: class `AuthService`. Its fields are the closure state of the provider:
  - `$transportsMap`;
  - `buffers`;
  - `failingServiceName`.

  They sit beside the deferred ledger, the requests given to each transport, and the broadcast log. The buffer methods `Append`, `RetryAll`, `RejectAll` and `RetryHttpRequest` are loops and updates over these fields. `LoginConfirmed` and `LoginCancelled` are proved against the buffers' specification functions. `SettleRetry` models the callbacks attached by `retryHttpRequest` firing.
- `scenarios.dfy`, module `Scenarios`: clients that use only `AuthService`'s contracts. They cover:
  - two 401s, then a confirmation with a token-adding updater, then both callers resolved;
  - a retry that fails with 401 again, and one that is refused with 403;
  - cancelling with a reason and without one;
  - the opt-out flag, a 403, confirming too early;
  - two failing transports, where only the last one is drained.

Transports are identified by their registered service name. A deferred is identified by its index in the ledger.

## Model

| member | source | states |
|---|---|---|
| Promises.Settle | src/api-auth-interceptor.js:108-114 | resolving or rejecting a deferred changes only that one; a pending deferred takes the new state; a settled deferred keeps its state, so no deferred is ever settled twice |
| Buffers.SettlementOf | src/api-auth-interceptor.js:109-114 | the state a retry's outcome gives the original deferred is never pending, and it is a resolution exactly when the retry succeeded |
| Buffers.RetryCalls | src/api-auth-interceptor.js:145-148 | a drain re-issues exactly one request per buffered entry |
| Buffers.RetryCallsAt | src/api-auth-interceptor.js:146-147 | the i-th re-issued request has the i-th entry's config passed through the updater and the i-th entry's own deferred, so FIFO order is kept |
| Buffers.RejectEach | src/api-auth-interceptor.js:135-137 | rejecting every buffered deferred in turn keeps the ledger's length and never changes a settled deferred |
| Buffers.RejectEachAt | src/api-auth-interceptor.js:134-137 | after rejecting with a reason, a deferred is `Rejected(reason)` exactly when it was pending and belongs to a buffered entry; every other deferred is unchanged |
| Ownership.InitiallyOwned | src/api-auth-interceptor.js:21 | with empty buffers and empty retry logs, nothing is held |
| Ownership.BufferedUnique | src/api-auth-interceptor.js:47-48 | a buffered deferred is pending; no other buffered entry holds it; no unanswered retry of any transport holds it |
| Ownership.AppendKeepsOwned | src/api-auth-interceptor.js:47-48 | appending a fresh pending deferred at a buffer's tail keeps every held deferred unique and pending |
| Ownership.DrainKeepsOwned | src/api-auth-interceptor.js:145-150 | draining a buffer into its transport's retries keeps the invariant; each entry's deferred moves to the retry issued for it |
| Ownership.CancelKeepsOwned | src/api-auth-interceptor.js:133-140 | every deferred in the cancelled buffer is pending and exists; with or without a reason, emptying the buffer keeps the invariant for the rest |
| Ownership.DeliverKeepsOwned | src/api-auth-interceptor.js:109-116 | the deferred of an unanswered retry is pending; settling it once and marking the retry answered keeps the invariant |
| Auth.UpdaterOrIdentity | src/api-auth-interceptor.js:77 | with no updater, configs are retried unchanged; otherwise the caller's updater is used |
| Auth.AuthService.constructor | src/api-auth-interceptor.js:21-26 | after registration: no transport looked up, no buffer, no failing service, no deferred, nothing issued or broadcast |
| Auth.AuthService.Defer | src/api-auth-interceptor.js:47 | `$q.defer()` adds one fresh pending deferred and nothing else |
| Auth.AuthService.Append | src/api-auth-interceptor.js:123-128 | one entry goes to the tail of the named buffer; nothing else changes |
| Auth.AuthService.RetryHttpRequest | src/api-auth-interceptor.js:108-117 | one request, with its deferred, is added to the end of that transport's issued requests; nothing else changes |
| Auth.AuthService.RetryAll | src/api-auth-interceptor.js:145-150 | the transport is given `RetryCalls(updater, buffer)` in buffer order; the buffer is then empty; no deferred and no other buffer changes |
| Auth.AuthService.RejectAll | src/api-auth-interceptor.js:133-140 | a truthy reason (`Http.Truthy`: present and not the empty string, the test at line 134) leaves the ledger at `RejectEach(old, buffer, reason)`; a falsy one leaves it as it was; the buffer is empty either way |
| Auth.AuthService.Track | src/api-auth-interceptor.js:41-43 | the transport is looked up, and the buffer created, only when missing; existing buffers are kept; the service becomes the failing one |
| Auth.AuthService.Suspend | src/api-auth-interceptor.js:47-48 | a fresh pending deferred is appended with the config to the tail of the service's buffer; the invariant is kept |
| Auth.AuthService.ResponseError | src/api-auth-interceptor.js:39-59 | each case below |
| Auth.AuthService.LoginConfirmed | src/api-auth-interceptor.js:76-80 | each case below |
| Auth.AuthService.LoginCancelled | src/api-auth-interceptor.js:88-91 | each case below |
| Auth.AuthService.SettleRetry | src/api-auth-interceptor.js:109-116 | the k-th unanswered retry's outcome settles its original deferred, which was pending until then, to `SettlementOf(outcome)`; no other deferred changes and the retry is marked answered; a failure that is not opted out first records the service as failing and, for 403, broadcasts forbidden, as the interceptor at lines 40-53 does on the retry's own transport; the outcome carries the config the retry was issued with, so a 401 on a retry that is not opted out is not a possible outcome, because the interceptor suspends it again |

`Auth.AuthService.ResponseError`:

- An opted-out rejection is passed on, and no state changes.
- Otherwise the service becomes the failing one. Its transport and buffer exist afterwards, and no other buffer changes.
- 401: the reply is a fresh pending deferred. That deferred and the config go to the tail of that buffer, and loginRequired is broadcast with the rejection.
- 403: forbidden is broadcast and the rejection is passed on.
- Any other status: the rejection is passed on with no broadcast.

`Auth.AuthService.LoginConfirmed`:

- With no failing service it throws, and nothing changes.
- Otherwise only the failing service's buffer is drained. Its transport is given `RetryCalls(updater or identity, buffer)`, the buffer becomes empty, and no deferred changes. loginConfirmed is then broadcast with `data`.

`Auth.AuthService.LoginCancelled`:

- With no failing service it throws, and nothing changes.
- Otherwise: every deferred in the failing service's buffer was pending. With a truthy reason each becomes `Rejected(reason)`; with a falsy one each stays pending.
- No other deferred changes, and the buffer becomes empty.
- loginCancelled is broadcast with `data`.

## Left out

- AngularJS wiring is not modelled: the module and provider registration, `$injector` and dependency injection, and installing the interceptor into each provider's `interceptors`. `registerTransportProviders` is modelled only by the set of service names the constructor receives. `$injector.get` is modelled by recording the service name in `transports`; a failing lookup is not modelled.
- Buffer objects and deferreds are values: a buffer is a sequence stored under its service name, and a deferred is an index into a ledger. Object identity and aliasing of the JavaScript objects are therefore not modelled.
- `$rootScope.$broadcast` is modelled as appending to an event log. Listeners, and anything they do, are not modelled.
- Asynchrony: `$q` callbacks and transport calls are not scheduled. A retry's outcome is modelled by an explicit `SettleRetry` call that may come at any later point.
- A retried request whose outcome is another 401 that is not opted out goes through the interceptor again. The original deferred then follows the new deferred. `SettleRetry` does not accept such an outcome. The new suspension is a separate `ResponseError` call, and the promise chaining between the two deferreds is not modelled: the original deferred stays pending and its retry stays unanswered.
- The throw when confirming or cancelling before any failure is returned as a `NoFailingService` error value; JavaScript exceptions are not modelled otherwise.
- `Auth.UpdaterOrIdentity`: the updater is a total Dafny function. An updater that throws part-way through `retryAll`, or returns something other than a config, is not modelled.
- The `reason` and `data` arguments are modelled as optional strings; `reason` is truthy when present and not empty. JavaScript values of other types (numbers, objects, `null`, `false`) and their truthiness are not modelled.
- HTTP statuses are unbounded integers. A request config carries only a URL, headers and the opt-out flag; the interceptor reads nothing else.
- `Auth.AuthService.RejectAll`: the order in which the deferreds are rejected is not observable in the final ledger. The contract states only the result.
