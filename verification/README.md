# salesforce-js-client: combinators, request pool and bulk-query decisions

A Dafny model of the control-flow core of a TypeScript Salesforce REST/Bulk
client:

- `moreOperator` (src/lib/more.ts), the pagination combinator: for each
  source value it emits the value, then fetches and emits successors while
  `more` holds, and stops once the subscriber is closed (module `More`).
- `statusOperator` (src/lib/status.ts), the collapsing poll combinator: for
  each source value it polls while `wait` holds and emits only the final
  value (module `Status`).
- The completion accounting the two share, the `processing` counter and the
  `complete` flag (module `Chains`, class `Tracker`). It is modelled once. Its
  invariant is proved over every interleaving of chain starts, chain
  finishes and source completion: completion is signalled at most once, and
  exactly when the source is done and no chain is in flight.
- The fail-fast `RequestPool` (src/lib/requestPool.ts), as a class with the
  `err` poison field and the queue of submitted messages (module `Pool`).
- The pure parts of `SalesforceClient` (src/client.ts): `buildQuery`,
  `urlTemplates`, `requestDefault`, the `'*'` field expansion, the poll
  `wait` predicate, and the decisions `queryBulk` takes after each status
  poll (module `Client`).

Each combinator chain is modelled one at a time. The asynchronous
continuation (`getMore` or `status`) is a deterministic function that either
yields the next value or fails. The subscriber's `closed` flag is a
function `closedAt(n)`: is the subscriber closed once `n` replies have
arrived? A `fuel` bound gives how many replies are observed. A chain that
needs more replies ends `Pending`. Lemmas show that a chain that ended
within its fuel ends the same way with more fuel, and that with more fuel
what a chain emitted and fetched, `Pending` or not, stays a prefix. Each loop is a method (`RunChain`) proved equal to a recursive
specification function (`Chain`). The lemmas state the properties about that
function.

Two behaviours of the code that are easy to misread:
- The code does not close the job when the submitted batch reports `Failed`:
  the error propagates before `closeJob` is reached (src/client.ts:370-394).
- The chunk fetches after the result manifest are not serialised. The `1` at
  src/client.ts:461 limits an inner stream over a single URI, and the outer
  `mergeMap` at src/client.ts:444 has no limit.

## Model

| member | source | states |
|---|---|---|
| `Chains.AccountingInvariant` | src/lib/more.ts:26-40 | For any well-formed interleaving of chain starts, chain finishes and one source completion, `processing` equals the number of chains in flight and is never negative. Completion is signalled at most once. It has been signalled exactly when the source completed and `processing == 0`. `complete` is set only after source completion, and it is set whenever chains are still in flight then. |
| `Chains.Tracker.constructor` | src/lib/more.ts:7-8 | A subscription starts with `processing == 0`, `complete == false` and no completion signalled. |
| `Chains.Tracker.ChainStart` | src/lib/more.ts:14 | A source value (allowed only before source completion) increments `processing` by one and changes nothing else (also src/lib/status.ts:13). |
| `Chains.Tracker.ChainFinish` | src/lib/more.ts:26-31 | The `finally` block decrements `processing`, which stays non-negative. It signals completion exactly when `processing` reaches 0 with `complete` set, and then only after source completion and never a second time. The same block is at src/lib/status.ts:23-28. |
| `Chains.Tracker.SourceComplete` | src/lib/more.ts:34-40 | Source completion signals at once when `processing == 0`. Otherwise it sets `complete`, deferring the signal to the last chain. The same handler is at src/lib/status.ts:31-37. |
| `More.RunChain` | src/lib/more.ts:15-23 | The loop (emit the value, fetch while `more`, stop on error or closed subscriber) produces exactly the trace of the specification `More.Chain`. |
| `More.OnValue` | src/lib/more.ts:12-31 | A value handler runs `processing++`, then the chain, then the `finally` decrement, also when a fetch failed. A pending chain has not decremented yet. No completion is signalled while the source is still open. |
| `More.ChainShape` | src/lib/more.ts:15-23 | The first emission is the source value. Each fetch takes the latest emitted value. Each emitted successor is the fetch result of its predecessor, and `more` held for that predecessor. A finished chain ends with a value for which `more` is false and makes one fetch fewer than its emissions. A fetch error ends the chain with that error. After a closed-subscriber check the fetched value is not emitted. No value is emitted after the subscriber closed. |
| `More.ClosedStopsChain` | src/lib/more.ts:19-21 | If the subscriber is closed when reply `k` arrives, the chain emits at most `k` values and issues at most `k` fetches. |
| `More.MoreFuelIsObservationOnly` | src/lib/more.ts:17-23 | A chain that ended within the observed replies ends identically with any larger allowance. |
| `More.MoreFuelExtends` | src/lib/more.ts:17-23 | With more observed replies, the values emitted and the fetches issued by a chain tail, also one that ended `Pending`, remain prefixes of the longer observation. |
| `Status.RunChain` | src/lib/status.ts:14-20 | The poll loop followed by the single `closed` check produces exactly the trace of the specification `Status.Chain`. |
| `Status.OnValue` | src/lib/status.ts:11-28 | A value handler runs `processing++`, then the chain, then the `finally` decrement, also when a poll failed. |
| `Status.ChainShape` | src/lib/status.ts:14-20 | A chain emits at most one value, and emits one exactly when it finished open. The emitted value never satisfies `wait`. A value with `wait` false is emitted unchanged with no poll, or nothing if the subscriber is closed. Polls run from the source value through each previous result, all still waiting. The emitted value is the last poll's result, so no intermediate value is emitted. A poll error ends the chain with that error. |
| `Status.PollingIgnoresClosed` | src/lib/status.ts:15-20 | The polls issued do not depend on when the subscriber closes. A chain whose polling finished emits exactly when the subscriber is open at the end. |
| `Status.StatusFuelIsObservationOnly` | src/lib/status.ts:15-17 | A poll loop that ended within the observed replies ends identically with any larger allowance. |
| `Status.StatusFuelExtends` | src/lib/status.ts:15-17 | With more observed replies, the polls issued stay a prefix and a value already emitted is still emitted. |
| `Pool.WithMethod` | src/lib/requestPool.ts:59-73 | The verb helpers' options set `method` to the verb, overriding any earlier `method`, and keep every other option unchanged. |
| `Pool.RequestPool.constructor` | src/lib/requestPool.ts:19-22 | A new pool is unpoisoned and has no messages. |
| `Pool.RequestPool.Request` | src/lib/requestPool.ts:75-90 | When poisoned, the request is rejected at once with exactly the stored error and nothing is pushed. Otherwise exactly one message with the given URI and options is pushed and its promise is pending. `err` is unchanged. |
| `Pool.RequestPool.Post` | src/lib/requestPool.ts:59-61 | As `Request`, with `method` set to `POST` and the other options kept. |
| `Pool.RequestPool.Get` | src/lib/requestPool.ts:63-65 | As `Request`, with `method` set to `GET` and the other options kept. |
| `Pool.RequestPool.Put` | src/lib/requestPool.ts:67-69 | As `Request`, with `method` set to `PUT` and the other options kept. |
| `Pool.RequestPool.Patch` | src/lib/requestPool.ts:71-73 | As `Request`, with `method` set to `PATCH` and the other options kept. |
| `Pool.RequestPool.Settle` | src/lib/requestPool.ts:32-36 | A message's final success resolves its promise with the response, and its final failure rejects it with the error. A settled promise stays as it is, other promises are untouched, and the pool is not poisoned. |
| `Pool.RequestPool.PipelineError` | src/lib/requestPool.ts:48-50 | A pipeline error sets `err` to that error. |
| `Pool.RequestPool.PipelineComplete` | src/lib/requestPool.ts:51-55 | Pipeline completion sets `err` to "Request stream is closed, please instantiate a new one". |
| `Client.SplitJoin` | src/client.ts:117 | `fields.join(',')` of a non-empty list of comma-free fields can be split back into the same list. |
| `Client.SelectListRoundTrip` | src/client.ts:116-119 | The query is `SELECT `, the field list, then ` FROM `. The fields are read back from the field list in order. |
| `Client.FilterOnlyWhenNonEmpty` | src/client.ts:116-119 | A null, undefined or empty filter adds nothing. Any other filter appends ` WHERE ` and the filter to the unfiltered query. |
| `Client.LoginEndpoints` | src/client.ts:66-74 | `login` and `test` map to `https://login.salesforce.com/...` and `https://test.salesforce.com/...`. Any other value is used as the base of `/services/oauth2/token`. |
| `Client.DataApiRoot` | src/client.ts:75-87 | The REST URLs (limits, sobjects, sobject, describe, query, create, update, jobs) sit under `services/data/v45.0`. |
| `Client.AsyncApiRoot` | src/client.ts:86-89 | The bulk job URLs sit under `services/async/45.0`, with no `v`. |
| `Client.BulkPathsNest` | src/client.ts:88-102 | `closeJob`, `bulk`, `bulkStatus`, `bulkResult` and `bulkResults` each extend the previous URL by one path segment. |
| `Client.SessionHeaders` | src/client.ts:105-112 | The default options hold only the headers. `Authorization` and `X-SFDC-Session` are equal, and for any token type each is the token type, one space, then the access token, both read back by position. When the token type has no space, that space is the credential's first. `accept` is `application/json`. |
| `Client.KeepQueryableSpec` | src/client.ts:320-328 | The bulk field filter keeps exactly the fields not typed `location` or `address`. It keeps their order: it distributes over concatenation. |
| `Client.FieldExpansion` | src/client.ts:317-332 | Only a field list that is exactly `['*']` is expanded, and any other list passes unchanged. `query` expands to every described name in order. `queryBulk` expands to exactly the names of the described fields not typed `location` or `address`. An undescribed object fails. |
| `Client.WaitingStates` | src/client.ts:350-353 | Polling continues for exactly the states `Open`, `Queued` and `InProgress`. |
| `Client.PolledStatusSettled` | src/client.ts:349-369 | A bulk status poll emits at most one status, and it is never in a waiting state. |
| `Client.SubmitPollCases` | src/client.ts:370-394 | A `Failed` batch raises its `stateMessage` before any further request, so the job is not closed. Otherwise the job's batch list is fetched, the job is closed once, and the listed batches pass on unchanged. |
| `Client.BatchPollCases` | src/client.ts:416-465 | `Failed` raises `stateMessage`, and takes precedence over zero records. Zero processed records emit `null` without a manifest fetch. Otherwise the `bulkResult` manifest is fetched, and each result id, in order, becomes the chunk URI manifest + `/` + id. Distinct ids give distinct URIs. |

## Left out

- Scheduling across chains: the rxjs interleaving of chains started by different source values is not modelled. `More.OnValue` and `Status.OnValue` run one whole chain while the source is open. Interleavings, including a source that completes while chains are in flight, are covered only by the event-trace invariant `Chains.AccountingInvariant`.
- Pool.RequestPool.PipelineError: always poisons the pool. The code tests `if (this.err)` for truthiness (src/lib/requestPool.ts:77), so a pipeline error with a falsy value such as `undefined`, stored at src/lib/requestPool.ts:49, leaves the pool accepting requests; errors are modelled as objects, which are never falsy.
- More.RunChain: a fetch reply is a value or a failure. `toPromise()` (src/lib/more.ts:18) resolves with `undefined` when the fetched observable emits nothing; that empty reply is not modelled.
- Status.RunChain: a poll reply is a value or a failure. `toPromise()` (src/lib/status.ts:16) resolves with `undefined` when the polled observable emits nothing; that empty reply is not modelled.
- More.RunChain: `more` is a total function. In the code a `more` that throws is caught and forwarded with `subscriber.error` (src/lib/more.ts:24-25); that error path is not modelled.
- Status.RunChain: `wait` is a total function. In the code a `wait` that throws is caught and forwarded with `subscriber.error` (src/lib/status.ts:21-22); that error path is not modelled.
- The `Chains.Tracker` methods require the observable protocol: no value after completion, one completion, and a finish only for a started chain. rxjs guarantees this to the handlers; the code does not check it.
- Fuel: how long a chain would go on beyond the observed replies is not modelled. Such a chain is reported `Pending`.
- After `subscriber.error`, rxjs ignores a later `subscriber.complete()`. The model counts the calls the code makes, not what the subscriber does with them.
- The source's own error callback, which forwards to `subscriber.error`, and the unsubscribe teardown are plain forwarding with no logic. They are not modelled.
- Concurrency width: the `mergeMap` concurrency argument of the pool and of the chunk fetches is library scheduling. The pool keeps `concurrency` only as a field.
- Retry with backoff (`retryBackoff` from `backoff-rxjs`): its semantics are not visible in this repository. `Pool.RequestPool.Settle` takes the final outcome of a message's attempts as an input.
- The HTTP calls, `JSON.parse`, reading the metadata file, the OAuth token exchange and `console.log` of responses (`logResponse`) are I/O. Responses, statuses, batch lists and result-id manifests are parameters.
- The one-second `timer` before each status poll is a delay with no logical content.
- The `Sforce-Enable-PKChunking` header and the job-creation body of `queryBulk`, the other HTTP glue methods (`getObjects`, `getObject`, `getObjectDescription`, `objectRecordCount`, `create`, `update`, `limits`, `closeJob`), and the way `rawQuery` and `getJobs` feed `moreOperator`: these only assemble requests from the templates and headers modelled here.
- An object missing from the metadata is a `TypeError` in the code. The model gives `None`, without the error's text.
- Errors carry only a message. The `issued_at` field of the token response is not modelled.
- src/salesforce.ts holds only type declarations and is not part of this model.
