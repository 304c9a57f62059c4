# Webhook dispatcher of the khan API, modelled in Dafny

khan is a game-clan HTTP API. When a domain event happens (a membership
changes, say) it hands a job to its webhook dispatcher, which delivers the
event's JSON payload to every HTTP endpoint registered for the game and event
type, on a fixed pool of workers, without blocking or failing the request.
This project models that dispatcher and the status-code rules of the API's
HTTP middlewares.

- `common.dfy` (`Common`): `Option`, `Result` and a `byte` type.
- `http_status.dfy` (`HttpStatus`): the two thresholds, "error" (status > 399)
  and "server error" (status > 499), defined once and shared.
- `delivery.dfy` (`Delivery`): a worker's delivery of one job
  (`Worker.DispatchHook`) as a pure function. The HTTP client is an oracle
  that maps the k-th attempt of a job and its request to a transport error
  or a status.
- `pool.dfy` (`Pool`): the dispatcher's job accounting as a transition
  system. It has a bounded job queue, the hand-off goroutines spawned by the
  assignment loop, workers that are unregistered, idle or busy with one job,
  the `Jobs` counter, and the `DispatchHook` calls whose deferred `startJob`
  is still owed. It also holds `Start` and `Wait`'s polling loop.
- `accounting.dfy` (`Accounting`): events, runs and the invariant. No job is
  lost or duplicated, and `Jobs` plus the owed increments equals the number
  of jobs in flight. It also holds the counterexamples and the corrected
  accounting described under Findings.
- `middleware.dfy` (`Middleware`): transaction commit or rollback, `GetCtxDB`,
  the logger's level, the Sentry capture condition and the version header.

Each goroutine step is one atomic transition. Assignment is
nondeterministic: any waiting hand-off goroutine may take any idle worker.
A send on an unbuffered job queue (`bufferSize` 0) is a rendezvous with the
assignment loop, so the job goes straight to a hand-off goroutine.

The model follows the code where it does something unexpected:
- the code increments `Jobs` after the channel send, not at submission;
- the counter is a plain int that can go negative;
- a marshalling failure silently becomes an empty payload (`Pool.Payload`).

## Model

| member | source | states |
|---|---|---|
| Delivery.DispatchHook | api/dispatcher.go:142-186 | Unknown game or unknown event type: no request, no error counted. Otherwise exactly one request per registered hook, in registry order. Each is a POST of the job's payload to the hook's URL with the configured timeout. The error count is the number of attempts that failed (transport error or status > 399). The result is always nil. |
| Delivery.DeliverAll | api/dispatcher.go:155-183 | The loop makes attempt k to hook k with the oracle's outcome for it. It counts each failed attempt once, so the count never exceeds the number of hooks, and a failure never stops the later hooks. |
| Delivery.NoErrorsIffAllDelivered | api/dispatcher.go:168-182 | No error is recorded if and only if every attempt got a status ≤ 399 and no transport error. |
| Delivery.RequestsIndependentOfOutcomes | api/dispatcher.go:155-182 | Whatever the network answers, the same requests are made: no hook is skipped after an earlier failure. |
| Delivery.PartialFailureIsolated | api/dispatcher.go:155-185 | Three hooks where the second has a transport error: all three are tried in order, one error is counted, and nil is returned. |
| Pool.Start | api/dispatcher.go:46-60 | Workers get IDs 1..workerCount and start unregistered. Both queues start empty, `Jobs` starts at 0, and the capacities are recorded. A negative size fails with Go's makechan panic. |
| Pool.NextEnqueue | api/dispatcher.go:93-100 | The send goes through exactly when the buffer has room (or it is an unbuffered rendezvous); otherwise the caller blocks and nothing is dropped. Exactly one job with the given game, event type and marshalled payload is submitted. `Jobs` is unchanged and one deferred increment is owed. The job goes to the back of the buffered queue, or straight to a hand-off goroutine when the channel is unbuffered. Nothing else changes. |
| Pool.NextStartJob | api/dispatcher.go:85-87 | The deferred `startJob` raises `Jobs` by exactly one and settles one owed increment. Queues, workers and history are unchanged. |
| Pool.NextReceive | api/dispatcher.go:62-66 | The assignment loop takes the oldest queued job and hands it to a new hand-off goroutine. Nothing else changes. |
| Pool.NextHandOff | api/dispatcher.go:67-72 | Any waiting hand-off may give its job to any worker, but only to an idle one. That worker then holds exactly that job, and it leaves the hand-offs. Nothing else changes. |
| Pool.NextRegister | api/dispatcher.go:121-126 | Only a worker between jobs can register as idle. Only that worker's phase changes. |
| Pool.NextHandleJob | api/dispatcher.go:114-117 | A busy worker finishes its job. `Jobs` drops by exactly one whether or not any hooks were registered. The job is recorded as handled and the error counter grows by the job's failed deliveries. The worker must register again before it gets another job. Queues, submissions and owed increments are unchanged. |
| Pool.NextSubmit | api/dispatcher.go:93-100 | The corrected submission: the same job is submitted and lands where `NextEnqueue` puts it, `Jobs` rises in the same step, and nothing else changes. |
| Pool.Wait | api/dispatcher.go:78-83 | Given the values its polls read, `Wait` returns after the first poll that reads ≤ 0, and never while every poll reads a positive count. Its loop test `WaitStops` is the same test as `WaitReturns` on a state. |
| Accounting.StartEstablishesInv | api/dispatcher.go:52-60 | A started dispatcher satisfies the accounting invariant. |
| Accounting.NextPreservesInv | api/dispatcher.go:62-117 | Every step preserves the invariant and both capacities. |
| Accounting.RunPreservesInv | api/dispatcher.go:62-139 | Every run preserves the invariant and both capacities. |
| Accounting.Conservation | api/dispatcher.go:85-117 | After any run from `Start`, each submitted job is exactly once either handled, queued, waiting for a worker, or held by one. `Jobs` plus owed increments equals the jobs in flight, which is submitted minus finished. With nothing owed, `Jobs` equals submitted minus finished. |
| Accounting.WorkersStayNumbered | api/dispatcher.go:121-139 | Workers keep IDs 1..workerCount, and the job queue never exceeds `bufferSize`. |
| Accounting.WaitIsExact | api/dispatcher.go:79-100 | In any state that satisfies the invariant and owes no deferred increment, `Jobs` equals the jobs in flight and is never negative. `Wait` returns there exactly when nothing is queued, waiting or being handled. |
| Accounting.CorrectedWaitIsExact | api/dispatcher.go:79-100 | Start from any state that satisfies the invariant and owes no increment; a started dispatcher is one. In any run that submits only in the corrected way, `Jobs` equals the jobs in flight and is never negative. `Wait` returns exactly when nothing is queued, waiting or being handled. |
| Accounting.AsWrittenWaitReturnsEarly | api/dispatcher.go:79-100 | As written, in any started dispatcher with a buffer, one `DispatchHook` whose deferred `startJob` has not run yet leaves `Jobs` at 0, so `Wait` returns, while one job is still queued. |
| Accounting.AsWrittenWaitReturnsAfterDispatchReturned | api/dispatcher.go:79-117 | As written, after a second `DispatchHook` has fully returned, `Wait` returns while that call's job is still queued. |
| Accounting.AsWrittenJobsGoNegative | api/dispatcher.go:85-117 | As written, a state is reachable where `Jobs` = -1. |
| Accounting.EndToEndDelivery | api/dispatcher.go:142-186 | With two hooks registered for the event, the job's delivery makes one POST of the payload `{"a":1}` to h1, then one to h2, and counts no error. |
| Accounting.EndToEnd | api/dispatcher.go:94-139 | Two workers, buffer four, one `DispatchHook` run to completion: the job is handled once, `Jobs` is back at 0, nothing is in flight, no errors are counted, and `Wait` returns. |
| Middleware.TransactionServe | api/middleware.go:28-55 | Downstream handlers run only if `Begin` succeeds, and they see the transaction in the `db` slot. Status > 399: rollback, with the slot left as downstream left it. Otherwise: commit, with the slot set back to the pool. If `Begin` fails: status 500 and the error text appended to the body. |
| Middleware.GetCtxDB | api/middleware.go:57-65 | Returns the stored handle if and only if the slot is set. Otherwise returns the error "Could not find database instance in request context." |
| Middleware.TransactionVisibleThroughGetCtxDB | api/middleware.go:35-65 | Downstream handlers get the transaction from `GetCtxDB`. After a commit, or when `Begin` failed, they get the pool. |
| Middleware.RequestLevel | api/middleware.go:159-172 | Exactly one level is chosen: Warn for 400..499, Error above 499, Info otherwise. Info is chosen exactly when the status is not an error. |
| Middleware.LoggerServe | api/middleware.go:122-175 | After the downstream handlers, one request line is logged at the status's level with its message: "Request failed.", "Response failed." or "Request successful.". Every other line is debug. There are three lines on the Info path, where a closing debug line is logged, and two otherwise. |
| Middleware.SentryServe | api/middleware.go:189-208 | An error is captured if and only if the status is > 499. It carries the response body and the source, type and url tags. |
| Middleware.VersionServe | api/middleware.go:73-83 | The downstream handlers run with `KHAN-VERSION` already set to the version. |
| Middleware.ThresholdsAgree | api/middleware.go:42-45 | Rollback happens exactly when the logger is above Info, and exactly when the worker would count that status as a failed delivery. Sentry captures exactly when the logger reports Error. |

## Left out

- Goroutines, channels and scheduling: every step is atomic. The unsynchronized `Jobs++`/`Jobs--` (api/dispatcher.go:85-91) can lose updates, and the model does not show this.
- `time.Sleep` polling in `Wait`: `Pool.Wait` takes the sequence of values its polls read.
- The fasthttp client and the network: replaced by the outcome oracle. The client name is `"khan-" + version`, and the Go constant `VERSION` is taken as `Config.version`.
- `encoding/json` marshalling: an input `Option<seq<byte>>`, where failure yields the empty payload, as the discarded error does in the code.
- `App.GetHooks` and configuration loading: the registry and `webhooks.timeout` are inputs. The timeout is kept in seconds; the conversion to a nanosecond `time.Duration` and its int64 overflow are not modelled.
- `Jobs` is an unbounded integer; 64-bit wrap-around of Go's `int` is not modelled.
- Calling `Start` twice, and `NewDispatcher`, which only stores the two sizes (folded into `Pool.Start`).
- The idle-worker channel is FIFO; the model lets a hand-off take any idle worker, which over-approximates it.
- Logging through zap: the dispatcher's log lines, the middlewares' debug lines, and the logger's latency, IP, method and path fields.
- `Middleware.LoggerServe`: the log lines' structured fields are not modelled.
- The Go type assertions `(m.App.Db).(*gorp.DbMap)` and `val.(models.DB)`, which panic on a wrong type; the slot here holds only database handles.
- Errors from `tx.Commit()` and `tx.Rollback()`: the code ignores them.
- `RecoveryMiddleware` (panic recovery and `debug.Stack`), `StatsMiddleware` (metrics) and the raven transport: external subsystems.
- models/membership_test.go, api/test_helpers.go and cmd/start.go: database-backed tests, test scaffolding and process bootstrap, with no dispatcher logic.

## Findings

| source | as written | input that shows it | evidently intended | confidence | as-written member | corrected member |
|---|---|---|---|---|---|---|
| api/dispatcher.go:94-100 | `defer d.startJob()` raises `Jobs` only after the channel send has completed | Any started dispatcher with a buffer. A `DispatchHook` completes its send before its deferred `startJob` runs. `Jobs` is 0, so `Wait` returns with the job still queued. If the job is also received, handed off and finished first, `Jobs` reaches -1. | Count the job before it can be taken, so that `Jobs` is the number of jobs in flight and `Wait` returns only when none remain | medium, not executed | Accounting.AsWrittenWaitReturnsEarly | Accounting.CorrectedWaitIsExact |
