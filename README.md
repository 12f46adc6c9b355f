# sidecar: health gate and run lifecycle

This project models the core of the `sidecar` supervisor, a single-shot tool.
It starts a pre-exec process, optionally waits until a health check of that
process passes, starts the main process, and stops the pre-exec process with
SIGTERM once the main process has exited. Both pieces of logic live in
`pkg/process/process.go`:

- `health.dfy`, module `Health`: the health-check record, the HTTP status
  classifier `checkHealthHTTP`, the TCP stub `checkHealthTCP`, and the retry
  loop `waitCheckHealth`. The loop is the method `WaitCheckHealth`. It takes
  the answers of the network as an oracle `http: nat -> HttpAttempt`, which
  gives the answer to probe number i. It returns the outcome and the trace of
  `Probe(i)` and `Sleep(interval)` events. Its contract ties it to `Gate`, a
  recursive reference definition. Lemmas then state what `Gate` does in
  closed form: no retries, an unrecognised kind, a first success at attempt
  k, all probes failing, and when it passes at all.
- `lifecycle.dfy`, module `Lifecycle`: `ProcessManager.Run` as the method
  `Run`. It runs straight through with an early return at each failure. Each
  effect of the operating system is an `Environment` input:
  - whether each start succeeds;
  - what the health probes meet;
  - which arm of the final `select` wins;
  - whether the pre-exec handle reads as nil;
  - whether the signal fails.

  `Run` returns a `RunResult` and a trace of `StartPreExec`, `HealthGate`,
  `StartMain`, `Cancel`, `SigTerm` and `DeferredCancel` events. Its contract
  equates them with two declarative functions. `RunTrace` includes each step
  exactly when the run gets that far. `RunOutcome` lets the first failing
  step decide the result. The lemmas prove the lifecycle properties about
  these two functions: the lifecycle order, at most one SIGTERM, the paths
  that skip teardown, and the result of each path.

Where the design description of the system and the code disagree, the model
follows the code:

- The retry loop sleeps after every failed probe, including the last one
  (`pkg/process/process.go:64`). So a check that never passes makes
  `retries` probes and `retries` sleeps (`GateAllFail`).
- With `retries <= 0` the loop does not run, so even an unrecognised kind
  yields "retry count exceeded" and not "unknown healthcheck type" (`Gate`).
- The TCP check is a stub that always succeeds (`CheckHealthTCP`).
- The retry loop does not watch the context. A cancelled context reaches it
  only through a failing HTTP request, which is the oracle answer
  `TransportFailed`. Sleeps are not cut short.
- A main-process error, a health-gate failure and a cancelled context all
  return without signalling the pre-exec process. Only the deferred
  `cancel()` runs (`RunFailureStopsEarly`).
- An empty command is not rejected up front. Indexing `Command[0]` panics,
  which the model records as the result `EmptyCommandPanic`. The deferred
  cancel still runs.

## Model

| member | source | states |
|---|---|---|
| `Health.CheckHealthHTTP` | pkg/process/process.go:69-84 | a probe succeeds exactly when a response arrives with a status code below 300; a request that cannot be built, a transport error and a status of 300 or more are failures, each with its own error |
| `Health.CheckHealthTCP` | pkg/process/process.go:86-89 | the TCP probe always reports success |
| `Health.GateFrom` | pkg/process/process.go:44-67 | the loop from attempt i reports an unknown kind only for the configured, unrecognised kind and before any event; a healthy run ends on a probe; a run out of retries ends on a sleep or has no events |
| `Health.Gate` | pkg/process/process.go:44-67 | with retries <= 0 there is no probe, no sleep and "retry count exceeded", whatever the kind; with retries >= 1 an unrecognised kind fails with no probe and no sleep; a TCP check passes after exactly one probe and no sleep |
| `Health.FailedRoundsShape` | pkg/process/process.go:45-64 | n failed attempts are n probes numbered 0 to n-1, each followed by a sleep of the interval |
| `Health.GateAfterFailures` | pkg/process/process.go:45-65 | after i failed attempts the loop has emitted exactly those i rounds and continues from attempt i |
| `Health.GateFirstSuccess` | pkg/process/process.go:45-64 | if attempt k < retries is the first to succeed, the result is healthy after exactly k+1 probes and k sleeps, and the last event is the successful probe |
| `Health.GateAllFail` | pkg/process/process.go:45-66 | if every probe fails, there are exactly `retries` probes and `retries` sleeps, the last event is a sleep, and the result is "retry count exceeded" |
| `Health.GateFromHealthyIff` | pkg/process/process.go:45-66 | from attempt i, the loop ends healthy if and only if the kind is recognised and some attempt from i up to the retry count succeeds |
| `Health.GateHealthyIff` | pkg/process/process.go:44-67 | the gate passes if and only if the kind is recognised and some attempt below the retry count succeeds |
| `Health.WaitCheckHealth` | pkg/process/process.go:44-67 | the imperative retry loop returns exactly the outcome and the probe/sleep trace of the reference definition |
| `Lifecycle.OrderedAtMostOnce` | pkg/process/process.go:91-159 | a trace in lifecycle order holds every step at most once |
| `Lifecycle.RunTraceOrdered` | pkg/process/process.go:91-159 | every run takes its steps in the order pre-exec start, health gate, main start, cancel, SIGTERM, deferred cancel |
| `Lifecycle.RunTraceSteps` | pkg/process/process.go:93-150 | pre-exec start is attempted iff its command is non-empty; the gate runs iff pre-exec started and a health check is set, and records the loop's own outcome and trace; main start is attempted iff pre-exec started, the gate passed or was absent, and the main command is non-empty; cancel iff main exited without error; SIGTERM iff additionally the pre-exec handle is present; the deferred cancel is always last |
| `Lifecycle.RunSignalsAtMostOnce` | pkg/process/process.go:133-158 | SIGTERM is sent at most once, exactly on the "main exited with nil" path when the handle is present, and always after the explicit cancel |
| `Lifecycle.RunFailureStopsEarly` | pkg/process/process.go:99-143 | a failed pre-exec start, a failed gate (whose cause is not healthy), a failed main start, a main error or a cancelled context ends the run with no later step but the deferred cancel; a panic on an empty command never starts main or signals |
| `Lifecycle.RunResultCases` | pkg/process/process.go:133-158 | the result is the signal error iff SIGTERM was sent and failed; no error iff main started and either the context was cancelled or main exited cleanly and teardown did not fail; the main error iff main started and exited with an error |
| `Lifecycle.RunWithoutHealthCheck` | pkg/process/process.go:91-159 | without a health check and with everything succeeding, the trace is pre-exec start, main start, cancel, SIGTERM, deferred cancel, with SIGTERM exactly once |
| `Lifecycle.Run` | pkg/process/process.go:91-159 | the step-by-step run returns exactly the declarative outcome and trace |

## Left out

- Process creation is not modelled: `exec.CommandContext`, `Start`, `Wait`,
  `Setpgid`, and the environment and standard-stream inheritance. Each
  start's success is an input.
- The HTTP client, the URL `http://localhost:{port}{path}` and the request
  timeout are not modelled. Only the classification of what the request
  yields is. `port`, `path` and `timeout` are carried in the record but
  unused. The code never reads `Timeout` at all.
- The goroutine, the completion channel and the `select` race are not
  modelled. The winning arm is a nondeterministic input (`SelectArm`).
- Wall-clock time is not modelled. A sleep is an event carrying
  `Interval`. The `Interval * time.Second` conversion (64-bit overflow,
  negative durations that do not sleep) is not modelled.
- Go's 64-bit `int` for `Retries` and the loop counter is an unbounded
  integer here. The counter stays below `Retries`, so it cannot wrap.
- The `preExec.Process == nil` check is modelled as an input read at
  teardown. In Go the handle is set by a successful `Start` and never
  cleared, so that branch does not happen in practice.
- The effect of cancelling the context on running processes is not
  modelled. The context kills processes started under it, but the model
  records the cancel only as an event.
- Logging (`slog`) is not modelled, including the pid logged for the main
  process at line 127, which is in fact the pre-exec pid.
- `cmd/sidecar/main.go` (flag parsing, logger set-up, splitting the
  pre-exec command) is not part of this model.
