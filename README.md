# LCEService execution pipeline, in Dafny

LCEService takes source code from a client, runs it asynchronously in an external language runtime
(python3 or `go run`), and reports stdout, stderr and the elapsed time back. This project models
the execution task pipeline of that service:

- the producer side: the code-session endpoints that create, patch and run a session;
- the compile-task encoding shared by both sides;
- the worker that consumes the tasks: admission by a rate limiter, decoding, the type switch, the
  subprocess, and the race between the result and the cancelled context;
- the retry policy the queue server is configured with;
- the endpoint that reads an execution back.

The modules follow the Go packages:

| module | models |
|---|---|
| `GoBasics` | the Go number semantics the code relies on: `Duration.Milliseconds` truncating toward zero, the `int16(...)` wrap-around, `strings.ToUpper` |
| `Store` | the execution rows and the two update queries the worker issues |
| `Tasks` | `pkg/tasks`: the type tags, the payload, `NewCompileTask` |
| `RetryPolicy` | the errors an attempt returns, `RateLimitError`, `IsRateLimitError`, `RetryDelay` and the consumer's `IsFailure` hook |
| `ExecutionHandler` | the worker: every store write, filesystem call and process launch is an `Event`. Pure attempt functions (`PythonAttempt`, `GoAttempt`, `TaskAttempt`) say which events one attempt issues and which error it returns. `ExecutionHandler.Handler` is the handler object whose methods (`ProcessTask`, `CompilePython`, `CompileGo`, `FailExecution`) issue those events one by one and are proved to issue exactly the ones the attempt functions describe |
| `HandlerProperties` | what an attempt does to an execution row, derived from the attempt functions |
| `ExecutionApi` | `GetExecution`, the read projection of a row |
| `CodeSessionApi` | the session endpoints, as a class holding the sessions, the committed executions, the open transaction, the broker's queue and the log of transaction and broker calls |
| `Http`, `Wrappers` | responses, `Option` and `Result` |
| `Scenarios` | client methods that drive the pipeline end to end through the contracts: a Python run that completes, a Go program cut off by the timeout, a run refused for an unsupported language, an attempt denied by the limiter |

The execution rows are a map from id to row. The worker's class keeps the rows, the temporary
files and the trace of events it issued. Its invariant `Logged()` says that the rows are the
original rows with every write of the trace replayed. `ProcessTask` ensures that the new trace
is the old one followed by `TaskAttempt(task, env, files).events`, and that the new rows are the
old ones with those events replayed.

Everything the code learns from outside is an input of type `Env` or `RunEnv`:
- whether each query succeeds;
- `RateLimiter.Allow()` and `rand.Intn(10)`;
- the subprocess's output and elapsed time;
- whether `os.Mkdir` and `os.Create` fail;
- which side of the final `select` is taken.

### Where the code departs from what one would expect

The model follows the code in each case.

- The rate limiter is consulted before the payload is decoded. A denied attempt does not look at the payload at all.
- A payload that does not decode takes the row from Queued straight to Failed, without Running. The id written is whatever the partial decode left, and that may be the nil UUID (`ExecutionHandler.TaskAttempt`, `HandlerProperties.DecodeFailureHistory`).
- An unknown type tag returns an error without writing Failed, so the row stays Queued (`HandlerProperties.UnknownTypeLeavesRows`).
- The error `cmd.Run` returns is discarded. A subprocess that cannot even be started still leads to Completed, with whatever the buffers hold (`HandlerProperties.ExitStatusIgnored`).
- Statuses are not forward-only:
  - when `CompleteExecution` fails, the attempt stores Failed, and the queue's retry stores Running over it (`HandlerProperties.RetryRewritesFailed`);
  - when the compile result and the cancellation are both ready, the `select` may take the cancellation after Completed was stored, and Timeout is written over Completed (`HandlerProperties.TimeoutOverCompleted`).
- A timeout is not retried only when the Timeout write succeeds. If that write fails, its error is returned instead of `asynq.SkipRetry`, and the queue retries.
- `RunCodeSession` ignores the result of `tx.Commit`. A task can therefore be enqueued with no committed execution row, although one would expect no task to exist without its row (`CodeSessionApi.CodeSessionApi.RunCodeSession`).
- `os.Mkdir(dir, 0644)` makes a directory without the search bit. For a user other than root, `os.Create` inside it then fails. The model covers that failure with the `createFails` input.
- The code returns HTTP 201 from every successful handler, the read endpoint included. The model keeps 201.

## Model

| member | source | states |
|---|---|---|
| GoBasics.Milliseconds | api/execution/executionhandler/executionhandler.go:84 | `Duration.Milliseconds` truncates toward zero: for d >= 0, ms·10⁶ <= d < (ms+1)·10⁶, and symmetrically below zero |
| GoBasics.ToInt16 | api/execution/executionhandler/executionhandler.go:84 | `int16(x)` is congruent to x modulo 2¹⁶, and is x itself when x fits in 16 bits |
| GoBasics.ToInt16Unique | api/execution/executionhandler/executionhandler.go:84 | any 16-bit value congruent to x is `ToInt16(x)`, so the wrap-around is determined |
| GoBasics.ToUpper | api/execution/executionapi/executionapi.go:36 | same length as the input; no lower-case letter is left; each lower-case letter becomes the upper-case letter at the same place in the alphabet; every other character is kept |
| GoBasics.ToUpperKeepsUpper | api/execution/executionapi/executionapi.go:36 | text with no lower-case letter comes back unchanged |
| GoBasics.ToUpperIdempotent | api/execution/executionapi/executionapi.go:55 | upper-casing an already reported status changes nothing |
| Store.UpdateExecution | api/execution/executionhandler/executionhandler.go:57 | the row with the id gets the new status and keeps its output columns; every other row is unchanged; no row is added or removed |
| Store.CompleteExecution | api/execution/executionhandler/executionhandler.go:79-87 | the row with the id gets the status, stdout, stderr and time; every other row is unchanged; no row is added or removed |
| Tasks.NewCompileTask | pkg/tasks/tasks.go:23-41 | a marshalling error comes first; otherwise it succeeds exactly for "python" and "go", fails with the unsupported-language error naming the language for anything else, puts the three fields in the payload, and tags python as `compile:python` and go as `compile:go` |
| Tasks.RuntimeFor | api/execution/executionhandler/executionhandler.go:152-171 | the worker dispatches to Python exactly for `compile:python`, to Go exactly for `compile:go` |
| Tasks.TagAgreesWithLanguage | pkg/tasks/tasks.go:33-40 | a built task's tag leads the worker to the runtime of the language in its payload |
| Tasks.TagDependsOnLanguageOnly | pkg/tasks/tasks.go:33-40 | two tasks for the same language get the same tag, whatever their ids and sources |
| RetryPolicy.AsRateLimitError | api/execution/executionhandler/executionhandler.go:45-46 | `errors.As` finds a rate-limit error exactly when one is in the error's chain, and returns its delay |
| RetryPolicy.AsRateLimitErrorFinds | api/execution/executionhandler/executionhandler.go:45-47 | whichever rate-limit error is in the chain is the one `errors.As` returns |
| RetryPolicy.IsRateLimitError | api/execution/executionhandler/executionhandler.go:39-42 | the type assertion holds only for an unwrapped rate-limit error, agrees with `errors.As` on unwrapped errors, and fails on every wrapped one |
| RetryPolicy.RetryDelay | api/execution/executionhandler/executionhandler.go:44-50 | the delay is the rate-limit error's own delay when one is in the chain, and the queue's default delay otherwise |
| RetryPolicy.IsFailure | cmd/consumer/main.go:34 | every error except an unwrapped rate-limit error counts as a failure |
| RetryPolicy.FailureMatchesDelay | cmd/consumer/main.go:34-35 | on unwrapped errors, not a failure ⟺ retried after the rate-limit delay |
| RetryPolicy.WrappedDenialCountsAsFailure | api/execution/executionhandler/executionhandler.go:39-50 | a wrapped denial gets its jittered delay but is still counted as a failure |
| ExecutionHandler.Replay | api/execution/executionhandler/executionhandler.go:56-134 | replaying the worker's writes never adds or removes a row |
| ExecutionHandler.ReplayAppend | api/execution/executionhandler/executionhandler.go:56-134 | replaying two runs of events is replaying the first, then the second |
| ExecutionHandler.StatusIsLastWritten | api/execution/executionhandler/executionhandler.go:56-134 | a row's status after a run of events is the last status a successful write stored for it, or its old status if none did |
| ExecutionHandler.EncodeElapsed | api/execution/executionhandler/executionhandler.go:75-84 | the stored time is the elapsed milliseconds modulo 2¹⁶, and the truncated milliseconds themselves when the run took under 32.768 s |
| ExecutionHandler.PythonAttempt | api/execution/executionhandler/executionhandler.go:64-90 | Running is written first; if it fails, only that write happens and its error is returned; python3 is launched only after a successful Running write and is followed at once by the CompleteExecution write of its output; nil exactly when both writes succeed |
| ExecutionHandler.GoWorkspaceAttempt | api/execution/executionhandler/executionhandler.go:105-133 | the directory is always removed last; a failed `os.Create` ends the inner steps with a filesystem error; after a successful one, the source is written to main.go, go run is launched on it and its output is stored, then the file and the directory are removed; a failed CompleteExecution returns the query error; nil exactly when the file is created and CompleteExecution succeeds |
| ExecutionHandler.GoAttempt | api/execution/executionhandler/executionhandler.go:92-134 | Running first; `os.Mkdir` is attempted only right after a successful Running write; an existing directory or a failed Mkdir ends the attempt with a filesystem error and nothing to clean up; otherwise the directory is made and `os.Create` tried in it, a failed Create removing the directory and returning a filesystem error; after a successful Create, the source is written, `go run` launched and CompleteExecution issued, and the file and directory removed at the end; nil exactly when every step succeeds, the query error when only CompleteExecution fails |
| ExecutionHandler.TaskAttempt | api/execution/executionhandler/executionhandler.go:136-191 | a denied attempt issues nothing and asks to be retried within 10 s; an undecodable payload writes Failed and returns the decode error; an unknown tag issues nothing and returns its error; otherwise the compile events are followed by the Timeout write (and SkipRetry if it succeeds) when the context wins, or by the Failed write when the compile step returned an error; nil only when admitted, the result won, and the output was stored |
| ExecutionHandler.Handler.FailExecution | api/execution/executionhandler/executionhandler.go:56-62 | issues the Failed write and returns its error |
| ExecutionHandler.Handler.CompilePython | api/execution/executionhandler/executionhandler.go:64-90 | issues exactly `PythonAttempt`'s events and returns its error |
| ExecutionHandler.Handler.CompileGo | api/execution/executionhandler/executionhandler.go:92-134 | issues exactly `GoAttempt`'s events, returns its error, and leaves the temporary files as it found them |
| ExecutionHandler.Handler.MakeWorkspace | api/execution/executionhandler/executionhandler.go:97-103 | `os.Mkdir` fails on an existing directory; otherwise the directory is made and the inner steps run in it |
| ExecutionHandler.Handler.InWorkspace | api/execution/executionhandler/executionhandler.go:105-108 | issues exactly `GoWorkspaceAttempt`'s events, and the directory is gone afterwards |
| ExecutionHandler.Handler.RunSource | api/execution/executionhandler/executionhandler.go:105-133 | from a successful `os.Create`, main.go is created, used and removed, and then the directory |
| ExecutionHandler.Handler.RunProgram | api/execution/executionhandler/executionhandler.go:111-131 | writes the source, runs it, stores its output, and returns the CompleteExecution error |
| ExecutionHandler.Handler.RemoveWorkspace | api/execution/executionhandler/executionhandler.go:103-109 | the deferred removals run last registered first: the file (when it was created), then the directory |
| ExecutionHandler.Handler.ProcessTask | api/execution/executionhandler/executionhandler.go:136-191 | issues exactly `TaskAttempt`'s events, the rows become those events replayed on the old ones, the error is the attempt's, and no temporary file is left behind |
| ExecutionHandler.Handler.Attempt | api/execution/executionhandler/executionhandler.go:136-171 | admission first, then decoding, then the type switch, in that order |
| ExecutionHandler.Handler.Compile | api/execution/executionhandler/executionhandler.go:152-168 | the type switch runs the compile step of the task's runtime |
| ExecutionHandler.Handler.Select | api/execution/executionhandler/executionhandler.go:173-190 | the final select: the Timeout write on a cancelled context, otherwise the Failed write after an error, and the error returned unchanged |
| HandlerProperties.ReplayWithoutWrites | api/execution/executionhandler/executionhandler.go:97-120 | filesystem calls and process launches leave every row alone |
| HandlerProperties.PythonHistory | api/execution/executionhandler/executionhandler.go:64-90 | a Python attempt past the Running write stores Running, then Completed if that write succeeds |
| HandlerProperties.DenialLeavesRows | api/execution/executionhandler/executionhandler.go:137-139 | a denied attempt changes no row |
| HandlerProperties.UnknownTypeLeavesRows | api/execution/executionhandler/executionhandler.go:169-170 | an unknown type tag changes no row |
| HandlerProperties.DecodeFailureHistory | api/execution/executionhandler/executionhandler.go:141-145 | an undecodable payload stores Failed for the partially decoded id, and only if that write succeeds; no Running |
| HandlerProperties.CancellationEndsInTimeout | api/execution/executionhandler/executionhandler.go:173-182 | when the context wins and the Timeout write succeeds, the row ends in Timeout and SkipRetry is returned |
| HandlerProperties.CompileErrorEndsInFailed | api/execution/executionhandler/executionhandler.go:183-189 | when the result wins with an error and the Failed write succeeds, the row ends in Failed |
| HandlerProperties.PythonSuccessRow | api/execution/executionhandler/executionhandler.go:76-87 | a Python attempt returning nil leaves the row Completed with the captured output and time |
| HandlerProperties.GoSuccessRow | api/execution/executionhandler/executionhandler.go:120-131 | so does a Go attempt; the removals after it touch no row |
| HandlerProperties.SuccessStoresOutput | api/execution/executionhandler/executionhandler.go:183-189 | an attempt that returns nil leaves its row Completed with the captured stdout, stderr and wrapped time |
| HandlerProperties.ExitStatusIgnored | api/execution/executionhandler/executionhandler.go:75-87 | the subprocess's exit status changes nothing the attempt does |
| HandlerProperties.EncodedTaskStartsRunning | pkg/tasks/tasks.go:23-41 | a task `NewCompileTask` built always decodes and has a known tag, so an admitted attempt on it starts with the Running write for its id |
| HandlerProperties.TimeoutOverCompleted | api/execution/executionhandler/executionhandler.go:173-182 | a Python attempt whose compile step stored Completed, and whose select then takes the cancelled context, stores Running, Completed, Timeout and returns SkipRetry |
| HandlerProperties.RetryRewritesFailed | api/execution/executionhandler/executionhandler.go:183-189 | a failed CompleteExecution followed by a successful retry stores Running, Failed, Running, Completed |
| ExecutionApi.ReportedStatusNames | api/execution/executionapi/executionapi.go:36 | the reported statuses are QUEUED, RUNNING, COMPLETED, FAILED and TIMEOUT |
| ExecutionApi.ReportedStatusInjective | api/execution/executionapi/executionapi.go:55 | distinct statuses are reported distinctly |
| ExecutionApi.GetExecution | api/execution/executionapi/executionapi.go:18-69 | an unparsable id and a failed or empty lookup give their 500 messages; otherwise a 201 body with the id and the upper-cased status, plus stdout, stderr and the time (NULL read as "" and 0) exactly when the row is Completed |
| CodeSessionApi.CodeSessionApi.CreateCodeSession | api/codesessionapi/codesessionapi.go:25-53 | a new session with language python and empty source, or the 500 message and no change |
| CodeSessionApi.CodeSessionApi.PatchCodeSession | api/codesessionapi/codesessionapi.go:60-101 | the id is parsed, then the body, then the row is updated with the language and source as given (unchecked); each failure gives its message and changes nothing |
| CodeSessionApi.CodeSessionApi.RunCodeSession | api/codesessionapi/codesessionapi.go:103-165 | each early failure gives its message and commits and enqueues nothing. Once the transaction is open, every path ends in the deferred rollback. The compile task is enqueued only after the row was inserted and the task built. A committed row always has its task last in the queue. A failed commit leaves an enqueued task with no row. Success answers 201 with the new id and QUEUED. The class invariant, that every committed execution has its compile task in the queue, is kept |
| CodeSessionApi.CodeSessionApi.InTransaction | api/codesessionapi/codesessionapi.go:123-153 | the transactional part of a run: insert, build, enqueue, commit, in that order, each failure rolled back |
| CodeSessionApi.CodeSessionApi.RollbackTx | api/codesessionapi/codesessionapi.go:123 | the deferred rollback discards what the transaction staged |

## Left out

- JSON encoding and decoding are not modelled byte by byte. A payload either decodes to its fields or is `Malformed`, carrying the id the partial decode left. A marshalling failure is a boolean input.
- UUID parsing and formatting: `uuid.Parse` is an input (`None` when the text is not a UUID), and a UUID in a body is the value itself.
- HTTP headers, `w.Write` and its error branch, and the "Failed to encode json" branches: marshalling a map of strings cannot fail, and the transport is outside the model.
- The subprocess, the clock and the filesystem are inputs: the output buffers, the elapsed time, and whether Mkdir and Create fail. The temporary directory is an abstract path per execution id. `MemoryLimit` is never read by the handler.
- The token bucket of `rate.Limiter` is not modelled: `Allow()` is an input. `rand.Intn(10)` is modelled by its range 0..9.
- `asynq` itself is not modelled: broker delivery, the per-task timeout wrapper that cancels the context, retry counting and archiving. `asynq.DefaultRetryDelayFunc` is a parameter of `RetryDelay`.
- ExecutionHandler.TaskAttempt: the compile goroutine is modelled as running to completion before the final `select`, whose winner is an input. Interleavings in which the goroutine's writes land after the Timeout write are not modelled. Neither is a compile step cut short by the cancellation, beyond the query errors it causes, which are inputs. The handler starts with no temporary files and every attempt leaves them as it found them, so `ProcessTask` never reaches the existing-directory branch of `GoAttempt`. In the code, a cancelled attempt returns before the goroutine's deferred `os.RemoveAll` has run, so a fast retry or a restarted worker can find the directory still there and fail `os.Mkdir`; that case is stated for `GoAttempt` on its own but not reached through `ProcessTask`.
- Store.StatusName: the database enum's text is not part of this model; the lower-case names are assumed from the upper-cased statuses the read endpoint reports.
- Store.UpdateExecution: the query text is generated code that is not part of this model. Each update is read as an UPDATE by id that changes nothing when the row does not exist.
- CodeSessionApi.CodeSessionApi.PatchCodeSession: the database enum may refuse a language other than python or go. That refusal is covered only by the `updateFails` input.
- GoBasics.ToUpper: upper-cases ASCII letters only; `strings.ToUpper` also maps the rest of Unicode.
- CodeSessionApi.CodeSessionApi.RunCodeSession: the worker may consume a queued compile task before the commit lands. That race with the consumer is not modelled.
- The `log.Printf` of the compile error before the Failed write (executionhandler.go:185) is not modelled: logging changes neither the rows nor the returned error.
- The configuration loading and the `main` wiring of both binaries are not modelled, apart from the `IsFailure` and `RetryDelayFunc` hooks.
