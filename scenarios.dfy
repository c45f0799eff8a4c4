/**
 * Client code that drives the whole pipeline through the contracts above, as a user of the
 * service would: submit through the API, deliver the queued task to the worker, read the
 * execution back. Each method asserts what the caller can rely on.
 */
module Scenarios {
  import opened GoBasics
  import opened Wrappers
  import opened Store
  import opened Tasks
  import opened RetryPolicy
  import opened ExecutionHandler
  import opened HandlerProperties
  import opened Http
  import opened ExecutionApi
  import opened CodeSessionApi

  /** The attempt outcome in which every call succeeds and the compile result wins the select. */
  function AllWell(run: ProcessRun): Env
  {
    Env(true, 0, true, true, true, true, false, false, run, ResultReceived)
  }

  /** Submit a session whose source prints "hi": the row is QUEUED and its task is on the queue. */
  method SubmitHello(sessionId: Uuid, execId: Uuid, sessionStatus: string)
  {
    var api := new CodeSessionApi(2 * Second, 3);
    var r := api.CreateCodeSession(sessionId, sessionStatus, false);
    var src := "print(\"hi\")";
    r := api.PatchCodeSession(Some(sessionId), Some(PatchRequest(LanguagePython, src)), false);
    r := api.RunCodeSession(Some(sessionId), RunEnv(false, false, execId, false, true, false, false));
    assert r.JsonResponse? && r.body["status"] == JString(ReportedStatus(Queued));
    var task := Task(TypeCompilePython, Encoded(CompilePayload(execId, LanguagePython, src)));
    assert api.queue == [Enqueued(task, 2 * Second, 3)];
    assert api.executions == map[execId := NewExecution(Queued)];
  }

  /** The worker runs that task: RUNNING, then COMPLETED with the output and the time taken. */
  method RunHello(execId: Uuid, rs: Records)
    requires rs == map[execId := NewExecution(Queued)]
  {
    var src := "print(\"hi\")";
    var task := Task(TypeCompilePython, Encoded(CompilePayload(execId, LanguagePython, src)));
    var h := new Handler(rs);
    var env := AllWell(ProcessRun("hi\n", "", 30 * Millisecond, Exited(0)));
    var err := h.ProcessTask(task, env);
    assert err.None?;
    SuccessStoresOutput(task, env, {}, rs);
    assert h.records[execId] == Execution(Completed, Some("hi\n"), Some(""), Some(30));
    assert StatusHistory(h.trace, execId) == [Running, Completed] by {
      assert h.trace == [StatusWrite(execId, Running, TaskContext, true), RunProcess(PythonInline(src)),
                         CompletionOf(execId, env)];
      PythonHistory(execId, RunProcess(PythonInline(src)), env);
    }

    var g := GetExecution(Some(execId), h.records, false);
    ReportedStatusNames(Completed);
    assert g.body["status"] == JString("COMPLETED");
    assert g.body["stdout"] == JString("hi\n") && g.body["execution_time_ms"] == JNumber(30);
  }

  /** A Go program that never stops, cut off by the per-task timeout: TIMEOUT, and no retry. */
  method GoForever(execId: Uuid, rs: Records, source: string)
    requires rs == map[execId := NewExecution(Queued)]
  {
    var t := NewCompileTask(execId, LanguageGo, source, true);
    var task := t.value;
    var h := new Handler(rs);
    var env := Env(true, 0, true, false, true, true, false, false,
                   ProcessRun("", "signal: killed", 2 * Second, Killed), ContextDone);
    var err := h.ProcessTask(task, env);
    CancellationEndsInTimeout(task, env, {}, rs);
    assert err == Some(SkipRetry) && IsFailure(err.value);
    assert h.records[execId].status == Timeout;
    assert h.files == {};
    var g := GetExecution(Some(execId), h.records, false);
    ReportedStatusNames(Timeout);
    assert g.body.Keys == {"execution_id", "status"} && g.body["status"] == JString("TIMEOUT");
  }

  /** A session patched to an unsupported language: the run is refused and nothing is committed or queued. */
  method Ruby(sessionId: Uuid, execId: Uuid, sessionStatus: string)
  {
    var api := new CodeSessionApi(2 * Second, 3);
    var r := api.CreateCodeSession(sessionId, sessionStatus, false);
    r := api.PatchCodeSession(Some(sessionId), Some(PatchRequest("ruby", "puts 1")), false);
    assert api.sessions[sessionId].language == "ruby";
    r := api.RunCodeSession(Some(sessionId), RunEnv(false, false, execId, false, true, false, false));
    assert r == InternalError("Failed to create code session running task");
    assert api.queue == [] && api.executions == map[];
    assert api.steps == [Begin, InsertExecution(execId, true), Rollback];
  }

  /**
   * An exhausted limiter: the attempt asks for a retry within ten seconds, is not a failure and
   * leaves the row Queued; the next, admitted, attempt runs normally.
   */
  method Denied(execId: Uuid, rs: Records, k: Digit,
                defaultDelay: (int, TaskError, Task) -> Duration)
    requires rs == map[execId := NewExecution(Queued)]
  {
    var task := NewCompileTask(execId, LanguagePython, "print(1)", true).value;
    var h := new Handler(rs);
    var denied := Env(false, k, true, true, true, true, false, false, ProcessRun("", "", 0, Exited(0)), ResultReceived);
    var err := h.ProcessTask(task, denied);
    assert err.Some? && !IsFailure(err.value);
    AsRateLimitErrorFinds(err.value, k * Second);
    assert 0 <= RetryDelay(0, err.value, task, defaultDelay) < 10 * Second;
    assert h.records == rs && h.records[execId].status == Queued;

    var env := AllWell(ProcessRun("1\n", "", Millisecond, Exited(0)));
    err := h.ProcessTask(task, env);
    assert err.None?;
    SuccessStoresOutput(task, env, {}, rs);
    assert h.records[execId].status == Completed;
  }
}
