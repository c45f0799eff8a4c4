/**
 * What one attempt does to an execution row, derived from the attempt specification of the
 * worker: which status the row ends in on each branch, and what never touches it.
 */
module HandlerProperties {
  import opened GoBasics
  import opened Wrappers
  import opened Store
  import opened Tasks
  import opened RetryPolicy
  import opened ExecutionHandler

  predicate IsStoreWrite(e: Event)
  {
    e.StatusWrite? || e.CompleteWrite?
  }

  /** Filesystem calls and process launches leave the rows alone. */
  lemma {:induction false} ReplayWithoutWrites(rs: Records, evs: seq<Event>)
    requires forall i :: 0 <= i < |evs| ==> !IsStoreWrite(evs[i])
    ensures Replay(rs, evs) == rs
    decreases |evs|
  {
    if evs != [] {
      ReplayWithoutWrites(rs, evs[..|evs| - 1]);
    }
  }

  /** The history of a run of events is the histories of its parts, one after the other. */
  lemma {:induction false} StatusHistoryAppend(a: seq<Event>, b: seq<Event>, id: Uuid)
    ensures StatusHistory(a + b, id) == StatusHistory(a, id) + StatusHistory(b, id)
    decreases |b|
  {
    if b == [] {
      assert a + b == a;
    } else {
      var b' := b[..|b| - 1];
      assert (a + b)[..|a + b| - 1] == a + b';
      StatusHistoryAppend(a, b', id);
    }
  }

  /** The three events of a Python attempt whose Running write succeeded store Running, then Completed if that write succeeds. */
  lemma PythonHistory(id: Uuid, launch: Event, env: Env)
    requires launch.RunProcess?
    ensures StatusHistory([StatusWrite(id, Running, TaskContext, true), launch, CompletionOf(id, env)], id) ==
            [Running] + (if env.completeWriteOk then [Completed] else [])
  {
    var w := StatusWrite(id, Running, TaskContext, true);
    assert [w][..0] == [];
    assert StatusHistory([w], id) == [Running];
    assert [w, launch][..1] == [w];
    assert StatusHistory([w, launch], id) == [Running];
    assert [w, launch, CompletionOf(id, env)][..2] == [w, launch];
  }

  /** A denied attempt leaves every row as it was. */
  lemma DenialLeavesRows(task: Task, env: Env, files: set<Path>, rs: Records)
    requires !env.allow
    ensures Replay(rs, TaskAttempt(task, env, files).events) == rs
  {
  }

  /** An unknown type tag leaves every row as it was. */
  lemma UnknownTypeLeavesRows(task: Task, env: Env, files: set<Path>, rs: Records)
    requires env.allow && task.payload.Encoded? && RuntimeFor(task.typeName).None?
    ensures Replay(rs, TaskAttempt(task, env, files).events) == rs
  {
  }

  /**
   * A payload that does not decode takes its row straight to Failed, if the write succeeds: no
   * Running on the way, and no other row touched.
   */
  lemma DecodeFailureHistory(task: Task, env: Env, files: set<Path>, id: Uuid)
    requires env.allow && task.payload.Malformed?
    ensures StatusHistory(TaskAttempt(task, env, files).events, id) ==
            if env.failWriteOk && id == task.payload.partialId then [Failed] else []
  {
    var evs := TaskAttempt(task, env, files).events;
    assert evs[..0] == [];
  }

  /** When the cancellation wins and the Timeout write succeeds, the row ends in Timeout. */
  lemma {:induction false} CancellationEndsInTimeout(task: Task, env: Env, files: set<Path>, rs: Records)
    requires env.allow && task.payload.Encoded? && RuntimeFor(task.typeName).Some?
    requires env.winner == ContextDone && env.timeoutWriteOk
    requires task.payload.payload.executionId in rs
    ensures var id := task.payload.payload.executionId;
            Replay(rs, TaskAttempt(task, env, files).events)[id].status == Timeout
    ensures TaskAttempt(task, env, files).err == Some(SkipRetry)
  {
    var p := task.payload.payload;
    var c := CompileAttempt(RuntimeFor(task.typeName).value, p, env, WorkDir(p.executionId) in files);
    ReplaySnoc(rs, c.events, StatusWrite(p.executionId, Timeout, BackgroundContext, true));
  }

  /**
   * When the compile result wins with an error and the Failed write succeeds, the row ends in
   * Failed, and the error is returned unchanged.
   */
  lemma {:induction false} CompileErrorEndsInFailed(task: Task, env: Env, files: set<Path>, rs: Records)
    requires env.allow && task.payload.Encoded? && RuntimeFor(task.typeName).Some?
    requires env.winner == ResultReceived && env.failWriteOk
    requires TaskAttempt(task, env, files).err.Some?
    requires task.payload.payload.executionId in rs
    ensures var id := task.payload.payload.executionId;
            Replay(rs, TaskAttempt(task, env, files).events)[id].status == Failed
  {
    var p := task.payload.payload;
    var c := CompileAttempt(RuntimeFor(task.typeName).value, p, env, WorkDir(p.executionId) in files);
    ReplaySnoc(rs, c.events, FailWrite(p.executionId, TaskContext, env));
  }

  /** The row completed writes: the captured output and the wrapped elapsed time. */
  function CompletedRow(env: Env): Execution
  {
    Execution(Completed, Some(env.run.stdout), Some(env.run.stderr), Some(EncodeElapsed(env.run.elapsed)))
  }

  /** A Python attempt that returns nil leaves its row with the output it stored. */
  lemma PythonSuccessRow(p: CompilePayload, env: Env, rs: Records)
    requires PythonAttempt(p, env).err.None? && p.executionId in rs
    ensures Replay(rs, PythonAttempt(p, env).events)[p.executionId] == CompletedRow(env)
  {
    var running := StatusWrite(p.executionId, Running, TaskContext, true);
    var launch := RunProcess(PythonInline(p.sourceCode));
    assert PythonAttempt(p, env).events == [running, launch] + [CompletionOf(p.executionId, env)];
    ReplaySnoc(rs, [running, launch], CompletionOf(p.executionId, env));
  }

  /** So does a Go attempt: the removals that follow the CompleteExecution write touch no row. */
  lemma GoSuccessRow(p: CompilePayload, env: Env, dirExists: bool, rs: Records)
    requires GoAttempt(p, env, dirExists).err.None? && p.executionId in rs
    ensures Replay(rs, GoAttempt(p, env, dirExists).events)[p.executionId] == CompletedRow(env)
  {
    var id := p.executionId;
    var dir, file := WorkDir(id), SourceFile(id);
    var head := [StatusWrite(id, Running, TaskContext, true), MakeDir(dir, true)];
    var steps := [CreateFile(file, true), WriteSource(file, p.sourceCode), RunProcess(GoRun(file))];
    var cleanup := [RemoveFile(file), RemoveAll(dir)];
    var done := CompletionOf(id, env);
    var w := GoWorkspaceAttempt(p, env).events;
    assert GoAttempt(p, env, dirExists).events == head + w;
    assert w == (steps + [done]) + cleanup;
    ReplayAppend(rs, head, w);
    var mid := Replay(rs, head);
    ReplayAppend(mid, steps + [done], cleanup);
    ReplayWithoutWrites(Replay(mid, steps + [done]), cleanup);
    ReplaySnoc(mid, steps, done);
  }

  /**
   * An attempt that returns nil leaves its row Completed with what the subprocess printed,
   * whatever its exit status was.
   */
  lemma {:induction false} SuccessStoresOutput(task: Task, env: Env, files: set<Path>, rs: Records)
    requires TaskAttempt(task, env, files).err.None?
    requires task.payload.Encoded? && task.payload.payload.executionId in rs
    ensures Replay(rs, TaskAttempt(task, env, files).events)[task.payload.payload.executionId] ==
            CompletedRow(env)
  {
    var p := task.payload.payload;
    var dirExists := WorkDir(p.executionId) in files;
    if RuntimeFor(task.typeName) == Some(Python) {
      PythonSuccessRow(p, env, rs);
    } else {
      GoSuccessRow(p, env, dirExists, rs);
    }
  }

  /** The exit status of the subprocess changes nothing the attempt does. */
  lemma ExitStatusIgnored(task: Task, env: Env, files: set<Path>, x: ExitStatus)
    ensures TaskAttempt(task, env.(run := env.run.(exit := x)), files) == TaskAttempt(task, env, files)
  {
  }

  /**
   * A task the encoder built always decodes and always has a known tag, so an admitted attempt
   * on it starts with the Running write of the id it was built for.
   */
  lemma EncodedTaskStartsRunning(id: Uuid, language: Language, source: string, env: Env, files: set<Path>)
    requires NewCompileTask(id, language, source, true).Success? && env.allow
    ensures var a := TaskAttempt(NewCompileTask(id, language, source, true).value, env, files);
            |a.events| > 0 && a.events[0] == StatusWrite(id, Running, TaskContext, env.runningWriteOk)
  {
  }

  /**
   * Statuses are not forward-only. An attempt whose CompleteExecution fails stores Running then
   * Failed; the queue's retry then stores Running over Failed, and Completed after it.
   */
  lemma RetryRewritesFailed(task: Task, env1: Env, env2: Env, files: set<Path>)
    requires task.payload.Encoded? && task.typeName == TypeCompilePython
    requires env1.allow && env1.runningWriteOk && !env1.completeWriteOk && env1.failWriteOk &&
             env1.winner == ResultReceived
    requires env2.allow && env2.runningWriteOk && env2.completeWriteOk && env2.winner == ResultReceived
    ensures var id := task.payload.payload.executionId;
            StatusHistory(TaskAttempt(task, env1, files).events + TaskAttempt(task, env2, files).events, id) ==
            [Running, Failed, Running, Completed]
  {
    var p := task.payload.payload;
    var id := p.executionId;
    var launch := RunProcess(PythonInline(p.sourceCode));
    var w := StatusWrite(id, Running, TaskContext, true);
    var first := [w, launch, CompletionOf(id, env1)];
    var a1, a2 := TaskAttempt(task, env1, files).events, TaskAttempt(task, env2, files).events;
    assert a1 == first + [FailWrite(id, TaskContext, env1)];
    assert a2 == [w, launch, CompletionOf(id, env2)];
    PythonHistory(id, launch, env1);
    PythonHistory(id, launch, env2);
    StatusHistoryAppend(first, [FailWrite(id, TaskContext, env1)], id);
    assert [FailWrite(id, TaskContext, env1)][..0] == [];
    StatusHistoryAppend(a1, a2, id);
  }

  /**
   * Statuses are not forward-only within one attempt either. When the compile step has already
   * stored Completed and the select still takes the cancelled context, Timeout is written over
   * Completed.
   */
  lemma TimeoutOverCompleted(task: Task, env: Env, files: set<Path>)
    requires task.payload.Encoded? && task.typeName == TypeCompilePython
    requires env.allow && env.runningWriteOk && env.completeWriteOk && env.timeoutWriteOk
    requires env.winner == ContextDone
    ensures var id := task.payload.payload.executionId;
            StatusHistory(TaskAttempt(task, env, files).events, id) == [Running, Completed, Timeout]
    ensures TaskAttempt(task, env, files).err == Some(SkipRetry)
  {
    var p := task.payload.payload;
    var id := p.executionId;
    var launch := RunProcess(PythonInline(p.sourceCode));
    var compile := [StatusWrite(id, Running, TaskContext, true), launch, CompletionOf(id, env)];
    var timeout := StatusWrite(id, Timeout, BackgroundContext, true);
    assert TaskAttempt(task, env, files).events == compile + [timeout];
    PythonHistory(id, launch, env);
    StatusHistoryAppend(compile, [timeout], id);
    assert [timeout][..0] == [];
  }
}
