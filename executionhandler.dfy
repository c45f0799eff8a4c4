/**
 * The worker's per-attempt logic: ProcessTask and the two runtimes it dispatches to.
 *
 * Every effect is an input or an entry in a trace. The limiter's answer, the subprocess's
 * output, whether each store write or filesystem call fails, and which side of the final select
 * wins all come from an Env. The handler appends each store write, filesystem call and process
 * launch to `trace` in the order it issues them, and `records` is always the replay of the
 * store writes in that trace.
 */
module ExecutionHandler {
  import opened GoBasics
  import opened Wrappers
  import opened Store
  import opened Tasks
  import opened RetryPolicy

  /** The context a store write runs under: the task's own, or a fresh background one. */
  datatype Ctx = TaskContext | BackgroundContext

  /** os.TempDir()/<id> and the main.go inside it. */
  datatype Path = WorkDir(id: Uuid) | SourceFile(id: Uuid)

  datatype Command = PythonInline(source: string) | GoRun(file: Path)

  datatype Event =
    | StatusWrite(id: Uuid, status: ExecutionStatus, ctx: Ctx, ok: bool)      // Queries.UpdateExecution
    | CompleteWrite(id: Uuid, status: ExecutionStatus, stdout: string, stderr: string,
                    timeMs: Int16, ok: bool)                                   // Queries.CompleteExecution
    | MakeDir(dir: Path, ok: bool)
    | CreateFile(file: Path, ok: bool)
    | WriteSource(file: Path, source: string)
    | RunProcess(command: Command)
    | RemoveFile(file: Path)
    | RemoveAll(dir: Path)

  /** The effect of one event on the execution rows: only a store write that succeeded has one. */
  function Apply(rs: Records, e: Event): Records
  {
    match e
    case StatusWrite(id, status, _, ok) => if ok then UpdateExecution(rs, id, status) else rs
    case CompleteWrite(id, status, out, err, ms, ok) =>
      if ok then CompleteExecution(rs, id, status, out, err, ms) else rs
    case _ => rs
  }

  /** The execution rows after the events, in order. No write ever adds or removes a row. */
  function Replay(rs: Records, evs: seq<Event>): (r: Records)
    ensures r.Keys == rs.Keys
    decreases |evs|
  {
    if evs == [] then rs else Apply(Replay(rs, evs[..|evs| - 1]), evs[|evs| - 1])
  }

  lemma ReplaySnoc(rs: Records, evs: seq<Event>, e: Event)
    ensures Replay(rs, evs + [e]) == Apply(Replay(rs, evs), e)
  {
    assert (evs + [e])[..|evs|] == evs;
  }

  lemma {:induction false} ReplayAppend(rs: Records, a: seq<Event>, b: seq<Event>)
    ensures Replay(rs, a + b) == Replay(Replay(rs, a), b)
    decreases |b|
  {
    if b == [] {
      assert a + b == a;
    } else {
      var b' := b[..|b| - 1];
      assert a + b == (a + b') + [b[|b| - 1]];
      ReplaySnoc(rs, a + b', b[|b| - 1]);
      ReplayAppend(rs, a, b');
    }
  }

  /** The status an event stores into row id, if it is a successful write to that row. */
  function WrittenStatus(e: Event, id: Uuid): seq<ExecutionStatus>
  {
    match e
    case StatusWrite(i, status, _, ok) => if ok && i == id then [status] else []
    case CompleteWrite(i, status, _, _, _, ok) => if ok && i == id then [status] else []
    case _ => []
  }

  /** The statuses the events store into row id, in order. */
  function StatusHistory(evs: seq<Event>, id: Uuid): seq<ExecutionStatus>
    decreases |evs|
  {
    if evs == [] then [] else StatusHistory(evs[..|evs| - 1], id) + WrittenStatus(evs[|evs| - 1], id)
  }

  /** A row's status after a run of events is the last status they stored into it. */
  lemma {:induction false} StatusIsLastWritten(rs: Records, evs: seq<Event>, id: Uuid)
    requires id in rs
    ensures id in Replay(rs, evs)
    ensures var h := StatusHistory(evs, id);
            Replay(rs, evs)[id].status == if h == [] then rs[id].status else h[|h| - 1]
    decreases |evs|
  {
    if evs != [] {
      StatusIsLastWritten(rs, evs[..|evs| - 1], id);
    }
  }

  /** cmd.Run's outcome, which the handler discards. */
  datatype ExitStatus = Exited(code: int) | Killed | NotStarted

  /** What the subprocess left in the two buffers, and the time that elapsed around cmd.Run. */
  datatype ProcessRun = ProcessRun(stdout: string, stderr: string, elapsed: Duration, exit: ExitStatus)

  /** The side of the final select that is taken. */
  datatype Winner = ResultReceived | ContextDone

  /** rand.Intn(10), by its range. */
  type Digit = x: int | 0 <= x < 10

  /** Everything one attempt learns from its surroundings. */
  datatype Env = Env(
    allow: bool,               // RateLimiter.Allow()
    jitter: Digit,             // rand.Intn(10)
    runningWriteOk: bool,      // the Running write inside compilePython / compileGo
    completeWriteOk: bool,     // CompleteExecution
    failWriteOk: bool,         // the write inside failExecution
    timeoutWriteOk: bool,      // the Timeout write under a background context
    mkdirFails: bool,          // os.Mkdir fails for a reason other than an existing directory
    createFails: bool,         // os.Create fails
    run: ProcessRun,
    winner: Winner)

  /** The events one step issues and the error it returns (None is nil). */
  datatype Attempt = Attempt(events: seq<Event>, err: Option<TaskError>)

  /** int16(execTime.Milliseconds()): the elapsed milliseconds, wrapped into 16 bits. */
  function EncodeElapsed(d: Duration): (ms: Int16)
    ensures (Milliseconds(d) - ms) % 0x1_0000 == 0
    ensures 0 <= d < 0x8000 * Millisecond ==> ms * Millisecond <= d < (ms + 1) * Millisecond
  {
    ToInt16(Milliseconds(d))
  }

  /** The CompleteExecution write of a finished run. */
  function CompletionOf(id: Uuid, env: Env): Event
  {
    CompleteWrite(id, Completed, env.run.stdout, env.run.stderr, EncodeElapsed(env.run.elapsed),
                  env.completeWriteOk)
  }

  /** compilePython: Running, then python3 -c <source>, then Completed with what it printed. */
  function PythonAttempt(p: CompilePayload, env: Env): (a: Attempt)
    ensures |a.events| > 0 && a.events[0] == StatusWrite(p.executionId, Running, TaskContext, env.runningWriteOk)
    ensures !env.runningWriteOk ==> a == Attempt([a.events[0]], Some(QueryError))
    // The program is launched only after the Running write succeeded, and its output is stored
    // right after it, as the last write.
    ensures forall i :: 0 <= i < |a.events| && a.events[i].RunProcess? ==> i == 1 && env.runningWriteOk
    ensures env.runningWriteOk ==> |a.events| == 3 && a.events[1] == RunProcess(PythonInline(p.sourceCode)) &&
                                   a.events[2] == CompletionOf(p.executionId, env)
    ensures a.err.None? ==> CompletionOf(p.executionId, env) in a.events && env.completeWriteOk
    ensures a.err.None? <==> env.runningWriteOk && env.completeWriteOk
    ensures a.err.Some? ==> a.err == Some(QueryError)
  {
    var running := StatusWrite(p.executionId, Running, TaskContext, env.runningWriteOk);
    if !env.runningWriteOk then Attempt([running], Some(QueryError))
    else
      Attempt([running, RunProcess(PythonInline(p.sourceCode)), CompletionOf(p.executionId, env)],
              if env.completeWriteOk then None else Some(QueryError))
  }

  /**
   * compileGo once os.Mkdir has made the directory: create main.go, write the source, go run it,
   * store Completed; the deferred removals close every path.
   */
  function GoWorkspaceAttempt(p: CompilePayload, env: Env): (a: Attempt)
    ensures |a.events| >= 2 && a.events[|a.events| - 1] == RemoveAll(WorkDir(p.executionId))
    ensures env.createFails ==> a == Attempt([CreateFile(SourceFile(p.executionId), false),
                                              RemoveAll(WorkDir(p.executionId))], Some(FsError))
    ensures !env.createFails ==> a.events[0] == CreateFile(SourceFile(p.executionId), true) &&
                                 a.events[|a.events| - 2] == RemoveFile(SourceFile(p.executionId))
    // Once main.go exists, the source is written to it, go run is launched on it, and its output
    // is stored, before the two removals.
    ensures !env.createFails ==> |a.events| == 6 &&
                                 a.events[1] == WriteSource(SourceFile(p.executionId), p.sourceCode) &&
                                 a.events[2] == RunProcess(GoRun(SourceFile(p.executionId))) &&
                                 a.events[3] == CompletionOf(p.executionId, env)
    ensures !env.createFails && !env.completeWriteOk ==> a.err == Some(QueryError)
    ensures a.err.None? <==> !env.createFails && env.completeWriteOk
  {
    var dir, file := WorkDir(p.executionId), SourceFile(p.executionId);
    if env.createFails then Attempt([CreateFile(file, false), RemoveAll(dir)], Some(FsError))
    else
      Attempt([CreateFile(file, true), WriteSource(file, p.sourceCode), RunProcess(GoRun(file)),
               CompletionOf(p.executionId, env), RemoveFile(file), RemoveAll(dir)],
              if env.completeWriteOk then None else Some(QueryError))
  }

  /**
   * compileGo: Running, then a fresh directory holding main.go, then go run on it, then Completed.
   * dirExists says whether the directory is already there, which makes os.Mkdir fail.
   */
  function GoAttempt(p: CompilePayload, env: Env, dirExists: bool): (a: Attempt)
    ensures |a.events| > 0 && a.events[0] == StatusWrite(p.executionId, Running, TaskContext, env.runningWriteOk)
    ensures !env.runningWriteOk ==> a == Attempt([a.events[0]], Some(QueryError))
    ensures forall i :: 0 <= i < |a.events| && a.events[i].MakeDir? ==> i == 1 && env.runningWriteOk
    ensures (dirExists || env.mkdirFails) && env.runningWriteOk ==>
              a == Attempt([a.events[0], MakeDir(WorkDir(p.executionId), false)], Some(FsError))
    ensures MakeDir(WorkDir(p.executionId), true) in a.events ==>
              a.events[|a.events| - 1] == RemoveAll(WorkDir(p.executionId))
    ensures CreateFile(SourceFile(p.executionId), true) in a.events ==>
              a.events[|a.events| - 2] == RemoveFile(SourceFile(p.executionId))
    ensures env.createFails && MakeDir(WorkDir(p.executionId), true) in a.events ==> a.err == Some(FsError)
    // go run comes only after the source was written to main.go, and its output is stored right
    // after it.
    ensures forall i :: 0 <= i < |a.events| && a.events[i].RunProcess? ==> i == 4
    ensures |a.events| > 4 && a.events[4].RunProcess? ==>
              |a.events| == 8 && a.events[3] == WriteSource(SourceFile(p.executionId), p.sourceCode) &&
              a.events[4] == RunProcess(GoRun(SourceFile(p.executionId))) &&
              a.events[5] == CompletionOf(p.executionId, env)
    // With the Running write stored and no directory in the way, os.Mkdir makes the directory and
    // os.Create is tried in it; a failed os.Create removes the directory and ends the attempt.
    ensures env.runningWriteOk && !dirExists && !env.mkdirFails ==>
              |a.events| >= 4 && a.events[1] == MakeDir(WorkDir(p.executionId), true) &&
              a.events[2] == CreateFile(SourceFile(p.executionId), !env.createFails)
    ensures env.runningWriteOk && !dirExists && !env.mkdirFails && env.createFails ==>
              a == Attempt([a.events[0], MakeDir(WorkDir(p.executionId), true),
                            CreateFile(SourceFile(p.executionId), false), RemoveAll(WorkDir(p.executionId))],
                           Some(FsError))
    // Once main.go is created, go run is launched and its output stored.
    ensures env.runningWriteOk && !dirExists && !env.mkdirFails && !env.createFails ==>
              |a.events| == 8 && a.events[4] == RunProcess(GoRun(SourceFile(p.executionId))) &&
              a.events[5] == CompletionOf(p.executionId, env)
    ensures a.err.None? <==>
              (env.runningWriteOk && !dirExists && !env.mkdirFails && !env.createFails && env.completeWriteOk)
    ensures a.err.Some? && env.runningWriteOk && !dirExists && !env.mkdirFails && !env.createFails ==>
              a.err == Some(QueryError)
    ensures a.err.None? ==> CompletionOf(p.executionId, env) in a.events
  {
    var id := p.executionId;
    var running := StatusWrite(id, Running, TaskContext, env.runningWriteOk);
    if !env.runningWriteOk then Attempt([running], Some(QueryError))
    else if dirExists || env.mkdirFails then Attempt([running, MakeDir(WorkDir(id), false)], Some(FsError))
    else
      var w := GoWorkspaceAttempt(p, env);
      Attempt([running, MakeDir(WorkDir(id), true)] + w.events, w.err)
  }

  /** The compile step for a runtime. */
  function CompileAttempt(rt: Runtime, p: CompilePayload, env: Env, dirExists: bool): Attempt
  {
    match rt
    case Python => PythonAttempt(p, env)
    case Go => GoAttempt(p, env, dirExists)
  }

  /** The write failExecution issues. */
  function FailWrite(id: Uuid, ctx: Ctx, env: Env): Event
  {
    StatusWrite(id, Failed, ctx, env.failWriteOk)
  }

  /**
   * ProcessTask, one attempt. files is the filesystem before it, for the Go runtime's directory.
   * The branches, in the order the handler takes them: the limiter, the decoder, the type
   * switch, then the select between the compile result and the cancelled context.
   */
  function TaskAttempt(task: Task, env: Env, files: set<Path>): (a: Attempt)
    ensures !env.allow ==> a.events == [] && a.err == Some(RateLimitError(env.jitter * Second)) &&
                           0 <= a.err.value.retryIn < 10 * Second
    ensures env.allow && task.payload.Malformed? ==>
              a == Attempt([FailWrite(task.payload.partialId, TaskContext, env)], Some(DecodeError))
    ensures env.allow && task.payload.Encoded? && RuntimeFor(task.typeName).None? ==>
              a == Attempt([], Some(UnexpectedTaskType(task.typeName)))
    ensures env.allow && task.payload.Encoded? && RuntimeFor(task.typeName).Some? ==>
              var p := task.payload.payload;
              var c := CompileAttempt(RuntimeFor(task.typeName).value, p, env, WorkDir(p.executionId) in files);
              if env.winner == ContextDone then
                a.events == c.events + [StatusWrite(p.executionId, Timeout, BackgroundContext, env.timeoutWriteOk)] &&
                a.err == Some(if env.timeoutWriteOk then SkipRetry else QueryError)
              else
                a.events == c.events + (if c.err.Some? then [FailWrite(p.executionId, TaskContext, env)] else []) &&
                a.err == c.err
    ensures a.err.Some? ==> !a.err.value.Wrapped?
    ensures a.err.None? ==>
              (env.allow && env.winner == ResultReceived && task.payload.Encoded? && env.completeWriteOk &&
               CompletionOf(task.payload.payload.executionId, env) in a.events)
  {
    if !env.allow then Attempt([], Some(RateLimitError(env.jitter * Second)))
    else match task.payload
      case Malformed(partialId) => Attempt([FailWrite(partialId, TaskContext, env)], Some(DecodeError))
      case Encoded(p) =>
        match RuntimeFor(task.typeName)
        case None => Attempt([], Some(UnexpectedTaskType(task.typeName)))
        case Some(rt) =>
          SelectAttempt(p.executionId, CompileAttempt(rt, p, env, WorkDir(p.executionId) in files), env)
  }

  /**
   * The select that ends ProcessTask, once the compile step made c: on a cancelled context the
   * Timeout write, otherwise the Failed write when the compile step returned an error.
   */
  function SelectAttempt(id: Uuid, c: Attempt, env: Env): Attempt
  {
    if env.winner == ContextDone then
      Attempt(c.events + [StatusWrite(id, Timeout, BackgroundContext, env.timeoutWriteOk)],
              Some(if env.timeoutWriteOk then SkipRetry else QueryError))
    else if c.err.Some? then
      Attempt(c.events + [FailWrite(id, TaskContext, env)], c.err)
    else c
  }

  /**
   * The worker's state: the execution rows, the temporary files, and what it has done so far.
   * origin is the rows as they were before the first event.
   */
  class Handler {
    var records: Records
    var files: set<Path>
    var trace: seq<Event>
    ghost var origin: Records

    /** A source file only ever exists inside its directory. */
    ghost predicate Valid()
      reads this`files
    {
      forall id: Uuid :: SourceFile(id) in files ==> WorkDir(id) in files
    }

    /** The rows are what the events issued so far made of the original rows. */
    ghost predicate Logged()
      reads this`records, this`trace, this`origin
    {
      records == Replay(origin, trace)
    }

    constructor (records: Records)
      ensures Valid() && Logged() && this.records == records && files == {} && trace == []
    {
      this.records := records;
      files := {};
      trace := [];
      origin := records;
    }

    /**
     * Issues the event at position k of plan, the events the current step is to issue after
     * start, the trace it began with.
     */
    method Emit(e: Event, ghost start: seq<Event>, ghost plan: seq<Event>, ghost k: nat)
      requires Logged() && k < |plan| && plan[k] == e && trace == start + plan[..k]
      modifies this`trace, this`records
      ensures Logged() && trace == start + plan[..k + 1]
    {
      ReplaySnoc(origin, trace, e);
      assert plan[..k + 1] == plan[..k] + [e];
      trace := trace + [e];
      records := Apply(records, e);
    }

    /** failExecution: stores Failed; its callers do not look at the error it returns. */
    method FailExecution(ctx: Ctx, id: Uuid, env: Env) returns (err: Option<TaskError>)
      requires Logged()
      modifies this`trace, this`records
      ensures Logged() && trace == old(trace) + [FailWrite(id, ctx, env)]
      ensures err == if env.failWriteOk then None else Some(QueryError)
    {
      assert trace == trace + [FailWrite(id, ctx, env)][..0];
      Emit(FailWrite(id, ctx, env), trace, [FailWrite(id, ctx, env)], 0);
      err := if env.failWriteOk then None else Some(QueryError);
    }

    method CompilePython(p: CompilePayload, env: Env) returns (err: Option<TaskError>)
      requires Logged()
      modifies this`trace, this`records
      ensures Logged()
      ensures var a := PythonAttempt(p, env); trace == old(trace) + a.events && err == a.err
    {
      ghost var start, plan := trace, PythonAttempt(p, env).events;
      assert trace == start + plan[..0];
      Emit(StatusWrite(p.executionId, Running, TaskContext, env.runningWriteOk), start, plan, 0);
      if !env.runningWriteOk {
        assert plan[..1] == plan;
        return Some(QueryError);
      }
      Emit(RunProcess(PythonInline(p.sourceCode)), start, plan, 1);
      // The error cmd.Run returns is not looked at: whatever the buffers captured is stored.
      Emit(CompletionOf(p.executionId, env), start, plan, 2);
      assert plan[..3] == plan;
      err := if env.completeWriteOk then None else Some(QueryError);
    }

    /**
     * The deferred cleanups, last registered first: os.Remove of the file, then os.RemoveAll.
     * They are the last events of plan, from position k on.
     */
    method RemoveWorkspace(id: Uuid, fileCreated: bool, ghost start: seq<Event>, ghost plan: seq<Event>,
                           ghost k: nat)
      requires Logged() && k <= |plan| && trace == start + plan[..k]
      requires plan[k..] == (if fileCreated then [RemoveFile(SourceFile(id))] else []) + [RemoveAll(WorkDir(id))]
      modifies this`trace, this`records, this`files
      ensures Logged() && trace == start + plan
      ensures files == old(files) - {SourceFile(id), WorkDir(id)}
    {
      var k := k;
      if fileCreated {
        assert plan[k..][0] == RemoveFile(SourceFile(id));
        Emit(RemoveFile(SourceFile(id)), start, plan, k);
        k := k + 1;
        files := files - {SourceFile(id)};
      }
      assert plan[k] == RemoveAll(WorkDir(id)) && k + 1 == |plan|;
      Emit(RemoveAll(WorkDir(id)), start, plan, k);
      files := files - {SourceFile(id), WorkDir(id)};
      assert plan[..k + 1] == plan;
    }

    method CompileGo(p: CompilePayload, env: Env) returns (err: Option<TaskError>)
      requires Valid() && Logged()
      modifies this`trace, this`records, this`files
      ensures Valid() && Logged() && files == old(files)
      ensures var a := GoAttempt(p, env, WorkDir(p.executionId) in old(files));
              trace == old(trace) + a.events && err == a.err
    {
      ghost var start, plan := trace, GoAttempt(p, env, WorkDir(p.executionId) in files).events;
      assert trace == start + plan[..0];
      Emit(StatusWrite(p.executionId, Running, TaskContext, env.runningWriteOk), start, plan, 0);
      if !env.runningWriteOk {
        assert plan[..1] == plan;
        return Some(QueryError);
      }
      err := MakeWorkspace(p, env, start, plan);
    }

    /**
     * compileGo from os.Mkdir on, once the Running write succeeded: plan holds that write, the
     * os.Mkdir outcome, and then, if the directory was made, the steps inside it.
     */
    method MakeWorkspace(p: CompilePayload, env: Env, ghost start: seq<Event>, ghost plan: seq<Event>)
      returns (err: Option<TaskError>)
      requires Valid() && Logged() && 2 <= |plan| && trace == start + plan[..1]
      requires var made := WorkDir(p.executionId) !in files && !env.mkdirFails;
               plan[1] == MakeDir(WorkDir(p.executionId), made) &&
               (if made then plan[2..] == GoWorkspaceAttempt(p, env).events else |plan| == 2)
      modifies this`trace, this`records, this`files
      ensures Valid() && Logged() && files == old(files) && trace == start + plan
      ensures err == if WorkDir(p.executionId) in old(files) || env.mkdirFails then Some(FsError)
                     else GoWorkspaceAttempt(p, env).err
    {
      var id := p.executionId;
      var dir := WorkDir(id);
      if dir in files || env.mkdirFails {
        Emit(MakeDir(dir, false), start, plan, 1);
        assert plan[..2] == plan;
        return Some(FsError);
      }
      assert SourceFile(id) !in files;
      Emit(MakeDir(dir, true), start, plan, 1);
      files := files + {dir};
      err := InWorkspace(p, env, start, plan, 2);
    }

    /** The steps of compileGo after os.Mkdir succeeded, from position k of plan on. */
    method InWorkspace(p: CompilePayload, env: Env, ghost start: seq<Event>, ghost plan: seq<Event>,
                       ghost k: nat) returns (err: Option<TaskError>)
      requires Logged() && k <= |plan| && trace == start + plan[..k]
      requires plan[k..] == GoWorkspaceAttempt(p, env).events
      requires WorkDir(p.executionId) in files && SourceFile(p.executionId) !in files
      modifies this`trace, this`records, this`files
      ensures Logged() && trace == start + plan && err == GoWorkspaceAttempt(p, env).err
      ensures files == old(files) - {WorkDir(p.executionId)}
    {
      var id := p.executionId;
      if env.createFails {
        assert plan[k..][0] == plan[k];
        Emit(CreateFile(SourceFile(id), false), start, plan, k);
        RemoveWorkspace(id, false, start, plan, k + 1);
        return Some(FsError);
      }
      err := RunSource(p, env, start, plan, k);
    }

    /** compileGo from a successful os.Create on. */
    method RunSource(p: CompilePayload, env: Env, ghost start: seq<Event>, ghost plan: seq<Event>,
                     ghost k: nat) returns (err: Option<TaskError>)
      requires Logged() && k <= |plan| && trace == start + plan[..k]
      requires plan[k..] == GoWorkspaceAttempt(p, env).events
      requires WorkDir(p.executionId) in files && SourceFile(p.executionId) !in files
      requires !env.createFails
      modifies this`trace, this`records, this`files
      ensures Logged() && trace == start + plan && err == GoWorkspaceAttempt(p, env).err
      ensures files == old(files) - {WorkDir(p.executionId)}
    {
      var id := p.executionId;
      var file := SourceFile(id);
      assert plan[k] == plan[k..][0];
      Emit(CreateFile(file, true), start, plan, k);
      files := files + {file};
      err := RunProgram(p, env, start, plan, k + 1);
      assert plan[k + 4..] == plan[k..][4..];
      RemoveWorkspace(id, true, start, plan, k + 4);
    }

    /** Writes main.go, runs go run on it and stores what it printed: positions k to k + 2 of plan. */
    method RunProgram(p: CompilePayload, env: Env, ghost start: seq<Event>, ghost plan: seq<Event>,
                      ghost k: nat) returns (err: Option<TaskError>)
      requires Logged() && k + 3 <= |plan| && trace == start + plan[..k]
      requires plan[k..k + 3] == [WriteSource(SourceFile(p.executionId), p.sourceCode),
                                  RunProcess(GoRun(SourceFile(p.executionId))), CompletionOf(p.executionId, env)]
      modifies this`trace, this`records
      ensures Logged() && trace == start + plan[..k + 3]
      ensures err == if env.completeWriteOk then None else Some(QueryError)
    {
      var file := SourceFile(p.executionId);
      assert plan[k] == plan[k..k + 3][0] && plan[k + 1] == plan[k..k + 3][1] && plan[k + 2] == plan[k..k + 3][2];
      // The error file.WriteString returns is not looked at.
      Emit(WriteSource(file, p.sourceCode), start, plan, k);
      Emit(RunProcess(GoRun(file)), start, plan, k + 1);
      // As for Python, the error cmd.Run returns is not looked at.
      Emit(CompletionOf(p.executionId, env), start, plan, k + 2);
      err := if env.completeWriteOk then None else Some(QueryError);
    }

    /** ProcessTask: one delivery of a task to the worker. */
    method ProcessTask(task: Task, env: Env) returns (err: Option<TaskError>)
      requires Valid() && Logged()
      modifies this`trace, this`records, this`files
      ensures Valid() && Logged() && files == old(files)
      ensures var a := TaskAttempt(task, env, old(files));
              trace == old(trace) + a.events && records == Replay(old(records), a.events) && err == a.err
    {
      err := Attempt(task, env);
      ReplayAppend(origin, old(trace), TaskAttempt(task, env, old(files)).events);
    }

    /** The body of ProcessTask, stated on the trace alone. */
    method Attempt(task: Task, env: Env) returns (err: Option<TaskError>)
      requires Valid() && Logged()
      modifies this`trace, this`records, this`files
      ensures Valid() && Logged() && files == old(files)
      ensures var a := TaskAttempt(task, env, old(files)); trace == old(trace) + a.events && err == a.err
    {
      if !env.allow {
        return Some(RateLimitError(env.jitter * Second));
      }
      match task.payload {
        case Malformed(partialId) =>
          var _ := FailExecution(TaskContext, partialId, env);
          return Some(DecodeError);
        case Encoded(p) =>
          match RuntimeFor(task.typeName) {
            case None =>
              return Some(UnexpectedTaskType(task.typeName));
            case Some(rt) =>
              ghost var start, files0 := trace, files;
              var c := Compile(rt, p, env);
              ghost var ca := CompileAttempt(rt, p, env, WorkDir(p.executionId) in files0);
              err := Select(p.executionId, c, env, start, ca);
          }
      }
    }

    /** The type switch: the compile step of the task's runtime. */
    method Compile(rt: Runtime, p: CompilePayload, env: Env) returns (err: Option<TaskError>)
      requires Valid() && Logged()
      modifies this`trace, this`records, this`files
      ensures Valid() && Logged() && files == old(files)
      ensures var a := CompileAttempt(rt, p, env, WorkDir(p.executionId) in old(files));
              trace == old(trace) + a.events && err == a.err
    {
      match rt {
        case Python => err := CompilePython(p, env);
        case Go => err := CompileGo(p, env);
      }
    }

    /** The select, after the compile step issued c.events after start and returned c.err. */
    method Select(id: Uuid, c: Option<TaskError>, env: Env, ghost start: seq<Event>, ghost ca: Attempt)
      returns (err: Option<TaskError>)
      requires Logged() && trace == start + ca.events && c == ca.err
      modifies this`trace, this`records
      ensures Logged()
      ensures var a := SelectAttempt(id, ca, env); trace == start + a.events && err == a.err
    {
      ghost var plan := SelectAttempt(id, ca, env).events;
      assert trace == start + plan[..|ca.events|];
      if env.winner == ContextDone {
        // The Timeout write runs under context.Background(), so the cancellation cannot abort it.
        Emit(StatusWrite(id, Timeout, BackgroundContext, env.timeoutWriteOk), start, plan, |ca.events|);
        assert plan[..|ca.events| + 1] == plan;
        if !env.timeoutWriteOk {
          return Some(QueryError);
        }
        return Some(SkipRetry);
      }
      if c.Some? {
        Emit(FailWrite(id, TaskContext, env), start, plan, |ca.events|);
        assert plan[..|ca.events| + 1] == plan;
      }
      return c;
    }
  }
}
