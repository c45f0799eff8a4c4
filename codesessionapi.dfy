/**
 * The code-session endpoints: create, patch and run. Run is the producer side of the pipeline:
 * it inserts the Queued execution inside a transaction, builds the compile task, enqueues it, and only
 * then commits; a deferred rollback closes every early return.
 *
 * The relational store and the broker are fields. `tx` is the executions table as the open
 * transaction sees it. `queue` holds what the broker has accepted. `steps` records the
 * transaction and broker calls in the order they are made.
 */
module CodeSessionApi {
  import opened GoBasics
  import opened Wrappers
  import opened Store
  import opened Tasks
  import opened Http

  datatype CodeSession = CodeSession(language: Language, sourceCode: string, status: string)

  /** A task as the broker holds it, with the enqueue options asynq.Timeout and asynq.MaxRetry. */
  datatype Enqueued = Enqueued(task: Task, timeout: Duration, maxRetry: int)

  datatype Step =
    | Begin
    | InsertExecution(id: Uuid, ok: bool)   // qtx.CreateExecution
    | EnqueueTask(item: Enqueued, ok: bool)
    | Commit(ok: bool)
    | Rollback                              // tx.Rollback, a no-op once the transaction is closed

  /** The body of a PATCH request, once decoded. */
  datatype PatchRequest = PatchRequest(language: string, sourceCode: string)

  /** What a run request learns from the store and the broker, apart from the stored session. */
  datatype RunEnv = RunEnv(
    getFails: bool,       // GetCodeSession fails for a reason other than a missing row
    beginFails: bool,     // Pool.Begin
    newId: Uuid,          // the id the database gives the new execution
    createFails: bool,    // CreateExecution fails for a reason other than a duplicate id
    marshalOk: bool,      // json.Marshal inside NewCompileTask
    enqueueFails: bool,   // EnqueueContext
    commitFails: bool)    // tx.Commit, whose error is not looked at

  /** Some compile task in the queue is for execution id. */
  predicate HasTask(queue: seq<Enqueued>, id: Uuid)
  {
    exists i :: 0 <= i < |queue| && queue[i].task.payload.Encoded? && queue[i].task.payload.payload.executionId == id
  }

  /** Enqueuing more tasks keeps every task already queued. */
  lemma HasTaskAppend(queue: seq<Enqueued>, item: Enqueued, id: Uuid)
    requires HasTask(queue, id)
    ensures HasTask(queue + [item], id)
  {
    var i :| 0 <= i < |queue| && queue[i].task.payload.Encoded? && queue[i].task.payload.payload.executionId == id;
    assert (queue + [item])[i] == queue[i];
  }

  /** The body of the responses that report a session. */
  function SessionBody(id: Uuid, status: string): map<string, JsonValue>
  {
    map["session_id" := JUuid(id), "status" := JString(ToUpper(status))]
  }

  class CodeSessionApi {
    var sessions: map<Uuid, CodeSession>
    var executions: Records
    var tx: Option<Records>
    var queue: seq<Enqueued>
    var steps: seq<Step>
    const taskTimeout: Duration
    const maxRetry: int

    /**
     * Every committed execution has its compile task in the queue. The converse does not hold:
     * a failed commit leaves a queued task with no committed row.
     */
    ghost predicate Consistent()
      reads this`executions, this`queue
    {
      forall id :: id in executions ==> HasTask(queue, id)
    }

    /** Between requests no transaction is open, and the store and the queue are consistent. */
    ghost predicate Valid()
      reads this`tx, this`executions, this`queue
    {
      tx.None? && Consistent()
    }

    constructor (taskTimeout: Duration, maxRetry: int)
      ensures Valid() && this.taskTimeout == taskTimeout && this.maxRetry == maxRetry
      ensures sessions == map[] && executions == map[] && queue == [] && steps == []
    {
      this.taskTimeout := taskTimeout;
      this.maxRetry := maxRetry;
      sessions := map[];
      executions := map[];
      tx := None;
      queue := [];
      steps := [];
    }

    /**
     * CreateCodeSession: a session with language "python" and no source. The database picks the
     * id and the initial status; an insert under an id already taken fails.
     */
    method CreateCodeSession(newId: Uuid, initialStatus: string, createFails: bool) returns (resp: Response)
      requires Valid()
      modifies this`sessions
      ensures Valid()
      ensures createFails || newId in old(sessions) ==>
                sessions == old(sessions) && resp == InternalError("Failed to create code session")
      ensures !createFails && newId !in old(sessions) ==>
                sessions == old(sessions)[newId := CodeSession(LanguagePython, "", initialStatus)] &&
                resp == JsonResponse(StatusCreated, SessionBody(newId, initialStatus))
    {
      if createFails || newId in sessions {
        return InternalError("Failed to create code session");
      }
      sessions := sessions[newId := CodeSession(LanguagePython, "", initialStatus)];
      return JsonResponse(StatusCreated, SessionBody(newId, initialStatus));
    }

    /**
     * PatchCodeSession: stores the requested language and source as given. The language is not
     * checked here; an unsupported one is refused only when the session is run.
     */
    method PatchCodeSession(id: Option<Uuid>, body: Option<PatchRequest>, updateFails: bool)
      returns (resp: Response)
      requires Valid()
      modifies this`sessions
      ensures Valid()
      ensures id.None? ==> sessions == old(sessions) && resp == InternalError("Failed to parse UUID")
      ensures id.Some? && body.None? ==>
                sessions == old(sessions) && resp == InternalError("Failed to parse payload")
      ensures id.Some? && body.Some? && (updateFails || id.value !in old(sessions)) ==>
                sessions == old(sessions) && resp == InternalError("Failed to patch code session")
      ensures id.Some? && body.Some? && !updateFails && id.value in old(sessions) ==>
                var s := old(sessions)[id.value];
                sessions == old(sessions)[id.value := s.(language := body.value.language,
                                                         sourceCode := body.value.sourceCode)] &&
                resp == JsonResponse(StatusCreated, SessionBody(id.value, s.status))
    {
      if id.None? {
        return InternalError("Failed to parse UUID");
      }
      if body.None? {
        return InternalError("Failed to parse payload");
      }
      if updateFails || id.value !in sessions {
        return InternalError("Failed to patch code session");
      }
      var s := sessions[id.value];
      sessions := sessions[id.value := s.(language := body.value.language, sourceCode := body.value.sourceCode)];
      return JsonResponse(StatusCreated, SessionBody(id.value, s.status));
    }

    /** The deferred tx.Rollback: discards what the transaction staged, if it is still open. */
    method RollbackTx()
      modifies this`tx, this`steps
      ensures tx.None? && steps == old(steps) + [Rollback]
    {
      tx := None;
      steps := steps + [Rollback];
    }

    /**
     * RunCodeSession. Every return after Begin goes through the deferred rollback, so the
     * inserted row reaches `executions` only through a commit, and a commit comes only after a
     * successful enqueue. The commit's own error is not looked at: the response and the
     * enqueued task are the same whether or not the row was committed.
     */
    method RunCodeSession(id: Option<Uuid>, env: RunEnv) returns (resp: Response)
      requires Valid()
      modifies this`tx, this`executions, this`queue, this`steps
      ensures Valid()
      ensures id.None? ==> resp == InternalError("Failed to parse UUID") &&
                           executions == old(executions) && queue == old(queue) && steps == old(steps)
      ensures id.Some? && (env.getFails || id.value !in sessions) ==>
                resp == InternalError("Failed to get code session") &&
                executions == old(executions) && queue == old(queue) && steps == old(steps)
      ensures id.Some? && !env.getFails && id.value in sessions && env.beginFails ==>
                resp == InternalError("Failed to create transaction") &&
                executions == old(executions) && queue == old(queue) && steps == old(steps)
      ensures id.Some? && !env.getFails && id.value in sessions && !env.beginFails ==>
                RunOutcome(sessions[id.value], env, old(executions), old(queue), old(steps), resp)
      // A committed row always has its task in the queue ...
      ensures executions != old(executions) ==>
                |queue| == |old(queue)| + 1 && queue[|queue| - 1].task.payload.Encoded? &&
                queue[|queue| - 1].task.payload.payload.executionId in executions
      // ... but an enqueued task need not have a committed row.
      ensures queue != old(queue) && env.commitFails ==> executions == old(executions)
    {
      if id.None? {
        return InternalError("Failed to parse UUID");
      }
      if env.getFails || id.value !in sessions {
        return InternalError("Failed to get code session");
      }
      var session := sessions[id.value];
      if env.beginFails {
        return InternalError("Failed to create transaction");
      }
      tx := Some(executions);
      steps := steps + [Begin];
      resp := InTransaction(session, env, old(steps));
    }

    /**
     * The outcome of a run request once the session is read and the transaction begun: the
     * response, and the executions, queue and steps it leaves, given those it started from.
     */
    ghost predicate RunOutcome(session: CodeSession, env: RunEnv, executions0: Records,
                               queue0: seq<Enqueued>, steps0: seq<Step>, resp: Response)
      reads this
    {
      var created := !env.createFails && env.newId !in executions0;
      var task := NewCompileTask(env.newId, session.language, session.sourceCode, env.marshalOk);
      if !created then
        resp == InternalError("Failed to create execution") &&
        executions == executions0 && queue == queue0 &&
        steps == steps0 + [Begin, InsertExecution(env.newId, false), Rollback]
      else if task.Failure? then
        resp == InternalError("Failed to create code session running task") &&
        executions == executions0 && queue == queue0 &&
        steps == steps0 + [Begin, InsertExecution(env.newId, true), Rollback]
      else
        var item := Enqueued(task.value, taskTimeout, maxRetry);
        if env.enqueueFails then
          resp == InternalError("Failed to enqueue code session running task") &&
          executions == executions0 && queue == queue0 &&
          steps == steps0 + [Begin, InsertExecution(env.newId, true), EnqueueTask(item, false), Rollback]
        else
          resp == JsonResponse(StatusCreated, map["execution_id" := JUuid(env.newId),
                                                  "status" := JString(ToUpper(StatusName(Queued)))]) &&
          queue == queue0 + [item] &&
          executions == (if env.commitFails then executions0 else executions0[env.newId := NewExecution(Queued)]) &&
          steps == steps0 + [Begin, InsertExecution(env.newId, true), EnqueueTask(item, true),
                             Commit(!env.commitFails), Rollback]
    }

    /** RunCodeSession from CreateExecution inside the open transaction to the deferred rollback. */
    method InTransaction(session: CodeSession, env: RunEnv, ghost steps0: seq<Step>) returns (resp: Response)
      requires tx == Some(executions) && steps == steps0 + [Begin] && Consistent()
      modifies this`tx, this`executions, this`queue, this`steps
      ensures Valid()
      ensures RunOutcome(session, env, old(executions), old(queue), steps0, resp)
      ensures executions != old(executions) ==>
                |queue| == |old(queue)| + 1 && queue[|queue| - 1].task.payload.Encoded? &&
                queue[|queue| - 1].task.payload.payload.executionId in executions
      ensures queue != old(queue) && env.commitFails ==> executions == old(executions)
    {
      var created := !env.createFails && env.newId !in tx.value;
      steps := steps + [InsertExecution(env.newId, created)];
      if !created {
        RollbackTx();
        return InternalError("Failed to create execution");
      }
      tx := Some(tx.value[env.newId := NewExecution(Queued)]);
      var task := NewCompileTask(env.newId, session.language, session.sourceCode, env.marshalOk);
      if task.Failure? {
        RollbackTx();
        return InternalError("Failed to create code session running task");
      }
      var item := Enqueued(task.value, taskTimeout, maxRetry);
      steps := steps + [EnqueueTask(item, !env.enqueueFails)];
      if env.enqueueFails {
        RollbackTx();
        return InternalError("Failed to enqueue code session running task");
      }
      forall id | id in executions
        ensures HasTask(queue + [item], id)
      {
        HasTaskAppend(queue, item, id);
      }
      queue := queue + [item];
      assert HasTask(queue, env.newId) by {
        assert queue[|queue| - 1] == item;
      }
      steps := steps + [Commit(!env.commitFails)];
      if !env.commitFails {
        executions := tx.value;
      }
      tx := None;
      RollbackTx();
      return JsonResponse(StatusCreated, map["execution_id" := JUuid(env.newId),
                                             "status" := JString(ToUpper(StatusName(Queued)))]);
    }
  }
}
