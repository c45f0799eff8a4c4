/**
 * The execution rows of the relational store, as far as the pipeline reads and writes them:
 * the status enum and the two update queries the worker issues. The query text itself lives in
 * a generated package that is not part of this model; each query is read here as an UPDATE of
 * the row with the given id, which changes nothing when no such row exists.
 */
module Store {
  import opened GoBasics
  import opened Wrappers

  datatype ExecutionStatus = Queued | Running | Completed | Failed | Timeout

  /**
   * The text of the database enum value. The generated enum is not part of this model; the
   * lower-case names are read off the upper-cased statuses the API reports.
   */
  function StatusName(s: ExecutionStatus): string
  {
    match s
    case Queued => "queued"
    case Running => "running"
    case Completed => "completed"
    case Failed => "failed"
    case Timeout => "timeout"
  }

  /** One execution row; the three output columns are nullable. */
  datatype Execution = Execution(
    status: ExecutionStatus,
    stdout: Option<string>,
    stderr: Option<string>,
    executionTimeMs: Option<Int16>)

  /** The row CreateExecution inserts: the given status and no output yet. */
  function NewExecution(status: ExecutionStatus): Execution
  {
    Execution(status, None, None, None)
  }

  type Records = map<Uuid, Execution>

  /** Queries.UpdateExecution: sets the status of the row, and nothing else. */
  function UpdateExecution(rs: Records, id: Uuid, status: ExecutionStatus): (rs': Records)
    ensures rs'.Keys == rs.Keys
    ensures id in rs ==> rs'[id].status == status
    ensures id in rs ==> rs'[id].stdout == rs[id].stdout && rs'[id].stderr == rs[id].stderr
    ensures id in rs ==> rs'[id].executionTimeMs == rs[id].executionTimeMs
    ensures forall k :: k in rs && k != id ==> rs'[k] == rs[k]
  {
    if id in rs then rs[id := rs[id].(status := status)] else rs
  }

  /** Queries.CompleteExecution: sets the status and all three output columns of the row. */
  function CompleteExecution(rs: Records, id: Uuid, status: ExecutionStatus,
                             stdout: string, stderr: string, ms: Int16): (rs': Records)
    ensures rs'.Keys == rs.Keys
    ensures id in rs ==> rs'[id] == Execution(status, Some(stdout), Some(stderr), Some(ms))
    ensures forall k :: k in rs && k != id ==> rs'[k] == rs[k]
  {
    if id in rs then rs[id := Execution(status, Some(stdout), Some(stderr), Some(ms))] else rs
  }
}
