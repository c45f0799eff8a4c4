/** GET /executions/{id}: the read projection of an execution row. */
module ExecutionApi {
  import opened GoBasics
  import opened Wrappers
  import opened Store
  import opened Http

  /** The status as the API reports it: the enum text, upper-cased. */
  function ReportedStatus(s: ExecutionStatus): string
  {
    ToUpper(StatusName(s))
  }

  /** The reported statuses are the five upper-case names, one per status. */
  lemma ReportedStatusNames(s: ExecutionStatus)
    ensures ReportedStatus(s) == match s
      case Queued => "QUEUED"
      case Running => "RUNNING"
      case Completed => "COMPLETED"
      case Failed => "FAILED"
      case Timeout => "TIMEOUT"
  {
  }

  /** Distinct statuses are reported distinctly, so a client can tell them apart. */
  lemma ReportedStatusInjective(s: ExecutionStatus, t: ExecutionStatus)
    requires ReportedStatus(s) == ReportedStatus(t)
    ensures s == t
  {
    ReportedStatusNames(s);
    ReportedStatusNames(t);
  }

  /** pgtype.Text.String: the text, or "" for NULL. */
  function TextOrEmpty(t: Option<string>): string
  {
    match t
    case Some(s) => s
    case None => ""
  }

  /** pgtype.Int2.Int16: the number, or 0 for NULL. */
  function Int2OrZero(n: Option<Int16>): Int16
  {
    match n
    case Some(v) => v
    case None => 0
  }

  const CompletedKeys: set<string> := {"execution_id", "status", "stdout", "stderr", "execution_time_ms"}
  const PendingKeys: set<string> := {"execution_id", "status"}

  /**
   * GetExecution. id is uuid.Parse's result, None when the path parameter is not a UUID;
   * lookupFails says whether the query fails for a reason other than a missing row.
   */
  function GetExecution(id: Option<Uuid>, rs: Records, lookupFails: bool): (r: Response)
    ensures id.None? ==> r == InternalError("Failed to parse UUID")
    ensures id.Some? && (lookupFails || id.value !in rs) ==> r == InternalError("Failed to get execution")
    ensures r.JsonResponse? <==> id.Some? && !lookupFails && id.value in rs
    ensures r.JsonResponse? ==>
              var e := rs[id.value];
              && r.code == StatusCreated
              && r.body.Keys == (if e.status == Completed then CompletedKeys else PendingKeys)
              && r.body["execution_id"] == JUuid(id.value)
              && r.body["status"] == JString(ReportedStatus(e.status))
              && (e.status == Completed ==>
                    && r.body["stdout"] == JString(TextOrEmpty(e.stdout))
                    && r.body["stderr"] == JString(TextOrEmpty(e.stderr))
                    && r.body["execution_time_ms"] == JNumber(Int2OrZero(e.executionTimeMs)))
  {
    if id.None? then InternalError("Failed to parse UUID")
    else if lookupFails || id.value !in rs then InternalError("Failed to get execution")
    else
      var e := rs[id.value];
      if e.status == Completed then
        JsonResponse(StatusCreated, map[
          "execution_id" := JUuid(id.value),
          "status" := JString(ReportedStatus(e.status)),
          "stdout" := JString(TextOrEmpty(e.stdout)),
          "stderr" := JString(TextOrEmpty(e.stderr)),
          "execution_time_ms" := JNumber(Int2OrZero(e.executionTimeMs))])
      else
        JsonResponse(StatusCreated, map[
          "execution_id" := JUuid(id.value),
          "status" := JString(ReportedStatus(e.status))])
  }
}
