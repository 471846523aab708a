/** What the critical sections of `execute_run` and `cancel_run` (api_server/src/routes.rs) make of the
    run map. */
module ServerState {
  import opened Wrappers
  import opened DataStoring

  type RunMap = map<RunId, RunEntry>

  /** What `run_investigation` returns. */
  datatype RunResult = Ok(report: Report) | Err(message: string)

  function MarkedRunning(runs: RunMap, id: RunId): RunMap {
    if id in runs then runs[id := runs[id].(status := Running)] else runs
  }

  predicate IsActive(status: RunStatus) {
    status.Queued? || status.Running?
  }

  function AfterCancel(runs: RunMap, id: RunId, now: string): RunMap {
    if id in runs && IsActive(runs[id].status)
    then runs[id := runs[id].(status := Cancelled, completedAt := Some(now))]
    else runs
  }

  datatype StoreOutcome = NoEntry | KeptCancelled | StoredReport | StoredError

  function OutcomeOfStore(runs: RunMap, id: RunId, result: RunResult): StoreOutcome {
    if id !in runs then NoEntry
    else if runs[id].status.Cancelled? then KeptCancelled
    else if result.Ok? then StoredReport else StoredError
  }

  /** A finished investigation is stored unless the run was cancelled meanwhile. A failed run gets
      its completion time here, a completed one only after its audit event. */
  function AfterStore(runs: RunMap, id: RunId, result: RunResult, now: string): RunMap {
    match OutcomeOfStore(runs, id, result)
    case StoredReport => runs[id := runs[id].(status := Completed, report := Some(result.report))]
    case StoredError =>
      runs[id := runs[id].(status := Failed, error := Some(result.message), completedAt := Some(now))]
    case _ => runs
  }

  function Stamped(runs: RunMap, id: RunId, now: string): RunMap
    requires id in runs
  {
    runs[id := runs[id].(completedAt := Some(now))]
  }
}
