/**
 * The JSON shapes exchanged between the backend and the dashboard, as the
 * dashboard receives them. Every key the backend may omit is an `Option`:
 * the placeholder record written by `trigger_agent` has a `run_summary` with
 * only `final_status`, and the `not_found` reply of `get_status` has none of
 * the run keys at all.
 */
module Schema {
  import opened Options

  datatype Summary = Summary(
    repositoryUrl: Option<string>,
    teamName: Option<string>,
    leaderName: Option<string>,
    branchCreated: Option<string>,
    finalStatus: Option<string>,
    totalTimeSeconds: Option<int>)

  datatype Scores = Scores(
    baseScore: Option<int>,
    speedBonus: Option<int>,
    efficiencyPenalty: Option<int>,
    finalTotalScore: Option<int>)

  /** One entry of `fixes_applied`, as the backend's run record lays it out. */
  datatype FixRecord = FixRecord(file: string, bugType: string, lineNumber: int, commitMessage: string, status: string)

  /** One entry of `ci_cd_timeline`. */
  datatype TimelineEntry = TimelineEntry(iteration: string, status: string, timestamp: string)

  datatype LogKind = Info | Error | Success

  /**
   * The dashboard declares structured log entries, but the backend sends plain
   * strings; the timeline renders either, so a log entry is one or the other.
   */
  datatype LogEntry =
    | TextLog(text: string)
    | EntryLog(timestamp: string, source: string, message: string, kind: LogKind)

  /** The body of a `GET /status/{run_id}` reply. */
  datatype Payload = Payload(
    runSummary: Option<Summary>,
    scoreBreakdown: Option<Scores>,
    fixesApplied: Option<seq<FixRecord>>,
    ciCdTimeline: Option<seq<TimelineEntry>>,
    logs: Option<seq<LogEntry>>)

  /** `data.run_summary?.final_status`. */
  function FinalStatusOf(p: Payload): Option<string> {
    if p.runSummary.Some? then p.runSummary.value.finalStatus else None
  }
}
