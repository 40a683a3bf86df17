/**
 * The dashboard's run-state store as a value. Every zustand action is a
 * shallow merge of the keys it lists into one record; here each action is a
 * function from the old snapshot to the new one, and the lemmas state what the
 * actions promise. The `Store` module's class is proved against these functions.
 */
module RunState {
  import opened Options
  import opened Schema

  datatype Status = Idle | Running | Completed | Failed

  datatype StoreState = StoreState(
    teamName: string,
    leaderName: string,
    repoUrl: string,
    isRunning: bool,
    startTime: Option<int>,
    logs: seq<LogEntry>,
    status: Status,
    totalTime: string,
    runSummary: Option<Summary>,
    scoreBreakdown: Option<Scores>,
    fixesApplied: Option<seq<FixRecord>>,
    ciCdTimeline: Option<seq<TimelineEntry>>)

  /** The store's central invariant: `isRunning` is exactly `status === 'running'`. */
  predicate Consistent(s: StoreState) {
    s.isRunning == (s.status == Running)
  }

  function Initial(): StoreState {
    StoreState("", "", "", false, None, [], Idle, "", None, None, Some([]), Some([]))
  }

  /** The fresh summary and score breakdown `startRun` installs. */
  const RunningSummary: Summary := Summary(Some(""), Some(""), Some(""), Some(""), Some("RUNNING"), Some(0))
  const StartingScores: Scores := Scores(Some(100), Some(0), Some(0), Some(100))

  function SetTeamName(s: StoreState, name: string): StoreState {
    s.(teamName := name)
  }

  function SetLeaderName(s: StoreState, name: string): StoreState {
    s.(leaderName := name)
  }

  function SetRepoUrl(s: StoreState, url: string): StoreState {
    s.(repoUrl := url)
  }

  /** `startRun`, with `Date.now()` supplied as `now`. */
  function StartRun(s: StoreState, now: int): StoreState {
    s.(isRunning := true, startTime := Some(now), status := Running, logs := [],
       runSummary := Some(RunningSummary), scoreBreakdown := Some(StartingScores),
       fixesApplied := Some([]), ciCdTimeline := Some([]))
  }

  function AddLog(s: StoreState, entry: LogEntry): StoreState {
    s.(logs := s.logs + [entry])
  }

  function SetLogs(s: StoreState, logs: seq<LogEntry>): StoreState {
    s.(logs := logs)
  }

  function UpdateStatus(s: StoreState, status: Status): StoreState {
    s.(status := status, isRunning := status == Running)
  }

  function SetTotalTime(s: StoreState, time: string): StoreState {
    s.(totalTime := time)
  }

  /**
   * `setRunData`: the four run keys are copied from the payload as they are,
   * absent ones included; `data.logs || state.logs` keeps the old logs only
   * when the payload has no `logs` array (an empty array is truthy in JavaScript).
   */
  function SetRunData(s: StoreState, data: Payload): StoreState {
    s.(runSummary := data.runSummary, scoreBreakdown := data.scoreBreakdown,
       fixesApplied := data.fixesApplied, ciCdTimeline := data.ciCdTimeline,
       logs := if data.logs.Some? then data.logs.value else s.logs)
  }

  /** The actions other than `startRun` and `updateStatus`, for stating what they leave alone. */
  datatype Action =
    | SetTeamNameAction(name: string)
    | SetLeaderNameAction(name: string)
    | SetRepoUrlAction(url: string)
    | AddLogAction(entry: LogEntry)
    | SetLogsAction(logs: seq<LogEntry>)
    | SetTotalTimeAction(time: string)
    | SetRunDataAction(data: Payload)

  function Apply(s: StoreState, a: Action): StoreState {
    match a
    case SetTeamNameAction(name) => SetTeamName(s, name)
    case SetLeaderNameAction(name) => SetLeaderName(s, name)
    case SetRepoUrlAction(url) => SetRepoUrl(s, url)
    case AddLogAction(entry) => AddLog(s, entry)
    case SetLogsAction(logs) => SetLogs(s, logs)
    case SetTotalTimeAction(time) => SetTotalTime(s, time)
    case SetRunDataAction(data) => SetRunData(s, data)
  }

  lemma InitialIsConsistent()
    ensures Consistent(Initial())
    ensures Initial().status == Idle && !Initial().isRunning
  {
  }

  /** `startRun` and `updateStatus` establish the invariant from any state; the others never touch either field. */
  lemma ActionsKeepConsistent(s: StoreState, a: Action, now: int, status: Status)
    ensures Consistent(StartRun(s, now)) && Consistent(UpdateStatus(s, status))
    ensures Apply(s, a).status == s.status && Apply(s, a).isRunning == s.isRunning
    ensures Consistent(s) ==> Consistent(Apply(s, a))
  {
  }

  lemma StartRunResets(s: StoreState, now: int)
    ensures var r := StartRun(s, now);
      && r.status == Running && r.isRunning && r.startTime == Some(now)
      && r.logs == [] && r.fixesApplied == Some([]) && r.ciCdTimeline == Some([])
      && r.runSummary == Some(Summary(Some(""), Some(""), Some(""), Some(""), Some("RUNNING"), Some(0)))
      && r.scoreBreakdown == Some(Scores(Some(100), Some(0), Some(0), Some(100)))
      && r.teamName == s.teamName && r.leaderName == s.leaderName && r.repoUrl == s.repoUrl
      && r.totalTime == s.totalTime
  {
  }

  /** Starting a run forgets everything the previous run left in the store. */
  lemma StartRunForgetsPreviousRun(s1: StoreState, s2: StoreState, now: int)
    requires s1.teamName == s2.teamName && s1.leaderName == s2.leaderName && s1.repoUrl == s2.repoUrl
    requires s1.totalTime == s2.totalTime
    ensures StartRun(s1, now) == StartRun(s2, now)
  {
  }

  lemma AddLogAppends(s: StoreState, entry: LogEntry)
    ensures var r := AddLog(s, entry);
      && |r.logs| == |s.logs| + 1
      && r.logs[..|s.logs|] == s.logs
      && r.logs[|s.logs|] == entry
      && r.(logs := s.logs) == s
  {
  }

  lemma SetRunDataCopiesPayload(s: StoreState, data: Payload)
    ensures var r := SetRunData(s, data);
      && r.runSummary == data.runSummary && r.scoreBreakdown == data.scoreBreakdown
      && r.fixesApplied == data.fixesApplied && r.ciCdTimeline == data.ciCdTimeline
      && r.status == s.status && r.isRunning == s.isRunning && r.startTime == s.startTime
      && r.teamName == s.teamName && r.leaderName == s.leaderName && r.repoUrl == s.repoUrl
      && r.totalTime == s.totalTime
  {
  }

  /** Logs survive `setRunData` exactly when the payload carries no `logs` key; an empty array replaces them. */
  lemma SetRunDataLogs(s: StoreState, data: Payload)
    ensures SetRunData(s, data).logs == s.logs <== data.logs.None?
    ensures data.logs == Some([]) ==> SetRunData(s, data).logs == []
    ensures data.logs.Some? ==> SetRunData(s, data).logs == data.logs.value
  {
  }

  /** The run keys after `setRunData` depend on the payload alone, never on what the store held before. */
  lemma SetRunDataIgnoresPriorRun(s1: StoreState, s2: StoreState, data: Payload)
    requires data.logs.Some? || s1.logs == s2.logs
    requires s1.(logs := s2.logs, runSummary := s2.runSummary, scoreBreakdown := s2.scoreBreakdown,
                 fixesApplied := s2.fixesApplied, ciCdTimeline := s2.ciCdTimeline) == s2
    ensures SetRunData(s1, data) == SetRunData(s2, data)
  {
  }

  lemma UpdateStatusIdempotent(s: StoreState, status: Status)
    ensures UpdateStatus(UpdateStatus(s, status), status) == UpdateStatus(s, status)
  {
  }
}
