/**
 * The zustand store object (`useStore`): one mutable record whose fields are
 * changed only through its actions. Each method is proved to leave the store
 * in the state the corresponding `RunState` function gives, and to keep the
 * `isRunning == (status == 'running')` invariant (`Valid`).
 */
module Store {
  import opened Options
  import opened Schema
  import opened RunState

  class RunStore {
    var teamName: string
    var leaderName: string
    var repoUrl: string
    var isRunning: bool
    var startTime: Option<int>
    var logs: seq<LogEntry>
    var status: Status
    var totalTime: string
    var runSummary: Option<Summary>
    var scoreBreakdown: Option<Scores>
    var fixesApplied: Option<seq<FixRecord>>
    var ciCdTimeline: Option<seq<TimelineEntry>>

    /** What `useStore.getState()` returns (the data part). */
    function Snapshot(): StoreState
      reads this
    {
      StoreState(teamName, leaderName, repoUrl, isRunning, startTime, logs, status, totalTime,
                 runSummary, scoreBreakdown, fixesApplied, ciCdTimeline)
    }

    predicate Valid()
      reads this
    {
      Consistent(Snapshot())
    }

    constructor ()
      ensures Valid() && Snapshot() == Initial()
    {
      teamName, leaderName, repoUrl := "", "", "";
      isRunning, startTime, logs, status := false, None, [], Idle;
      totalTime := "";
      runSummary, scoreBreakdown := None, None;
      fixesApplied, ciCdTimeline := Some([]), Some([]);
    }

    method SetTeamName(name: string)
      requires Valid()
      modifies this
      ensures Valid() && Snapshot() == RunState.SetTeamName(old(Snapshot()), name)
    {
      teamName := name;
    }

    method SetLeaderName(name: string)
      requires Valid()
      modifies this
      ensures Valid() && Snapshot() == RunState.SetLeaderName(old(Snapshot()), name)
    {
      leaderName := name;
    }

    method SetRepoUrl(url: string)
      requires Valid()
      modifies this
      ensures Valid() && Snapshot() == RunState.SetRepoUrl(old(Snapshot()), url)
    {
      repoUrl := url;
    }

    /** `startRun`; `now` stands for `Date.now()`. */
    method StartRun(now: int)
      requires Valid()
      modifies this
      ensures Valid() && Snapshot() == RunState.StartRun(old(Snapshot()), now)
    {
      ghost var expected := RunState.StartRun(Snapshot(), now);
      isRunning, startTime, status, logs := true, Some(now), Running, [];
      runSummary, scoreBreakdown := Some(RunningSummary), Some(StartingScores);
      fixesApplied, ciCdTimeline := Some([]), Some([]);
      assert Snapshot() == expected;
    }

    method AddLog(entry: LogEntry)
      requires Valid()
      modifies this
      ensures Valid() && Snapshot() == RunState.AddLog(old(Snapshot()), entry)
    {
      logs := logs + [entry];
    }

    method SetLogs(newLogs: seq<LogEntry>)
      requires Valid()
      modifies this
      ensures Valid() && Snapshot() == RunState.SetLogs(old(Snapshot()), newLogs)
    {
      logs := newLogs;
    }

    method UpdateStatus(newStatus: Status)
      requires Valid()
      modifies this
      ensures Valid() && Snapshot() == RunState.UpdateStatus(old(Snapshot()), newStatus)
    {
      status := newStatus;
      isRunning := newStatus == Running;
    }

    method SetTotalTime(time: string)
      requires Valid()
      modifies this
      ensures Valid() && Snapshot() == RunState.SetTotalTime(old(Snapshot()), time)
    {
      totalTime := time;
    }

    method SetRunData(data: Payload)
      requires Valid()
      modifies this
      ensures Valid() && Snapshot() == RunState.SetRunData(old(Snapshot()), data)
    {
      runSummary := data.runSummary;
      scoreBreakdown := data.scoreBreakdown;
      fixesApplied := data.fixesApplied;
      ciCdTimeline := data.ciCdTimeline;
      logs := if data.logs.Some? then data.logs.value else logs;
    }
  }
}
