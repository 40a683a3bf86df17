# DevOps agent dashboard and run service, modelled in Dafny

The system is an autonomous "DevOps agent". A React dashboard takes a
GitHub URL, a team name and a leader name and starts a run. A FastAPI
backend then drives a LangGraph workflow over the repository:

- the analyzer clones and classifies it;
- the debugger runs its tests in a container;
- the fixer patches a file after each failure, up to five test runs;
- the git manager is meant to commit to a branch named after the team and
  leader. As written, `run_git_agent` calls an undefined
  `checkout_new_branch`, so every call returns the error result and nothing
  is committed (`GitOps.RunGitAgentAlwaysFails`).

The backend keeps one record per run: summary, score breakdown, fixes,
CI/CD timeline and logs. The dashboard polls that record every two seconds
and shows it. This project models the core of both sides:

- **`RunState` and `Store`**: the zustand store (`useStore`). `RunState`
  gives each action as a function on a snapshot. `Store.RunStore` is the
  mutable store object; each of its methods is proved to produce exactly
  that snapshot and to keep `isRunning == (status == 'running')`.
- **`Controller`**: `handleRun` in the input panel. It covers the input
  gate, `startRun`, the trigger exchange and the recurring status poll.
  Replies are arguments, each live `setInterval` loop is an entry of
  `intervals`, and one timer firing is one `Tick` call.
- **Projections of a store snapshot**: `RunStatus` (the `useRunStatus`
  hook), `RunSummaryView`, `ScorePanel` (with its one-second elapsed
  ticker as a small class) and `Timeline`.
- **`Api`**: `main.py`.
  - `Server` holds the `runs` dictionary and the `trigger_agent`,
    `get_status` and `execute_graph` handlers.
  - `ExecuteGraph` is the loop over the workflow's stream. It is proved to
    leave exactly the record that `ExecuteGraphResult` specifies: the
    stream folded by `FoldItem` from the initial record, then concluded.
  - The lemmas state what that record holds.
- **`Graph`**: the workflow of `graph.py`. Nodes are pure functions from
  the agent state (and the reply of their foreign call) to a partial
  update. `Merge` overwrites the keys an update carries. `Run` follows the
  edges and the `should_continue` router down to END, and its termination
  measure is the retries left.
- **`Pipeline`**: connects the two. It proves what `execute_graph` leaves
  for the stream the compiled graph actually produces:
  - one timeline entry per debugger run, between one and five;
  - the final status is decided by the last test run.
- **`GitOps`**: `create_branch_name` and the result shapes of
  `run_git_agent`.
- **`Analyzer`**: the classification loop of `analyze_repository` over a
  supplied `os.walk` listing.
- **`Text` and `Options`**: ASCII upper-casing, character replacement,
  substring search and decimal conversion; the `Option` type.

Behaviours of the code that the model keeps as written:

- **Empty logs.** `data.logs || state.logs` in `setRunData` replaces the
  logs with any array, an empty one included (`RunState.SetRunDataLogs`).
- **Absent run keys.** `setRunData` copies absent keys verbatim. The
  placeholder record and the `not_found` reply have no `fixes_applied` or
  `ci_cd_timeline`, so the store fields are `Option`s (`Api.JsonKeys`,
  `RunState.SetRunDataCopiesPayload`). On such a store the iteration badge
  throws (`Timeline.IterationDisplayCases`).
- **Resubmitting.** `handleRun` checks only the three inputs. A second call
  while a poll loop runs starts a second loop and leaves the first one
  running (`Controller.RunController.HandleRun`).
- **Missing run id.** A trigger reply without a run id still starts
  polling, with `undefined` in the URL (`TriggerAccepted(None)`).
- **Branch suffix.** `main.py` records the branch suffix as `_AI_Fix`, but
  `git_ops.py` builds `_AI_FIX`. The two names always differ
  (`Api.BranchNamesDisagree`).
- **Timeline duplicates.** The timeline's duplicate check compares the
  stored verdict (`PASSED`/`FAILED`) with the node's raw status
  (`tests_passed`/...). On a timeline of verdicts it therefore never
  fires (`Api.TimelineAppendsVerdict`).
- **Score range.** The backend's final score is always 100 or 110
  (`Api.ExecuteGraphScore`).

## Model

| member | source | states |
|---|---|---|
| Store.RunStore.constructor | store/useStore.ts:70-95 | the store starts idle, not running, with no start time, no logs, null summary and scores, and empty fix and timeline lists, which satisfies the running/status invariant |
| Store.RunStore.SetTeamName | store/useStore.ts:96 | only `teamName` changes; the invariant is kept |
| Store.RunStore.SetLeaderName | store/useStore.ts:97 | only `leaderName` changes; the invariant is kept |
| Store.RunStore.SetRepoUrl | store/useStore.ts:98 | only `repoUrl` changes; the invariant is kept |
| Store.RunStore.StartRun | store/useStore.ts:100-122 | the new store is the `startRun` merge of the old one: running, started now, logs cleared, the RUNNING summary, the 100/0/0/100 scores, empty fixes and timeline; the invariant is kept |
| Store.RunStore.AddLog | store/useStore.ts:124 | the entry is appended to the logs and nothing else changes |
| Store.RunStore.SetLogs | store/useStore.ts:125 | the logs are replaced and nothing else changes |
| Store.RunStore.UpdateStatus | store/useStore.ts:127 | status is set and `isRunning` recomputed from it, so the invariant holds whatever the old state |
| Store.RunStore.SetTotalTime | store/useStore.ts:132 | only `totalTime` changes |
| Store.RunStore.SetRunData | store/useStore.ts:136-147 | the four run keys are copied from the payload as they are, absent ones included; logs are replaced when the payload has any logs array, else kept |
| RunState.Initial | store/useStore.ts:70-95 | the store's initial object; `RunState.InitialIsConsistent` states it is idle, not running and consistent |
| RunState.SetTeamName | store/useStore.ts:96 | `setTeamName`: the snapshot with `teamName` replaced; `RunState.ActionsKeepConsistent` states it keeps the invariant |
| RunState.SetLeaderName | store/useStore.ts:97 | `setLeaderName`: the snapshot with `leaderName` replaced; `RunState.ActionsKeepConsistent` states it keeps the invariant |
| RunState.SetRepoUrl | store/useStore.ts:98 | `setRepoUrl`: the snapshot with `repoUrl` replaced; `RunState.ActionsKeepConsistent` states it keeps the invariant |
| RunState.StartRun | store/useStore.ts:100-122 | `startRun`'s merge; `RunState.StartRunResets` and `RunState.StartRunForgetsPreviousRun` state what it sets and that nothing of the previous run survives |
| RunState.AddLog | store/useStore.ts:124 | `addLog`; `RunState.AddLogAppends` states it appends exactly one entry |
| RunState.SetLogs | store/useStore.ts:125 | `setLogs`: the logs replaced wholesale; `RunState.ActionsKeepConsistent` states status and `isRunning` are untouched |
| RunState.UpdateStatus | store/useStore.ts:127 | `updateStatus`; `RunState.ActionsKeepConsistent` and `RunState.UpdateStatusIdempotent` state it establishes the invariant and is idempotent |
| RunState.SetTotalTime | store/useStore.ts:132 | `setTotalTime`; `RunState.ActionsKeepConsistent` states status and `isRunning` are untouched |
| RunState.SetRunData | store/useStore.ts:136-147 | `setRunData`; `RunState.SetRunDataCopiesPayload`, `RunState.SetRunDataLogs` and `RunState.SetRunDataIgnoresPriorRun` state what it copies and when logs survive |
| RunState.Apply | store/useStore.ts:96-147 | dispatch of every action other than `startRun` and `updateStatus`; `RunState.ActionsKeepConsistent` states none of them touches status or `isRunning` |
| RunState.InitialIsConsistent | store/useStore.ts:74-80 | the initial state is idle, not running, and consistent |
| RunState.ActionsKeepConsistent | store/useStore.ts:96-147 | `startRun` and `updateStatus` establish the invariant from any state; every other action leaves both `status` and `isRunning` untouched, so it preserves the invariant |
| RunState.StartRunResets | store/useStore.ts:100-122 | after `startRun`: running, start time now, empty logs/fixes/timeline, summary with empty strings, RUNNING and 0 seconds, scores 100/0/0/100; config fields and `totalTime` unchanged |
| RunState.StartRunForgetsPreviousRun | store/useStore.ts:100-122 | two stores with the same config give the same state after `startRun`: nothing from a previous run survives |
| RunState.AddLogAppends | store/useStore.ts:124 | one more log, the earlier ones unchanged and in order, the new one last, every other field unchanged |
| RunState.SetRunDataCopiesPayload | store/useStore.ts:136-147 | the run keys equal the payload's; status, `isRunning`, start time and config are untouched |
| RunState.SetRunDataLogs | store/useStore.ts:145 | logs are kept exactly when the payload has no logs; an empty array clears them; any array replaces them |
| RunState.SetRunDataIgnoresPriorRun | store/useStore.ts:136-147 | the result does not depend on the run data the store held before |
| RunState.UpdateStatusIdempotent | store/useStore.ts:127 | `updateStatus(s)` twice is `updateStatus(s)` once |
| Controller.InputsFilled | components/InputSection.tsx:13 | the input gate of `handleRun`; `Controller.RunController.HandleRun` states that unfilled inputs change nothing |
| Controller.RunEnabled | components/InputSection.tsx:106 | the run button's enabled state; `Controller.RunEnabledIff` states it as an iff |
| Controller.AfterTrigger | components/InputSection.tsx:15-62 | the store after `startRun` and the trigger exchange; `Controller.TriggerFailureKeepsReset` states the failure cases |
| Controller.HandleRunEvents | components/InputSection.tsx:15-62 | the store actions and requests `handleRun` issues, in order; `Controller.StartRunPrecedesTrigger` states their order and the request body |
| Controller.TerminalStatus | components/InputSection.tsx:45-53 | the status a poll reply's final status ends the run with; `Controller.TerminalStatusCases` states its three cases as iffs |
| Controller.TickState | components/InputSection.tsx:36-57 | the store after one poll; `Controller.TickAppliesReply` and `Controller.TickOutcomes` state the reply is applied and the terminal cases |
| Controller.TickStops | components/InputSection.tsx:47-52 | whether a poll clears its interval; `Controller.TickOutcomes` states it holds for PASSED and FAILED and that otherwise the status is unchanged |
| Controller.TickEvents | components/InputSection.tsx:36-57 | the request and store actions of one poll; `Controller.TickAppliesReply` states their order |
| Controller.RunEnabledIff | components/InputSection.tsx:106 | the run button is enabled iff not running and all three inputs are non-empty |
| Controller.TerminalStatusCases | components/InputSection.tsx:45-53 | a final status PASSED means completed, FAILED means failed, and anything else (absent included) has no terminal status, all as iffs |
| Controller.TriggerFailureKeepsReset | components/InputSection.tsx:15-62 | after a rejected or thrown trigger the store is idle and not running, but what `startRun` cleared stays cleared |
| Controller.StartRunPrecedesTrigger | components/InputSection.tsx:15-29 | `startRun` is the first event and the trigger request, carrying the three inputs, is the second |
| Controller.TickAppliesReply | components/InputSection.tsx:36-45 | a tick that got a reply applies it (run keys copied, logs replaced if present) before looking at the status; for any run id, the status request is the first event and applying the reply the second |
| Controller.TickOutcomes | components/InputSection.tsx:36-57 | PASSED gives completed and stops the loop; FAILED gives failed and stops; anything else keeps status and loop; a thrown poll changes nothing; the invariant holds |
| Controller.RunController.HandleRun | components/InputSection.tsx:12-63 | unfilled inputs change nothing; otherwise the store is started (and reset to idle unless the trigger was accepted), the events are issued in order, and an accepted trigger adds one poll loop with the reply's run id, present or not |
| Controller.RunController.Tick | components/InputSection.tsx:36-57 | one firing of a loop: the store becomes the tick's state, the request and store events are recorded, and the loop is removed exactly when the status was terminal |
| RunStatus.StatusColor | hooks/useRunStatus.ts:6-13 | the status colour classes; `RunStatus.StatusColorFourWay` states one class per status, as iffs |
| RunStatus.StatusLabel | hooks/useRunStatus.ts:15-17 | the status label; `RunStatus.StatusLabelValues` states its four values |
| RunStatus.ElapsedTime | hooks/useRunStatus.ts:19-25 | the elapsed-time text; `RunStatus.ElapsedTimeCases` states its cases and that the digits read back as the seconds elapsed |
| RunStatus.LastLogMessage | hooks/useRunStatus.ts:27 | the last log's message; `RunStatus.LastLogMessageCases` states its cases |
| RunStatus.StatusColorFourWay | hooks/useRunStatus.ts:6-13 | each of the four colour classes is produced by exactly one status (iffs) |
| RunStatus.StatusLabelValues | hooks/useRunStatus.ts:15-17 | the label is IDLE, RUNNING, PASSED or FAILED for idle, running, completed, failed |
| RunStatus.ElapsedSeconds | hooks/useRunStatus.ts:23 | the floor of the milliseconds over 1000: `1000*secs <= now-start < 1000*(secs+1)`, non-negative when `now >= start` |
| RunStatus.ElapsedTimeCases | hooks/useRunStatus.ts:19-25 | a set `totalTime` is shown as is; without one, a null or 0 start or a stopped run shows `0s`; otherwise, when `now >= startTime`, digits then `s`, and the digits read back as the whole seconds elapsed |
| RunStatus.LastLogMessageCases | hooks/useRunStatus.ts:27 | no logs gives `Initializing...`; a structured last entry gives its message; a plain-string last entry gives no message |
| RunSummaryView.DisplayedBranchName | components/RunSummary.tsx:8 | the branch shown; `RunSummaryView.DisplayedBranchNameCases` states its cases |
| RunSummaryView.DisplayedRepo | components/RunSummary.tsx:9 | the repository shown; `RunSummaryView.DisplayedRepoCases` states its fallbacks |
| RunSummaryView.BadgeClass | components/RunSummary.tsx:27-31 | the badge class; `RunSummaryView.BadgeClassMatchesColor` states one class per status |
| RunSummaryView.BadgeText | components/RunSummary.tsx:32 | the badge text; `RunSummaryView.BadgeTextIsLabel` states it equals the hook's label |
| RunSummaryView.DisplayedBranchNameCases | components/RunSummary.tsx:8 | a present non-empty branch is shown, otherwise `Waiting...`; never empty |
| RunSummaryView.DisplayedRepoCases | components/RunSummary.tsx:9 | the summary's non-empty URL, else the typed URL if non-empty, else `N/A`; never empty |
| RunSummaryView.BadgeTextIsLabel | components/RunSummary.tsx:32 | the badge text equals the hook's label: the `IDLE` fallback never fires |
| RunSummaryView.BadgeClassMatchesColor | components/RunSummary.tsx:27-31 | each of the four badge classes belongs to exactly one status (iffs), and the badge falls back to its neutral class for exactly the statuses for which the hook's colour does |
| ScorePanel.DisplayScore | components/ScorePanel.tsx:23 | the total shown; `ScorePanel.ScoreDefaults` states its default and that a present value is shown |
| ScorePanel.BaseScore | components/ScorePanel.tsx:24 | the base score shown; `ScorePanel.ScoreDefaults` states its default |
| ScorePanel.SpeedBonus | components/ScorePanel.tsx:25 | the speed bonus shown; `ScorePanel.ScoreDefaults` states its default |
| ScorePanel.Penalty | components/ScorePanel.tsx:26 | the efficiency penalty shown; `ScorePanel.ScoreDefaults` states its default |
| ScorePanel.Duration | components/ScorePanel.tsx:55 | minutes and seconds of the elapsed count; `ScorePanel.DurationSplits` states that they recombine to it with seconds in [0, 60) |
| ScorePanel.ScoreDefaults | components/ScorePanel.tsx:23-26 | only a missing breakdown or field takes the default (100, 100, 0, 0); a present value, 0 included, is shown |
| ScorePanel.JsRemainder | components/ScorePanel.tsx:55 | JavaScript `%`: the remainder lies in [0, b) for a non-negative dividend and in (-b, 0] for a negative one |
| ScorePanel.JsRemainderNegates | components/ScorePanel.tsx:55 | the JavaScript remainder equals Dafny's `%` on a non-negative dividend and negating the dividend negates it, which fixes its value on negative dividends |
| ScorePanel.DurationSplits | components/ScorePanel.tsx:55 | for a non-negative count, `60*m + s == elapsed` with `0 <= s < 60` and `m >= 0` |
| ScorePanel.ElapsedTicker.constructor | components/ScorePanel.tsx:7 | elapsed starts at 0 with no interval |
| ScorePanel.ElapsedTicker.Sync | components/ScorePanel.tsx:9-17 | the effect keeps an interval exactly while running with a truthy start time, and leaves the elapsed value as it was |
| ScorePanel.ElapsedTicker.Tick | components/ScorePanel.tsx:12-13 | a firing sets elapsed to the whole seconds since the captured start, non-negative when `now >= start` |
| Timeline.IterationDisplay | components/Timeline.tsx:16 | the iteration badge; `Timeline.IterationDisplayCases` states its three cases |
| Timeline.RowOf | components/Timeline.tsx:38-41 | one feed row; `Timeline.PlainLogsShowAsLog` states how plain-string entries show |
| Timeline.FeedOf | components/Timeline.tsx:32-45 | the log feed; `Timeline.FeedRows` states placeholder iff empty and one row per entry, in order |
| Timeline.IterationDisplayCases | components/Timeline.tsx:16 | the last entry's iteration, `0/5` for an empty timeline, and a crash for an absent one |
| Timeline.FeedRows | components/Timeline.tsx:32-45 | the placeholder iff there are no logs; otherwise one row per entry, in order |
| Timeline.PlainLogsShowAsLog | components/Timeline.tsx:38-41 | plain-string entries (what the backend sends) show as `LOG` with their own text |
| GitOps.RunGitAgentWith | backend/app/tools/git_ops.py:9-22 | `run_git_agent` with the outcome of the git calls supplied; `GitOps.RunGitAgentShapes` states its two result shapes |
| GitOps.RunGitAgent | backend/app/tools/git_ops.py:9-22 | `run_git_agent` as written, where `checkout_new_branch` is undefined; `GitOps.RunGitAgentAlwaysFails` states every call fails |
| GitOps.BranchWithSuffix | backend/app/tools/git_ops.py:7 | the name is the upper-cased team, `_`, the upper-cased leader and the suffix, with every space made `_`: its length, each character and the suffix part are stated, and no space remains |
| GitOps.CreateBranchName | backend/app/tools/git_ops.py:4-7 | no spaces, ends with `_AI_FIX`, length `|team|+|leader|+8`, and each character is the upper-cased (space to `_`) input character |
| GitOps.RunGitAgentShapes | backend/app/tools/git_ops.py:9-22 | success exactly without an exception, with the branch and `[AI-AGENT] Applied <n> fixes`; otherwise the failed shape, whose branch formats as `None` |
| GitOps.RunGitAgentAlwaysFails | backend/app/tools/git_ops.py:12-22 | with the checkout function undefined, every call reports `failed` and no branch |
| Analyzer.PathJoin | backend/app/agents/analyzer.py:29 | `os.path.join(root, file)`; `Analyzer.TestFilesMembership` states the listed paths are these joins |
| Analyzer.FileLanguage | backend/app/agents/analyzer.py:26-31 | the language a file name's extension sets; `Analyzer.LanguageUnknownIff` and `Analyzer.LanguageIsLastMatch` state its effect on the result |
| Analyzer.IsTestFile | backend/app/agents/analyzer.py:26-33 | the test-file rule; `Analyzer.TestFileRules` states it per extension |
| Analyzer.LanguageOf | backend/app/agents/analyzer.py:22-31 | the language the walk leaves; `Analyzer.LanguageUnknownIff` and `Analyzer.LanguageIsLastMatch` state it |
| Analyzer.TestFilesOf | backend/app/agents/analyzer.py:21-33 | the test files the walk lists; `Analyzer.TestFilesMembership` and `Analyzer.TestFilesKeepOrder` state membership and order |
| Analyzer.AnalyzeRepository | backend/app/agents/analyzer.py:20-35 | the loop returns the input path, the language of the last recognised file, and the joined paths of the test files, in walk order |
| Analyzer.TestFileRules | backend/app/agents/analyzer.py:26-33 | a `.py` file is a test iff its name contains `test` (the `test_` prefix check adds nothing); a `.js`/`.ts` file iff `test` or `spec`; other files never |
| Analyzer.LanguageUnknownIff | backend/app/agents/analyzer.py:22-35 | the language is `unknown` iff no file ends in `.py`, `.js` or `.ts` |
| Analyzer.LanguageIsLastMatch | backend/app/agents/analyzer.py:24-31 | the language is the one of the last file with a recognised extension |
| Analyzer.TestFilesMembership | backend/app/agents/analyzer.py:21-33 | a path is listed iff it is the join of some walked test file's root and name |
| Analyzer.TestFilesKeepOrder | backend/app/agents/analyzer.py:24-33 | the listing of a concatenated walk is the concatenation of the listings |
| Graph.Merge | backend/app/graph.py:8-19 | the merge of a node's partial update into the state by key overwrite; `Graph.NodeRetry` and `Graph.NodesExtendLogs` state what each node's merge changes |
| Graph.AnalyzerNode | backend/app/graph.py:21-29 | `analyzer_node`; `Graph.NodesExtendLogs` states it adds one log line |
| Graph.DebuggerNode | backend/app/graph.py:31-42 | `debugger_node`; `Graph.DebuggerVerdict` and `Graph.NodesExtendLogs` state its status, retry count and two log lines |
| Graph.LineNumber | backend/app/graph.py:55-56 | the line number read from the last log; `Graph.LineNumberNoMatch`, `Graph.LineNumberIsFirstMatch` and `Graph.LineNumberReadsBack` state it |
| Graph.ErrorType | backend/app/graph.py:58-63 | the error type read from the last log; `Graph.ErrorTypeFirstMatch` states its keyword order |
| Graph.TargetFile | backend/app/graph.py:51 | the file the fixer targets; `Graph.FixerAppendsOneFix` states it is the first test file or `unknown` |
| Graph.FixerNode | backend/app/graph.py:44-80 | `fixer_node`; `Graph.FixerAppendsOneFix` states the one fix it appends |
| Graph.GitManagerNode | backend/app/graph.py:82-87 | `git_manager_node`; `Graph.NodesExtendLogs` states it adds one log line |
| Graph.ShouldContinue | backend/app/graph.py:89-96 | `should_continue`; `Graph.ShouldContinueRoutes` states both routes as iffs |
| Graph.Execute | backend/app/graph.py:100-103 | dispatch to the node functions; `Graph.NodeRetry` and `Graph.NodesExtendLogs` state their effects |
| Graph.Next | backend/app/graph.py:105-116 | the edges of the compiled graph; `Pipeline.DebuggerToGitManager` and `Pipeline.DebuggerToFixer` state the debugger's two successors |
| Graph.Run | backend/app/graph.py:98-118 | the stream of node outputs to END; `Graph.RunEndsWithGitManager`, `Graph.DebuggerRunsBounded` and `Graph.WorkflowDebuggerBound` state its shape and the bound on debugger runs |
| Graph.CountDebugger | backend/app/graph.py:31-42 | the number of debugger outputs in a run; `Graph.DebuggerRunsBounded` bounds it |
| Graph.FindLineRef | backend/app/graph.py:55 | the leftmost position at or after `from` where `line ` is followed by a digit, or none at all |
| Graph.DigitRun | backend/app/graph.py:55 | the greedy digit run: all digits, and not followed by a digit |
| Graph.LineNumberNoMatch | backend/app/graph.py:55-56 | without a match the line number is 1 |
| Graph.LineNumberIsFirstMatch | backend/app/graph.py:55-56 | with a leftmost match, the number is the value of its whole, non-empty digit run |
| Graph.LineNumberReadsBack | backend/app/graph.py:55-56 | the log `line <n>` gives line number n |
| Graph.ErrorTypeFirstMatch | backend/app/graph.py:58-63 | the first keyword wins: SyntaxError gives SYNTAX, then IndentationError INDENTATION, then ImportError or ModuleNotFoundError IMPORT, then AssertionError LOGIC, then TypeError TYPE_ERROR, each when no earlier keyword occurs; UNKNOWN iff none of the six occurs |
| Graph.ShouldContinueRoutes | backend/app/graph.py:89-96 | the router picks the fixer iff the tests did not pass and retries remain; the git manager otherwise |
| Graph.DebuggerVerdict | backend/app/graph.py:31-42 | `tests_passed` iff the exit code is 0; a missing exit code fails; the retry count goes up by one |
| Graph.NodeRetry | backend/app/graph.py:31-42 | only the debugger moves `current_retry`, by one; no node changes `max_retries` |
| Graph.NodesExtendLogs | backend/app/graph.py:21-87 | every node returns the old logs plus new lines: one each for the analyzer, fixer and git manager, two for the debugger |
| Graph.FixerAppendsOneFix | backend/app/graph.py:44-80 | one fix is appended, earlier ones unchanged, with the first test file (or `unknown`), the error type and line from the last log, `Fixed <type> error at line <n>` and `applied` |
| Graph.DebuggerRunsBounded | backend/app/graph.py:89-116 | from the debugger with retry r, the debugger runs between 1 and max(1, max_retries - r) times before END |
| Graph.WorkflowDebuggerBound | backend/app/graph.py:98-118 | from the entry point with retry 0, the debugger runs between 1 and max(1, max_retries) times |
| Graph.RunEndsWithGitManager | backend/app/graph.py:98-118 | every run from a node is non-empty, starts with that node's output and ends with the git manager's |
| Api.Json | backend/app/main.py:183-185 | the JSON body `get_status` returns, as the client sees it; `Api.JsonKeys` states which keys each reply has |
| Api.BranchCreated | backend/app/main.py:67 | the branch name the record carries; `Api.BranchNamesDisagree` states it is never the git agent's |
| Api.InitialRecord | backend/app/main.py:62-80 | the record `execute_graph` starts from; `Api.InitialRecordFields` states every field |
| Api.MapFix | backend/app/main.py:96-102 | one fix with its defaults; `Api.Server.MapFixes` states the loop maps each fix by it |
| Api.IterationLabel | backend/app/main.py:115 | the `<retry>/5` label; `Api.TimelineAppendsVerdict` states the entry carrying it |
| Api.TimelineAfter | backend/app/main.py:115-130 | the timeline after one status output; `Api.TimelineAppendsVerdict` states the duplicate check never fires on verdicts |
| Api.FinalStatusAfter | backend/app/main.py:132-136 | the final status after one status output; `Api.FoldStatusRange` and `Api.FoldStatusLastDecisive` state its effect over a stream |
| Api.FoldItem | backend/app/main.py:84-136 | one streamed output applied to the record; `Api.FoldItemFields` states its effect field by field |
| Api.FoldStream | backend/app/main.py:83-136 | the whole stream applied in order; `Api.FoldStreamAppend`, `Api.FoldTimeline`, `Api.FoldLogs`, `Api.FoldFixes`, `Api.FoldTime`, `Api.FoldKeepsIdentity` and the `Api.FoldStatus` lemmas state it |
| Api.ScoreFor | backend/app/main.py:138-162 | the score breakdown; `Api.ConclusionFields` and `Api.ExecuteGraphScore` state its values |
| Api.Conclusion | backend/app/main.py:138-178 | scoring and the safety net, or the `except` branch; `Api.ConclusionFields` states both endings |
| Api.ExecuteGraphResult | backend/app/main.py:44-178 | the record `execute_graph` leaves; `Api.ExecuteGraphVerdict`, `Api.ExecuteGraphScore`, `Api.ExecuteGraphIdentity` and `Api.ExecuteGraphTimeline` state it |
| Api.VerdictEntries | backend/app/main.py:111-130 | the timeline entries a stream produces; `Api.FoldTimeline` and `Api.VerdictEntriesAreVerdicts` state it |
| Api.JsonKeys | backend/app/main.py:37-42 | only a full record has the score, fixes and timeline keys; every stored record has logs and a final status (STARTING for the placeholder); the `not_found` reply has neither |
| Api.BranchNamesDisagree | backend/app/main.py:67 | the recorded branch has the git agent's length but is never the branch the git agent creates |
| Api.InitialRecordFields | backend/app/main.py:62-80 | the first record: the request's URL, team and leader, the `_AI_Fix` branch, RUNNING, 0 seconds, scores 100/0/0/100, empty fixes, timeline and logs |
| Api.FoldItemFields | backend/app/main.py:84-136 | one output sets the elapsed seconds; replaces logs and fixes (mapped) when it carries them; and, when it has a status, appends to the timeline and updates the final status; nothing else changes |
| Api.FoldStreamAppend | backend/app/main.py:83-136 | folding two stretches of the stream in turn is folding them together |
| Api.TimelineAppendsVerdict | backend/app/main.py:117-130 | on a timeline of verdicts the duplicate check never fires: a test verdict is always appended, anything else never |
| Api.VerdictEntriesAreVerdicts | backend/app/main.py:125-130 | every appended entry is PASSED or FAILED |
| Api.FoldTimeline | backend/app/main.py:111-130 | the fold appends exactly one entry per test-verdict output, in stream order, and changes no earlier entry |
| Api.FoldStatusRange | backend/app/main.py:132-136 | the fold only ever sets the final status to PASSED or FAILED |
| Api.FoldStatusUndecided | backend/app/main.py:132-136 | with no pass and no failure at retry 5 or more, the final status is unchanged |
| Api.FoldStatusLastDecisive | backend/app/main.py:132-136 | the final status is the verdict of the last deciding output |
| Api.FoldLogs | backend/app/main.py:89-91 | the logs are those of the last output carrying logs, or the old ones if none did |
| Api.FoldFixes | backend/app/main.py:93-104 | the fixes are the mapping of the last output carrying fixes, or the old ones if none did |
| Api.FoldTime | backend/app/main.py:84-87 | the recorded seconds are those read at the last output |
| Api.FoldKeepsIdentity | backend/app/main.py:83-136 | the fold never changes URL, team, leader, branch or scores |
| Api.ConclusionFields | backend/app/main.py:138-178 | an exception gives FAILED and one `Error: ...` line, with no scoring; otherwise scores 100/bonus/0/100+bonus (bonus 10 under 300 s) and RUNNING becomes FAILED; identity, fixes and timeline are kept |
| Api.ExecuteGraphFinished | backend/app/main.py:164-166 | without an exception the folded status stands unless it is still RUNNING, which becomes FAILED |
| Api.ExecuteGraphVerdict | backend/app/main.py:132-178 | the finished status is PASSED or FAILED; an exception gives FAILED with one error line; no deciding output gives FAILED; otherwise the last deciding output's verdict |
| Api.ExecuteGraphScore | backend/app/main.py:138-162 | the seconds are the last output's; base 100, no penalty, 10 bonus under 300 s; a run that raised keeps 100/0/0/100; the total is between 100 and 110 |
| Api.ExecuteGraphIdentity | backend/app/main.py:62-70 | the finished record names the request's URL, team, leader and the `_AI_Fix` branch |
| Api.ExecuteGraphTimeline | backend/app/main.py:111-130 | the finished timeline is exactly the stream's verdict entries, in order, all PASSED or FAILED |
| Api.Server.constructor | backend/app/main.py:25 | no runs are stored |
| Api.Server.TriggerAgent | backend/app/main.py:31-42 | the placeholder is stored under the fresh id, no other run changes, and the reply carries the id and `started` |
| Api.Server.GetStatus | backend/app/main.py:183-185 | the stored record for a known id; `not_found` (with no run summary) otherwise |
| Api.Server.MapFixes | backend/app/main.py:93-104 | the same number of fixes in the same order, each with its keys or the defaults `unknown`, `UNKNOWN`, 0, `Fix applied by AI`, `Applied` |
| Api.Server.ApplyOutput | backend/app/main.py:84-136 | the loop body leaves the record `FoldItem` specifies |
| Api.Server.AppendVerdict | backend/app/main.py:115-130 | the duplicate check and append leave the timeline `TimelineAfter` specifies |
| Api.Server.Conclude | backend/app/main.py:138-178 | the code after the loop (or the `except` branch) leaves the record `Conclusion` specifies |
| Api.Server.ExecuteGraph | backend/app/main.py:59-178 | writing the record after each output and once more at the end leaves exactly the specified record under the run id; no other run changes |
| Pipeline.InitialState | backend/app/main.py:45-57 | the agent state `execute_graph` starts the workflow from; `Pipeline.WorkflowVerdict` and `Pipeline.WorkflowTimeline` state what a run from it leaves |
| Pipeline.UpdateOf | backend/app/main.py:89-90 | the keys of a node update that the loop reads; `Pipeline.WorkflowVerdictFrom` states the record the streamed updates leave |
| Pipeline.RunStatusFromDebugger | backend/app/graph.py:21-87 | in any run, an output has a status iff it is the debugger's, and that status is `tests_passed` or `tests_failed` |
| Pipeline.DebuggerToGitManager | backend/app/graph.py:105-116 | when the router picks the git manager, a debugger run is followed by the git manager's output and END |
| Pipeline.DebuggerToFixer | backend/app/graph.py:105-116 | otherwise the fixer runs (there is a log line for it to read), a retry is used up, and the debugger runs again |
| Pipeline.VerdictCount | backend/app/main.py:111-130 | when only debugger outputs carry a status, the fold appends one timeline entry per debugger output |
| Pipeline.DebuggerLoopDecides | backend/app/main.py:83-136 | with `max_retries` 5, the stream from the debugger on decides the final status: PASSED iff the last debugger run (the one before the git manager's) passed |
| Pipeline.WorkflowDecides | backend/app/main.py:83-136 | a whole workflow stream, folded into any record, has at least three outputs and is decided by its last debugger run |
| Pipeline.WorkflowTimeline | backend/app/main.py:44-130 | a finished run's timeline has one entry per debugger run: between one and five |
| Pipeline.WorkflowVerdictFrom | backend/app/main.py:83-166 | from any start with `max_retries` 5, a run that did not raise ends PASSED iff the last test run passed, else FAILED: the RUNNING safety net never fires |
| Pipeline.WorkflowVerdict | backend/app/main.py:44-166 | the same for the state `execute_graph` starts the workflow from |

## Left out

- The legacy store fields and setters (`score`, `commits`, `fixes`, `setFixes`, `currentIteration`, `incrementIteration`, `maxIterations`, `branchName`, `iterations`, `commitCount` and their setters) are not modelled. No part of the run flow reads them, and each is a one-field update.
- Timing is not modelled: the two-second and one-second cadences, overlapping in-flight polls, and the order in which concurrent ticks resolve. A tick is one atomic `Tick` call.
- `fetch`, `response.json()` and `console.error` are replaced by their outcomes, which are supplied as arguments.
- React rendering, the effects' wiring, the scroll-to-bottom effect and CSS classes other than the status mappings are not modelled.
- The score bar's width `(displayScore / 110) * 100%` is not modelled because it is floating point.
- FastAPI routing, CORS, `BackgroundTasks` and the sharing of `runs` between concurrent tasks are not modelled. The run id (`uuid4`), the elapsed seconds and the ISO timestamps are supplied values.
- Writing `results_<id>.json`, and the `print` when that fails, are not modelled. They do not change the record.
- The `print` banners of the four nodes (`--- ANALYZER NODE ---` and the like, `graph.py` lines 22, 32, 45 and 83) are not modelled; they only write to standard output.
- The dead `commit_count = len(fixes_applied)` assignment is not modelled; only the constant 1 that overwrites it is used.
- The LangGraph runtime (`StateGraph`, `compile`, `stream`) is replaced by `Graph.Run`. `Run` emits one output per node step and merges each update by key overwrite.
- `str.upper()` and `toUpperCase()` are modelled for ASCII letters only. Other characters are left unchanged.
- Graph.LineNumber: the `line (\d+)` search and `int()` of `fixer_node` are modelled for the ASCII digits `0`-`9` only (`Graph.FindLineRef`, `Graph.DigitRun`). On a Python `str`, `\d` also matches other Unicode decimal digits, and `int()` reads them.
- RunStatus.ElapsedTimeCases: the rendered seconds are described only when `now >= startTime`. When the clock is behind the start time, `RunStatus.ElapsedTime` renders the negative whole seconds with a leading `-`, as the source does, but no lemma states that case.
- Cloning (`clone_repository`), the file-system walk, the Docker test run, the LLM fix (`generate_fix`, `apply_fix`) and the git commands are foreign calls. Their results are supplied: the walk listing, `TestRun`, `Analyzer.AnalyzerOutput`, and the failure of `RunGitAgentWith`.
- The debugger's container dispatch by language is not part of this model; `TestRun` stands for its reply.
- Api.Server.ExecuteGraph: an exception is modelled only after the last output of the stream (`raised`). A failure in the middle is the same as a stream that stops at that point and then raises. The partial writes made inside one output's processing are not distinguished.
- Api.StreamItem: the seconds read at each output are arbitrary supplied naturals. The model does not require them to increase.
- Graph.Execute: an exception raised inside a node is not modelled, except for the certain `NameError` in the git agent (`GitOps.RunGitAgent`).
- Timeline.FeedOf: the row's key, the animation classes and the exact DOM layout are not modelled.
