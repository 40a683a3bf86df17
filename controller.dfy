/**
 * The run controller of the input panel: `handleRun` validates the three
 * inputs, starts the run in the store, sends the trigger request and, when the
 * trigger succeeds, starts a recurring status poll. Network replies are method
 * arguments; each `setInterval` loop is an entry of `intervals` (the run id it
 * polls with), a timer firing is a call of `Tick`, and `clearInterval` removes
 * the entry. `trace` records, in order, the store actions and requests issued.
 */
module Controller {
  import opened Options
  import opened Schema
  import opened RunState
  import Store

  datatype TriggerBody = TriggerBody(githubUrl: string, teamName: string, leaderName: string)

  /** How the `POST /trigger-agent` exchange ended. */
  datatype TriggerOutcome =
    | TriggerThrew                             // fetch rejected, or the body was not JSON
    | TriggerRejected                          // `response.ok` was false
    | TriggerAccepted(runId: Option<string>)   // parsed body; `run_id` may be missing

  /** How one `GET /status/{id}` exchange ended. */
  datatype PollOutcome =
    | PollThrew                                // fetch rejected, or the body was not JSON
    | PollAnswered(data: Payload)

  datatype Request =
    | TriggerRequest(body: TriggerBody)
    | StatusRequest(runId: Option<string>)     // `None`: the URL ends in "undefined"

  datatype Event =
    | RunStarted(now: int)
    | Sent(request: Request)
    | StatusUpdated(status: Status)
    | RunDataApplied(data: Payload)

  /** The early-return guard of `handleRun`: all three inputs are non-empty strings. */
  predicate InputsFilled(s: StoreState) {
    s.repoUrl != "" && s.teamName != "" && s.leaderName != ""
  }

  /** The run button's `disabled` expression, negated. */
  predicate RunEnabled(s: StoreState) {
    !(s.isRunning || s.repoUrl == "" || s.teamName == "" || s.leaderName == "")
  }

  lemma RunEnabledIff(s: StoreState)
    ensures RunEnabled(s) <==> !s.isRunning && InputsFilled(s)
  {
  }

  function TriggerBodyOf(s: StoreState): TriggerBody {
    TriggerBody(s.repoUrl, s.teamName, s.leaderName)
  }

  /** The store after `handleRun` with filled inputs: started, then reset to idle unless the trigger was accepted. */
  function AfterTrigger(s: StoreState, now: int, outcome: TriggerOutcome): StoreState {
    var started := StartRun(s, now);
    if outcome.TriggerAccepted? then started else UpdateStatus(started, Idle)
  }

  function HandleRunEvents(s: StoreState, now: int, outcome: TriggerOutcome): seq<Event> {
    [RunStarted(now), Sent(TriggerRequest(TriggerBodyOf(s)))]
      + (if outcome.TriggerAccepted? then [] else [StatusUpdated(Idle)])
  }

  /** The status a poll's `final_status` moves the run to, if any. */
  function TerminalStatus(finalStatus: Option<string>): Option<Status> {
    if finalStatus == Some("PASSED") then Some(Completed)
    else if finalStatus == Some("FAILED") then Some(Failed)
    else None
  }

  function TickState(s: StoreState, outcome: PollOutcome): StoreState {
    match outcome
    case PollThrew => s
    case PollAnswered(data) =>
      var merged := SetRunData(s, data);
      var terminal := TerminalStatus(FinalStatusOf(data));
      if terminal.Some? then UpdateStatus(merged, terminal.value) else merged
  }

  /** Whether the tick clears its own interval. */
  predicate TickStops(outcome: PollOutcome) {
    outcome.PollAnswered? && TerminalStatus(FinalStatusOf(outcome.data)).Some?
  }

  function TickEvents(runId: Option<string>, outcome: PollOutcome): seq<Event> {
    [Sent(StatusRequest(runId))] +
    match outcome
    case PollThrew => []
    case PollAnswered(data) =>
      var terminal := TerminalStatus(FinalStatusOf(data));
      [RunDataApplied(data)] + (if terminal.Some? then [StatusUpdated(terminal.value)] else [])
  }

  lemma TerminalStatusCases(finalStatus: Option<string>)
    ensures TerminalStatus(finalStatus) == Some(Completed) <==> finalStatus == Some("PASSED")
    ensures TerminalStatus(finalStatus) == Some(Failed) <==> finalStatus == Some("FAILED")
    ensures TerminalStatus(finalStatus).None? <==> finalStatus != Some("PASSED") && finalStatus != Some("FAILED")
  {
  }

  /**
   * A failed trigger leaves the store idle and not running, but what `startRun`
   * cleared stays cleared: the previous run's data is not restored.
   */
  lemma TriggerFailureKeepsReset(s: StoreState, now: int, outcome: TriggerOutcome)
    requires !outcome.TriggerAccepted?
    ensures var r := AfterTrigger(s, now, outcome);
      && r.status == Idle && !r.isRunning && Consistent(r)
      && r.logs == [] && r.fixesApplied == Some([]) && r.ciCdTimeline == Some([])
      && r.runSummary == Some(RunningSummary) && r.scoreBreakdown == Some(StartingScores)
      && r.startTime == Some(now)
  {
  }

  /** The store action comes first, the request second. */
  lemma StartRunPrecedesTrigger(s: StoreState, now: int, outcome: TriggerOutcome)
    ensures var e := HandleRunEvents(s, now, outcome);
      |e| >= 2 && e[0] == RunStarted(now) && e[1].Sent? && e[1].request.TriggerRequest?
      && e[1].request.body == TriggerBody(s.repoUrl, s.teamName, s.leaderName)
  {
  }

  /** A tick that got a reply always applies it, whatever its final status. */
  lemma TickAppliesReply(s: StoreState, data: Payload, runId: Option<string>)
    ensures var r := TickState(s, PollAnswered(data));
      && r.runSummary == data.runSummary && r.scoreBreakdown == data.scoreBreakdown
      && r.fixesApplied == data.fixesApplied && r.ciCdTimeline == data.ciCdTimeline
      && r.logs == (if data.logs.Some? then data.logs.value else s.logs)
    ensures TickEvents(runId, PollAnswered(data))[0] == Sent(StatusRequest(runId))
    ensures TickEvents(runId, PollAnswered(data))[1] == RunDataApplied(data)
  {
  }

  /** PASSED completes and stops; FAILED fails and stops; anything else leaves the status alone and keeps polling. */
  lemma TickOutcomes(s: StoreState, outcome: PollOutcome)
    requires Consistent(s)
    ensures Consistent(TickState(s, outcome))
    ensures outcome.PollAnswered? && FinalStatusOf(outcome.data) == Some("PASSED") ==>
      TickState(s, outcome).status == Completed && !TickState(s, outcome).isRunning && TickStops(outcome)
    ensures outcome.PollAnswered? && FinalStatusOf(outcome.data) == Some("FAILED") ==>
      TickState(s, outcome).status == Failed && !TickState(s, outcome).isRunning && TickStops(outcome)
    ensures !TickStops(outcome) ==>
      TickState(s, outcome).status == s.status && TickState(s, outcome).isRunning == s.isRunning
    ensures outcome.PollThrew? ==> TickState(s, outcome) == s && !TickStops(outcome)
  {
  }

  class RunController {
    const store: Store.RunStore
    var intervals: seq<Option<string>>
    var trace: seq<Event>

    constructor (store: Store.RunStore)
      ensures this.store == store && intervals == [] && trace == []
    {
      this.store := store;
      intervals := [];
      trace := [];
    }

    /** `handleRun`, with `Date.now()` as `now` and the trigger exchange's outcome supplied. */
    method HandleRun(now: int, outcome: TriggerOutcome)
      requires store.Valid()
      modifies this, store
      ensures store.Valid()
      ensures !InputsFilled(old(store.Snapshot())) ==>
        store.Snapshot() == old(store.Snapshot()) && intervals == old(intervals) && trace == old(trace)
      ensures InputsFilled(old(store.Snapshot())) ==>
        && store.Snapshot() == AfterTrigger(old(store.Snapshot()), now, outcome)
        && trace == old(trace) + HandleRunEvents(old(store.Snapshot()), now, outcome)
        && intervals == old(intervals) + (if outcome.TriggerAccepted? then [outcome.runId] else [])
    {
      var s := store.Snapshot();
      if !(s.repoUrl != "" && s.teamName != "" && s.leaderName != "") {
        return;
      }
      store.StartRun(now);
      trace := trace + [RunStarted(now)];
      trace := trace + [Sent(TriggerRequest(TriggerBody(s.repoUrl, s.teamName, s.leaderName)))];
      match outcome {
        case TriggerAccepted(runId) =>
          intervals := intervals + [runId];
        case _ =>
          store.UpdateStatus(Idle);
          trace := trace + [StatusUpdated(Idle)];
      }
    }

    /** One firing of interval `k`'s timer. */
    method Tick(k: nat, outcome: PollOutcome)
      requires store.Valid() && k < |intervals|
      modifies this, store
      ensures store.Valid()
      ensures store.Snapshot() == TickState(old(store.Snapshot()), outcome)
      ensures trace == old(trace) + TickEvents(old(intervals[k]), outcome)
      ensures intervals == if TickStops(outcome) then old(intervals[..k] + intervals[k + 1..]) else old(intervals)
    {
      trace := trace + [Sent(StatusRequest(intervals[k]))];
      match outcome {
        case PollThrew =>
        case PollAnswered(data) =>
          store.SetRunData(data);
          trace := trace + [RunDataApplied(data)];
          var finalStatus := FinalStatusOf(data);
          if finalStatus == Some("PASSED") {
            store.UpdateStatus(Completed);
            trace := trace + [StatusUpdated(Completed)];
            intervals := intervals[..k] + intervals[k + 1..];
          } else if finalStatus == Some("FAILED") {
            store.UpdateStatus(Failed);
            trace := trace + [StatusUpdated(Failed)];
            intervals := intervals[..k] + intervals[k + 1..];
          }
      }
    }
  }
}
