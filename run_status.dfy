/**
 * The `useRunStatus` hook: the status colour and label, the elapsed-time
 * string and the last log message, all computed from a store snapshot (and
 * the clock reading `now` standing for `Date.now()`).
 */
module RunStatus {
  import opened Options
  import opened Schema
  import opened RunState
  import Text

  /** The string value of the status union type. */
  function StatusName(s: Status): string {
    match s
    case Idle => "idle"
    case Running => "running"
    case Completed => "completed"
    case Failed => "failed"
  }

  function StatusColor(s: Status): string {
    match s
    case Completed => "text-green-500 bg-green-500/10"
    case Failed => "text-red-500 bg-red-500/10"
    case Running => "text-yellow-500 bg-yellow-500/10"
    case _ => "text-muted-foreground bg-gray-500/10"
  }

  function StatusLabel(s: Status): string {
    if s == Completed then "PASSED" else Text.Upper(StatusName(s))
  }

  lemma StatusColorFourWay(s: Status)
    ensures StatusColor(s) == "text-green-500 bg-green-500/10" <==> s == Completed
    ensures StatusColor(s) == "text-red-500 bg-red-500/10" <==> s == Failed
    ensures StatusColor(s) == "text-yellow-500 bg-yellow-500/10" <==> s == Running
    ensures StatusColor(s) == "text-muted-foreground bg-gray-500/10" <==> s == Idle
  {
  }

  lemma {:induction false} StatusLabelValues(s: Status)
    ensures StatusLabel(s) == (match s
      case Idle => "IDLE"
      case Running => "RUNNING"
      case Completed => "PASSED"
      case Failed => "FAILED")
  {
    match s
    case Idle => Text.UpperOfLower("idle", "IDLE");
    case Running => Text.UpperOfLower("running", "RUNNING");
    case Completed =>
    case Failed => Text.UpperOfLower("failed", "FAILED");
  }

  /** JavaScript truthiness of `startTime: number | null`: neither null nor 0. */
  predicate StartTimeSet(startTime: Option<int>) {
    startTime.Some? && startTime.value != 0
  }

  /** `Math.floor((now - startTime) / 1000)`. */
  function ElapsedSeconds(now: int, startTime: int): (secs: int)
    ensures 1000 * secs <= now - startTime < 1000 * (secs + 1)
    ensures now >= startTime ==> secs >= 0
  {
    (now - startTime) / 1000
  }

  function ElapsedTime(s: StoreState, now: int): string {
    if s.totalTime != "" then s.totalTime
    else if !StartTimeSet(s.startTime) || !s.isRunning then "0s"
    else Text.IntToString(ElapsedSeconds(now, s.startTime.value)) + "s"
  }

  /**
   * A finalized `totalTime` is shown as it is; without one, an unset start or a
   * stopped run shows "0s"; otherwise the string is the whole seconds since the
   * start followed by 's', and reading its digits back gives those seconds.
   */
  lemma ElapsedTimeCases(s: StoreState, now: int)
    ensures s.totalTime != "" ==> ElapsedTime(s, now) == s.totalTime
    ensures s.totalTime == "" && (!StartTimeSet(s.startTime) || !s.isRunning) ==> ElapsedTime(s, now) == "0s"
    ensures s.totalTime == "" && StartTimeSet(s.startTime) && s.isRunning && now >= s.startTime.value ==>
      var r := ElapsedTime(s, now);
      && |r| >= 2 && r[|r| - 1] == 's' && Text.AllDigits(r[..|r| - 1])
      && 1000 * Text.DigitsValue(r[..|r| - 1]) <= now - s.startTime.value < 1000 * (Text.DigitsValue(r[..|r| - 1]) + 1)
  {
    if s.totalTime == "" && StartTimeSet(s.startTime) && s.isRunning && now >= s.startTime.value {
      var secs := ElapsedSeconds(now, s.startTime.value);
      var r := ElapsedTime(s, now);
      assert r == Text.NatToString(secs) + "s";
      assert r[..|r| - 1] == Text.NatToString(secs);
      Text.DigitsRoundTrip(secs);
    }
  }

  /**
   * `logs[logs.length - 1].message`: a structured entry's message; a plain
   * string entry (what the backend sends) has no `message`, giving `undefined`.
   */
  function LastLogMessage(logs: seq<LogEntry>): Option<string> {
    if |logs| == 0 then Some("Initializing...")
    else match logs[|logs| - 1]
      case EntryLog(_, _, message, _) => Some(message)
      case TextLog(_) => None
  }

  lemma LastLogMessageCases(logs: seq<LogEntry>, e: LogEntry)
    ensures LastLogMessage([]) == Some("Initializing...")
    ensures e.EntryLog? ==> LastLogMessage(logs + [e]) == Some(e.message)
    ensures e.TextLog? ==> LastLogMessage(logs + [e]).None?
  {
  }
}
