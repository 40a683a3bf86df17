/**
 * The live feed panel: the iteration badge taken from the last timeline
 * entry, and one row per log entry, plain-string and structured entries alike.
 */
module Timeline {
  import opened Options
  import opened Schema

  /** A render either produces a value or throws (`TypeError` on an absent array). */
  datatype Rendered<T> = Shown(value: T) | Crashed

  /** `ciCdTimeline.length > 0 ? ciCdTimeline[ciCdTimeline.length - 1].iteration : "0/5"`, with no guard against an absent array. */
  function IterationDisplay(timeline: Option<seq<TimelineEntry>>): Rendered<string> {
    match timeline
    case None => Crashed
    case Some(entries) => if |entries| > 0 then Shown(entries[|entries| - 1].iteration) else Shown("0/5")
  }

  lemma IterationDisplayCases(entries: seq<TimelineEntry>, e: TimelineEntry)
    ensures IterationDisplay(None).Crashed?
    ensures IterationDisplay(Some([])) == Shown("0/5")
    ensures IterationDisplay(Some(entries + [e])) == Shown(e.iteration)
  {
  }

  /** One feed row: its small caption line (timestamp or "LOG") and its message. */
  datatype Row = Row(caption: string, message: Option<string>)

  datatype Feed = WaitingForLogs | Rows(rows: seq<Row>)

  function RowOf(entry: LogEntry): Row {
    match entry
    case TextLog(text) => Row("LOG", Some(text))
    case EntryLog(timestamp, _, message, _) => Row(timestamp, Some(message))
  }

  function FeedOf(logs: seq<LogEntry>): (f: Feed) {
    if |logs| == 0 then WaitingForLogs
    else Rows(seq(|logs|, i requires 0 <= i < |logs| => RowOf(logs[i])))
  }

  /** Only the placeholder for no logs; otherwise exactly one row per entry, in store order. */
  lemma FeedRows(logs: seq<LogEntry>)
    ensures FeedOf(logs) == WaitingForLogs <==> logs == []
    ensures logs != [] ==> |FeedOf(logs).rows| == |logs|
    ensures logs != [] ==> forall i :: 0 <= i < |logs| ==> FeedOf(logs).rows[i] == RowOf(logs[i])
  {
  }

  /** The backend's plain-string logs are shown labelled "LOG", each with its own text. */
  lemma PlainLogsShowAsLog(texts: seq<string>)
    requires texts != []
    ensures var f := FeedOf(seq(|texts|, i requires 0 <= i < |texts| => TextLog(texts[i])));
      f.Rows? && |f.rows| == |texts| &&
      forall i :: 0 <= i < |texts| ==> f.rows[i] == Row("LOG", Some(texts[i]))
  {
  }
}
