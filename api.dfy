/**
 * The backend service: `trigger_agent` stores a placeholder under a fresh run
 * id and schedules `execute_graph`; `execute_graph` builds the run record and
 * folds every workflow output into it, then scores the run; `get_status`
 * returns the stored record. The run id, the elapsed seconds and the
 * timestamps are supplied values, and the workflow's stream is a sequence of
 * node updates, optionally ended by the message of an exception it raised.
 */
module Api {
  import opened Options
  import opened Schema
  import Text
  import GitOps

  datatype RunRequest = RunRequest(githubUrl: string, teamName: string, leaderName: string)

  datatype SummaryRecord = SummaryRecord(
    repositoryUrl: string,
    teamName: string,
    leaderName: string,
    branchCreated: string,
    finalStatus: string,
    totalTimeSeconds: int)

  datatype ScoreRecord = ScoreRecord(baseScore: int, speedBonus: int, efficiencyPenalty: int, finalTotalScore: int)

  datatype RunRecord =
    | Placeholder   // {"run_summary": {"final_status": "STARTING"}, "logs": []}
    | Record(summary: SummaryRecord, scores: ScoreRecord, fixesApplied: seq<FixRecord>,
             timeline: seq<TimelineEntry>, logs: seq<string>)

  datatype TriggerReply = TriggerReply(runId: string, status: string)

  datatype StatusReply = Found(record: RunRecord) | NotFound

  function TextLogs(logs: seq<string>): (r: seq<LogEntry>)
    ensures |r| == |logs| && forall i :: 0 <= i < |logs| ==> r[i] == TextLog(logs[i])
  {
    seq(|logs|, i requires 0 <= i < |logs| => TextLog(logs[i]))
  }

  /** The JSON body of a `get_status` reply, as the dashboard parses it. */
  function Json(reply: StatusReply): Payload {
    match reply
    case NotFound => Payload(None, None, None, None, None)
    case Found(Placeholder) =>
      Payload(Some(Summary(None, None, None, None, Some("STARTING"), None)), None, None, None, Some([]))
    case Found(Record(summary, scores, fixes, timeline, logs)) =>
      Payload(
        Some(Summary(Some(summary.repositoryUrl), Some(summary.teamName), Some(summary.leaderName),
                     Some(summary.branchCreated), Some(summary.finalStatus), Some(summary.totalTimeSeconds))),
        Some(Scores(Some(scores.baseScore), Some(scores.speedBonus), Some(scores.efficiencyPenalty),
                    Some(scores.finalTotalScore))),
        Some(fixes), Some(timeline), Some(TextLogs(logs)))
  }

  /** Only a full record carries the score, fixes and timeline keys; every record carries logs. */
  lemma JsonKeys(reply: StatusReply)
    ensures var p := Json(reply);
      && (p.scoreBreakdown.Some? <==> reply.Found? && reply.record.Record?)
      && (p.fixesApplied.Some? <==> reply.Found? && reply.record.Record?)
      && (p.ciCdTimeline.Some? <==> reply.Found? && reply.record.Record?)
      && (p.logs.Some? <==> reply.Found?)
      && (reply.Found? <==> FinalStatusOf(p).Some?)
      && (reply.Found? && reply.record.Placeholder? ==> FinalStatusOf(p) == Some("STARTING"))
      && (reply.Found? && reply.record.Record? ==> FinalStatusOf(p) == Some(reply.record.summary.finalStatus))
  {
  }

  /** One fix as a workflow node reports it; any key may be missing. */
  datatype RawFix = RawFix(file: Option<string>, errorType: Option<string>, line: Option<int>,
                           message: Option<string>, status: Option<string>)

  /** The keys of one streamed node update that `execute_graph` looks at. */
  datatype NodeUpdate = NodeUpdate(logs: Option<seq<string>>, fixes: Option<seq<RawFix>>,
                                   status: Option<string>, currentRetry: Option<int>)

  /** A streamed output with the whole seconds elapsed and the ISO timestamp read when it arrived. */
  datatype StreamItem = StreamItem(update: NodeUpdate, seconds: nat, timestamp: string)

  const MaxRetries: int := 5

  /** `main.py`'s branch name: the same shape as the git agent's, with the suffix "_AI_Fix". */
  function BranchCreated(team: string, leader: string): string {
    GitOps.BranchWithSuffix(team, leader, "_AI_Fix")
  }

  /** The record names a branch the git agent would never create: the suffixes differ in case. */
  lemma BranchNamesDisagree(team: string, leader: string)
    ensures BranchCreated(team, leader) != GitOps.CreateBranchName(team, leader)
    ensures |BranchCreated(team, leader)| == |GitOps.CreateBranchName(team, leader)|
  {
    assert "_AI_Fix"[5] == 'i' && "_AI_FIX"[5] == 'I';
    GitOps.SuffixesDiffer(team, leader, "_AI_Fix", "_AI_FIX", 5);
  }

  function InitialRecord(req: RunRequest): (r: RunRecord)
    ensures r.Record?
  {
    Record(
      SummaryRecord(req.githubUrl, req.teamName, req.leaderName, BranchCreated(req.teamName, req.leaderName), "RUNNING", 0),
      ScoreRecord(100, 0, 0, 100), [], [], [])
  }

  /** One entry of `fixes_applied`, with the defaults for missing keys. */
  function MapFix(f: RawFix): FixRecord {
    FixRecord(f.file.GetOr("unknown"), f.errorType.GetOr("UNKNOWN"), f.line.GetOr(0),
              f.message.GetOr("Fix applied by AI"), f.status.GetOr("Applied"))
  }

  function MapFixesSpec(fixes: seq<RawFix>): seq<FixRecord> {
    seq(|fixes|, i requires 0 <= i < |fixes| => MapFix(fixes[i]))
  }

  function IterationLabel(retry: int): string {
    Text.IntToString(retry) + "/" + Text.IntToString(MaxRetries)
  }

  predicate CountsAsPass(status: string) {
    status in ["tests_passed", "success"]
  }

  predicate IsTestVerdict(status: string) {
    status in ["tests_passed", "tests_failed", "success"]
  }

  /** The timeline after a node status: the duplicate check as written, then the append. */
  function TimelineAfter(timeline: seq<TimelineEntry>, iteration: string, status: string, timestamp: string): seq<TimelineEntry> {
    var duplicate := |timeline| > 0 && timeline[|timeline| - 1].iteration == iteration
                     && timeline[|timeline| - 1].status == status;
    if !duplicate && IsTestVerdict(status) then
      timeline + [TimelineEntry(iteration, if CountsAsPass(status) then "PASSED" else "FAILED", timestamp)]
    else timeline
  }

  function FinalStatusAfter(current: string, status: string, retry: int): string {
    if CountsAsPass(status) then "PASSED"
    else if status == "tests_failed" && retry >= 5 then "FAILED"
    else current
  }

  /** What one streamed output does to the record. */
  function FoldItem(rec: RunRecord, item: StreamItem): (r: RunRecord)
    requires rec.Record?
    ensures r.Record?
  {
    var u := item.update;
    var timed := rec.(summary := rec.summary.(totalTimeSeconds := item.seconds));
    var logged := if u.logs.Some? then timed.(logs := u.logs.value) else timed;
    var fixed := if u.fixes.Some? then logged.(fixesApplied := MapFixesSpec(u.fixes.value)) else logged;
    if u.status.Some? then
      var retry := u.currentRetry.GetOr(0);
      fixed.(timeline := TimelineAfter(fixed.timeline, IterationLabel(retry), u.status.value, item.timestamp),
             summary := fixed.summary.(finalStatus := FinalStatusAfter(fixed.summary.finalStatus, u.status.value, retry)))
    else fixed
  }

  /** The record after the outputs `items`, folded in order. */
  function FoldStream(rec: RunRecord, items: seq<StreamItem>): (r: RunRecord)
    requires rec.Record?
    ensures r.Record?
  {
    if items == [] then rec else FoldItem(FoldStream(rec, items[..|items| - 1]), items[|items| - 1])
  }

  /** Folding two stretches of the stream one after the other is folding them together. */
  lemma {:induction false} FoldStreamAppend(rec: RunRecord, a: seq<StreamItem>, b: seq<StreamItem>)
    requires rec.Record?
    ensures FoldStream(rec, a + b) == FoldStream(FoldStream(rec, a), b)
  {
    if b == [] {
      assert a + b == a;
    } else {
      var n := |b| - 1;
      FoldStreamAppend(rec, a, b[..n]);
      assert (a + b)[..|a + b| - 1] == a + b[..n];
    }
  }

  lemma FoldStreamStep(init: RunRecord, stream: seq<StreamItem>, i: nat)
    requires init.Record? && 0 < i <= |stream|
    ensures FoldStream(init, stream[..i]) == FoldItem(FoldStream(init, stream[..i - 1]), stream[i - 1])
  {
    assert stream[..i][..i - 1] == stream[..i - 1];
  }

  lemma OverwriteKey(m: map<string, RunRecord>, k: string, a: RunRecord, b: RunRecord)
    ensures m[k := a][k := b] == m[k := b]
  {
  }

  function ScoreFor(duration: int, commitCount: int): ScoreRecord {
    var speedBonus := if duration < 300 then 10 else 0;
    var penalty := if commitCount > 20 then (commitCount - 20) * 2 else 0;
    ScoreRecord(100, speedBonus, penalty, 100 + speedBonus - penalty)
  }

  /** The commit count the scoring uses: the fix count is computed, then overwritten by 1. */
  const CommitCount: int := 1

  /** Scoring, then the safety net that turns a run still marked RUNNING into FAILED. */
  function Finish(rec: RunRecord): RunRecord
    requires rec.Record?
  {
    var scored := rec.(scores := ScoreFor(rec.summary.totalTimeSeconds, CommitCount));
    if scored.summary.finalStatus == "RUNNING" then scored.(summary := scored.summary.(finalStatus := "FAILED"))
    else scored
  }

  /** The `except` branch: FAILED and one error line; no scoring. */
  function Abort(rec: RunRecord, message: string): RunRecord
    requires rec.Record?
  {
    rec.(summary := rec.summary.(finalStatus := "FAILED"), logs := rec.logs + ["Error: " + message])
  }

  /** What happens after the stream: the `except` branch if it raised, else scoring and the safety net. */
  function Conclusion(rec: RunRecord, raised: Option<string>): (r: RunRecord)
    requires rec.Record?
    ensures r.Record?
  {
    if raised.Some? then Abort(rec, raised.value) else Finish(rec)
  }

  /** The record `execute_graph` leaves behind for a request, its stream and the exception it raised, if any. */
  function ExecuteGraphResult(req: RunRequest, stream: seq<StreamItem>, raised: Option<string>): (r: RunRecord)
    ensures r.Record?
  {
    Conclusion(FoldStream(InitialRecord(req), stream), raised)
  }

  /** Every timeline entry records a verdict. */
  predicate VerdictsOnly(timeline: seq<TimelineEntry>) {
    forall i :: 0 <= i < |timeline| ==> timeline[i].status == "PASSED" || timeline[i].status == "FAILED"
  }

  /** The entry a test verdict adds to the timeline. */
  function VerdictEntry(item: StreamItem): TimelineEntry
    requires item.update.status.Some?
  {
    var status := item.update.status.value;
    TimelineEntry(IterationLabel(item.update.currentRetry.GetOr(0)), if CountsAsPass(status) then "PASSED" else "FAILED",
                  item.timestamp)
  }

  predicate RecordsVerdict(item: StreamItem) {
    item.update.status.Some? && IsTestVerdict(item.update.status.value)
  }

  /** The entries one output adds: its verdict entry if it reports a test verdict, else none. */
  function VerdictOf(item: StreamItem): seq<TimelineEntry> {
    if RecordsVerdict(item) then [VerdictEntry(item)] else []
  }

  /** One entry per output whose status is a test verdict, in stream order, with no duplicate check. */
  function VerdictEntries(items: seq<StreamItem>): (r: seq<TimelineEntry>)
    ensures |r| <= |items|
  {
    if items == [] then [] else VerdictEntries(items[..|items| - 1]) + VerdictOf(items[|items| - 1])
  }

  /**
   * The duplicate check compares the stored verdict ("PASSED"/"FAILED") with
   * the node's raw status, so on a timeline of verdicts it never suppresses
   * an entry: a test verdict is always appended, anything else never.
   */
  lemma TimelineAppendsVerdict(timeline: seq<TimelineEntry>, item: StreamItem)
    requires VerdictsOnly(timeline) && item.update.status.Some?
    ensures var t := TimelineAfter(timeline, IterationLabel(item.update.currentRetry.GetOr(0)),
                                   item.update.status.value, item.timestamp);
      t == timeline + VerdictOf(item)
  {
    if |timeline| > 0 {
      var last := timeline[|timeline| - 1];
      assert last.status == "PASSED" || last.status == "FAILED";
    }
  }

  /** Every entry the verdicts of a stream produce is PASSED or FAILED. */
  lemma {:induction false} VerdictEntriesAreVerdicts(items: seq<StreamItem>)
    ensures VerdictsOnly(VerdictEntries(items))
  {
    if items != [] {
      var n := |items| - 1;
      VerdictEntriesAreVerdicts(items[..n]);
      var before := VerdictEntries(items[..n]);
      var t := VerdictEntries(items);
      assert t == before + VerdictOf(items[n]);
      forall i | 0 <= i < |t|
        ensures t[i].status == "PASSED" || t[i].status == "FAILED"
      {
        if i < |before| {
          assert t[i] == before[i];
        }
      }
    }
  }

  lemma VerdictsOnlyAppend(a: seq<TimelineEntry>, b: seq<TimelineEntry>)
    requires VerdictsOnly(a) && VerdictsOnly(b)
    ensures VerdictsOnly(a + b)
  {
    forall i | 0 <= i < |a + b|
      ensures (a + b)[i].status == "PASSED" || (a + b)[i].status == "FAILED"
    {
      if i >= |a| {
        assert (a + b)[i] == b[i - |a|];
      }
    }
  }

  /** Folding outputs appends exactly their verdict entries to the timeline. */
  lemma {:induction false} FoldTimeline(rec: RunRecord, items: seq<StreamItem>)
    requires rec.Record? && VerdictsOnly(rec.timeline)
    ensures FoldStream(rec, items).timeline == rec.timeline + VerdictEntries(items)
  {
    if items != [] {
      var n := |items| - 1;
      var prefix := items[..n];
      var last := items[n];
      FoldTimeline(rec, prefix);
      var before := FoldStream(rec, prefix);
      VerdictEntriesAreVerdicts(prefix);
      VerdictsOnlyAppend(rec.timeline, VerdictEntries(prefix));
      assert FoldStream(rec, items) == FoldItem(before, last);
      FoldItemFields(before, last);
      if last.update.status.Some? {
        TimelineAppendsVerdict(before.timeline, last);
      }
      assert VerdictEntries(items) == VerdictEntries(prefix) + VerdictOf(last);
      assert (rec.timeline + VerdictEntries(prefix)) + VerdictOf(last)
          == rec.timeline + (VerdictEntries(prefix) + VerdictOf(last));
    }
  }

  /** The output at `i` sets the final status: a pass, or a failure at retry 5 or later. */
  predicate Decides(items: seq<StreamItem>, i: int)
    requires 0 <= i < |items|
  {
    var u := items[i].update;
    u.status.Some? && (CountsAsPass(u.status.value) || (u.status.value == "tests_failed" && u.currentRetry.GetOr(0) >= 5))
  }

  /** The output at `k` is the last one that sets the final status. */
  predicate LastDecisive(items: seq<StreamItem>, k: int) {
    0 <= k < |items| && Decides(items, k) && forall j :: k < j < |items| ==> !Decides(items, j)
  }

  /** What one output does to each field of the record. */
  lemma FoldItemFields(rec: RunRecord, item: StreamItem)
    requires rec.Record?
    ensures var r := FoldItem(rec, item);
      var u := item.update;
      && r.summary.finalStatus == (if u.status.Some? then FinalStatusAfter(rec.summary.finalStatus, u.status.value, u.currentRetry.GetOr(0))
                                   else rec.summary.finalStatus)
      && r.logs == u.logs.GetOr(rec.logs)
      && r.fixesApplied == (if u.fixes.Some? then MapFixesSpec(u.fixes.value) else rec.fixesApplied)
      && r.summary.totalTimeSeconds == item.seconds
      && r.timeline == (if u.status.Some? then TimelineAfter(rec.timeline, IterationLabel(u.currentRetry.GetOr(0)), u.status.value, item.timestamp)
                        else rec.timeline)
      && r.summary.(finalStatus := "", totalTimeSeconds := 0) == rec.summary.(finalStatus := "", totalTimeSeconds := 0)
      && r.scores == rec.scores
  {
  }

  /** The fold only ever sets the final status to PASSED or FAILED. */
  lemma {:induction false} FoldStatusRange(rec: RunRecord, items: seq<StreamItem>)
    requires rec.Record?
    ensures var st := FoldStream(rec, items).summary.finalStatus;
      st == rec.summary.finalStatus || st == "PASSED" || st == "FAILED"
  {
    if items != [] {
      var n := |items| - 1;
      FoldStatusRange(rec, items[..n]);
      FoldItemFields(FoldStream(rec, items[..n]), items[n]);
    }
  }

  /** Without a deciding output the final status stays as first stored. */
  lemma {:induction false} FoldStatusUndecided(rec: RunRecord, items: seq<StreamItem>)
    requires rec.Record?
    requires forall i :: 0 <= i < |items| ==> !Decides(items, i)
    ensures FoldStream(rec, items).summary.finalStatus == rec.summary.finalStatus
  {
    if items != [] {
      var n := |items| - 1;
      var prefix := items[..n];
      forall i | 0 <= i < n
        ensures !Decides(prefix, i)
      {
        assert prefix[i] == items[i];
        assert !Decides(items, i);
      }
      FoldStatusUndecided(rec, prefix);
      assert !Decides(items, n);
      FoldItemFields(FoldStream(rec, prefix), items[n]);
    }
  }

  /** The final status is the verdict of the last deciding output. */
  lemma {:induction false} FoldStatusLastDecisive(rec: RunRecord, items: seq<StreamItem>, k: int)
    requires rec.Record? && LastDecisive(items, k)
    ensures FoldStream(rec, items).summary.finalStatus == if CountsAsPass(items[k].update.status.value) then "PASSED" else "FAILED"
  {
    var n := |items| - 1;
    var prefix := items[..n];
    FoldItemFields(FoldStream(rec, prefix), items[n]);
    if k < n {
      LastDecisiveInPrefix(items, k);
      FoldStatusLastDecisive(rec, prefix, k);
    }
  }

  lemma LastDecisiveInPrefix(items: seq<StreamItem>, k: int)
    requires LastDecisive(items, k) && k < |items| - 1
    ensures LastDecisive(items[..|items| - 1], k) && !Decides(items, |items| - 1)
    ensures items[..|items| - 1][k] == items[k]
  {
    var prefix := items[..|items| - 1];
    forall j | k < j < |prefix|
      ensures !Decides(prefix, j)
    {
      assert prefix[j] == items[j];
      assert !Decides(items, j);
    }
  }

  /** The output at `k` is the last one carrying `logs`. */
  predicate LastLogsAt(items: seq<StreamItem>, k: int) {
    0 <= k < |items| && items[k].update.logs.Some? && forall j :: k < j < |items| ==> items[j].update.logs.None?
  }

  /** The output at `k` is the last one carrying `fixes`. */
  predicate LastFixesAt(items: seq<StreamItem>, k: int) {
    0 <= k < |items| && items[k].update.fixes.Some? && forall j :: k < j < |items| ==> items[j].update.fixes.None?
  }

  /** The logs after the fold are those of the last output that carried logs. */
  lemma {:induction false} FoldLogs(rec: RunRecord, items: seq<StreamItem>)
    requires rec.Record?
    ensures var r := FoldStream(rec, items);
      && ((forall i :: 0 <= i < |items| ==> items[i].update.logs.None?) ==> r.logs == rec.logs)
      && (forall k :: LastLogsAt(items, k) ==> r.logs == items[k].update.logs.value)
  {
    if items != [] {
      var n := |items| - 1;
      var prefix := items[..n];
      var before := FoldStream(rec, prefix);
      var r := FoldStream(rec, items);
      FoldLogs(rec, prefix);
      assert r == FoldItem(before, items[n]);
      FoldItemFields(before, items[n]);
      forall k | LastLogsAt(items, k)
        ensures r.logs == items[k].update.logs.value
      {
        if k < n {
          assert items[n].update.logs.None?;
          assert prefix[k] == items[k];
          forall j | k < j < n
            ensures prefix[j].update.logs.None?
          {
            assert prefix[j] == items[j];
          }
          assert LastLogsAt(prefix, k);
        }
      }
      if forall i :: 0 <= i < |items| ==> items[i].update.logs.None? {
        assert items[n].update.logs.None?;
        forall i | 0 <= i < n
          ensures prefix[i].update.logs.None?
        {
          assert prefix[i] == items[i];
        }
      }
    }
  }


  /** The fixes after the fold are those of the last output that carried fixes, mapped. */
  lemma {:induction false} FoldFixes(rec: RunRecord, items: seq<StreamItem>)
    requires rec.Record?
    ensures var r := FoldStream(rec, items);
      && ((forall i :: 0 <= i < |items| ==> items[i].update.fixes.None?) ==> r.fixesApplied == rec.fixesApplied)
      && (forall k :: LastFixesAt(items, k) ==> r.fixesApplied == MapFixesSpec(items[k].update.fixes.value))
  {
    if items != [] {
      var n := |items| - 1;
      var prefix := items[..n];
      var before := FoldStream(rec, prefix);
      var r := FoldStream(rec, items);
      FoldFixes(rec, prefix);
      assert r == FoldItem(before, items[n]);
      FoldItemFields(before, items[n]);
      forall k | LastFixesAt(items, k)
        ensures r.fixesApplied == MapFixesSpec(items[k].update.fixes.value)
      {
        if k < n {
          assert items[n].update.fixes.None?;
          assert prefix[k] == items[k];
          forall j | k < j < n
            ensures prefix[j].update.fixes.None?
          {
            assert prefix[j] == items[j];
          }
          assert LastFixesAt(prefix, k);
        }
      }
      if forall i :: 0 <= i < |items| ==> items[i].update.fixes.None? {
        assert items[n].update.fixes.None?;
        forall i | 0 <= i < n
          ensures prefix[i].update.fixes.None?
        {
          assert prefix[i] == items[i];
        }
      }
    }
  }


  /** The recorded duration is the one read at the last output. */
  lemma FoldTime(rec: RunRecord, items: seq<StreamItem>)
    requires rec.Record?
    ensures FoldStream(rec, items).summary.totalTimeSeconds
            == if items == [] then rec.summary.totalTimeSeconds else items[|items| - 1].seconds
  {
    if items != [] {
      var n := |items| - 1;
      assert FoldStream(rec, items) == FoldItem(FoldStream(rec, items[..n]), items[n]);
      FoldItemFields(FoldStream(rec, items[..n]), items[n]);
    }
  }

  /** The fold never touches the run's identity: URL, team, leader and branch stay as first stored. */
  lemma {:induction false} FoldKeepsIdentity(rec: RunRecord, items: seq<StreamItem>)
    requires rec.Record?
    ensures var r := FoldStream(rec, items);
      && r.summary.repositoryUrl == rec.summary.repositoryUrl && r.summary.teamName == rec.summary.teamName
      && r.summary.leaderName == rec.summary.leaderName && r.summary.branchCreated == rec.summary.branchCreated
      && r.scores == rec.scores
  {
    if items != [] {
      FoldKeepsIdentity(rec, items[..|items| - 1]);
    }
  }

  /**
   * Concluding a run: an exception marks it FAILED and appends one error
   * line, without scoring; otherwise it is scored (base 100, no penalty for
   * the single counted commit, 10 points under 300 seconds) and a status
   * still RUNNING becomes FAILED. Identity, fixes and timeline are kept.
   */
  lemma ConclusionFields(rec: RunRecord, raised: Option<string>)
    requires rec.Record?
    ensures var r := Conclusion(rec, raised);
      var st := rec.summary.finalStatus;
      var bonus := if rec.summary.totalTimeSeconds < 300 then 10 else 0;
      && r.Record?
      && r.summary.(finalStatus := "") == rec.summary.(finalStatus := "")
      && r.timeline == rec.timeline && r.fixesApplied == rec.fixesApplied
      && (raised.Some? ==> r.summary.finalStatus == "FAILED" && r.logs == rec.logs + ["Error: " + raised.value]
                           && r.scores == rec.scores)
      && (raised.None? ==> r.summary.finalStatus == (if st == "RUNNING" then "FAILED" else st) && r.logs == rec.logs
                           && r.scores == ScoreRecord(100, bonus, 0, 100 + bonus))
  {
  }

  /** The record `execute_graph` first stores: RUNNING, no time, the 100-point breakdown, empty lists. */
  lemma InitialRecordFields(req: RunRequest)
    ensures var r := InitialRecord(req);
      && r.Record?
      && r.summary == SummaryRecord(req.githubUrl, req.teamName, req.leaderName,
                                    BranchCreated(req.teamName, req.leaderName), "RUNNING", 0)
      && r.scores == ScoreRecord(100, 0, 0, 100)
      && r.fixesApplied == [] && r.timeline == [] && r.logs == []
  {
  }

  /** The finished record is the conclusion of the fold from the initial record. */
  lemma ExecuteGraphUnfold(req: RunRequest, stream: seq<StreamItem>, raised: Option<string>)
    ensures InitialRecord(req).Record?
    ensures ExecuteGraphResult(req, stream, raised) == Conclusion(FoldStream(InitialRecord(req), stream), raised)
  {
  }

  /** Without an exception the folded status stands, unless it is still RUNNING. */
  lemma ExecuteGraphFinished(req: RunRequest, stream: seq<StreamItem>)
    ensures var st := FoldStream(InitialRecord(req), stream).summary.finalStatus;
      ExecuteGraphResult(req, stream, None).summary.finalStatus == if st == "RUNNING" then "FAILED" else st
  {
    ExecuteGraphUnfold(req, stream, None);
    ConclusionFields(FoldStream(InitialRecord(req), stream), None);
  }

  /**
   * A finished run is PASSED or FAILED, never still RUNNING: PASSED exactly
   * when the last deciding output was a pass. A raised exception marks the
   * run FAILED and appends one error line to the logs.
   */
  lemma ExecuteGraphVerdict(req: RunRequest, stream: seq<StreamItem>, raised: Option<string>)
    ensures var r := ExecuteGraphResult(req, stream, raised);
      && r.Record?
      && (r.summary.finalStatus == "PASSED" || r.summary.finalStatus == "FAILED")
      && (raised.Some? ==> r.summary.finalStatus == "FAILED"
                           && r.logs == FoldStream(InitialRecord(req), stream).logs + ["Error: " + raised.value])
      && ((forall i :: 0 <= i < |stream| ==> !Decides(stream, i)) ==> r.summary.finalStatus == "FAILED")
      && (raised.None? ==> forall k :: LastDecisive(stream, k) ==>
            r.summary.finalStatus == if CountsAsPass(stream[k].update.status.value) then "PASSED" else "FAILED")
  {
    var init := InitialRecord(req);
    InitialRecordFields(req);
    ExecuteGraphUnfold(req, stream, raised);
    var folded := FoldStream(init, stream);
    ConclusionFields(folded, raised);
    FoldStatusRange(init, stream);
    if forall i :: 0 <= i < |stream| ==> !Decides(stream, i) {
      FoldStatusUndecided(init, stream);
    }
    forall k | LastDecisive(stream, k)
      ensures folded.summary.finalStatus == if CountsAsPass(stream[k].update.status.value) then "PASSED" else "FAILED"
    {
      FoldStatusLastDecisive(init, stream, k);
    }
  }

  /**
   * Scoring: base 100, no efficiency penalty (one commit is counted), and a
   * 10-point bonus when the last recorded duration is under 300 seconds; a
   * run that raised keeps the initial 100-point breakdown.
   */
  lemma ExecuteGraphScore(req: RunRequest, stream: seq<StreamItem>, raised: Option<string>)
    ensures var r := ExecuteGraphResult(req, stream, raised);
      var duration := if stream == [] then 0 else stream[|stream| - 1].seconds;
      var bonus := if duration < 300 then 10 else 0;
      && r.Record?
      && r.summary.totalTimeSeconds == duration
      && (raised.None? ==> r.scores == ScoreRecord(100, bonus, 0, 100 + bonus))
      && (raised.Some? ==> r.scores == ScoreRecord(100, 0, 0, 100))
      && 100 <= r.scores.finalTotalScore <= 110
  {
    var init := InitialRecord(req);
    InitialRecordFields(req);
    ExecuteGraphUnfold(req, stream, raised);
    var folded := FoldStream(init, stream);
    FoldTime(init, stream);
    FoldKeepsIdentity(init, stream);
    ConclusionFields(folded, raised);
  }

  /** The finished record names the request's repository, team, leader and the "_AI_Fix" branch. */
  lemma ExecuteGraphIdentity(req: RunRequest, stream: seq<StreamItem>, raised: Option<string>)
    ensures var r := ExecuteGraphResult(req, stream, raised);
      && r.Record?
      && r.summary.repositoryUrl == req.githubUrl && r.summary.teamName == req.teamName
      && r.summary.leaderName == req.leaderName && r.summary.branchCreated == BranchCreated(req.teamName, req.leaderName)
  {
    var init := InitialRecord(req);
    InitialRecordFields(req);
    ExecuteGraphUnfold(req, stream, raised);
    FoldKeepsIdentity(init, stream);
    ConclusionFields(FoldStream(init, stream), raised);
  }

  /** The finished timeline holds one entry per test verdict in the stream, in order, each PASSED or FAILED. */
  lemma ExecuteGraphTimeline(req: RunRequest, stream: seq<StreamItem>, raised: Option<string>)
    ensures var r := ExecuteGraphResult(req, stream, raised);
      r.Record? && r.timeline == VerdictEntries(stream) && VerdictsOnly(r.timeline)
  {
    var init := InitialRecord(req);
    InitialRecordFields(req);
    ExecuteGraphUnfold(req, stream, raised);
    FoldTimeline(init, stream);
    VerdictEntriesAreVerdicts(stream);
    assert [] + VerdictEntries(stream) == VerdictEntries(stream);
    ConclusionFields(FoldStream(init, stream), raised);
  }

  class Server {
    var runs: map<string, RunRecord>

    constructor ()
      ensures runs == map[]
    {
      runs := map[];
    }

    /** `trigger_agent` with its fresh id supplied; the background task is the separate `ExecuteGraph` call. */
    method TriggerAgent(runId: string, req: RunRequest) returns (reply: TriggerReply)
      modifies this
      ensures runs == old(runs)[runId := Placeholder]
      ensures reply == TriggerReply(runId, "started")
    {
      runs := runs[runId := Placeholder];
      reply := TriggerReply(runId, "started");
    }

    method GetStatus(runId: string) returns (reply: StatusReply)
      ensures runId in runs ==> reply == Found(runs[runId])
      ensures runId !in runs ==> reply == NotFound && Json(reply).runSummary.None?
    {
      if runId in runs {
        reply := Found(runs[runId]);
      } else {
        reply := NotFound;
      }
    }

    /** The mapping loop over a node's `fixes`. */
    static method MapFixes(fixes: seq<RawFix>) returns (mapped: seq<FixRecord>)
      ensures |mapped| == |fixes|
      ensures forall i :: 0 <= i < |fixes| ==> mapped[i] == MapFix(fixes[i])
    {
      mapped := [];
      for i := 0 to |fixes|
        invariant |mapped| == i
        invariant forall j :: 0 <= j < i ==> mapped[j] == MapFix(fixes[j])
      {
        var f := fixes[i];
        mapped := mapped + [FixRecord(f.file.GetOr("unknown"), f.errorType.GetOr("UNKNOWN"), f.line.GetOr(0),
                                      f.message.GetOr("Fix applied by AI"), f.status.GetOr("Applied"))];
      }
    }

    /** The body of the `for output in ...` loop: one streamed output applied to the record. */
    static method ApplyOutput(rec: RunRecord, item: StreamItem) returns (r: RunRecord)
      requires rec.Record?
      ensures r == FoldItem(rec, item)
    {
      r := rec.(summary := rec.summary.(totalTimeSeconds := item.seconds));
      var value := item.update;
      if value.logs.Some? {
        r := r.(logs := value.logs.value);
      }
      if value.fixes.Some? {
        var mapped := MapFixes(value.fixes.value);
        r := r.(fixesApplied := mapped);
      }
      if value.status.Some? {
        var currentStatus := value.status.value;
        var retry := value.currentRetry.GetOr(0);
        var iteration := Text.IntToString(retry) + "/" + Text.IntToString(MaxRetries);
        var timeline := AppendVerdict(r.timeline, iteration, currentStatus, item.timestamp);
        r := r.(timeline := timeline);
        if currentStatus in ["tests_passed", "success"] {
          r := r.(summary := r.summary.(finalStatus := "PASSED"));
        } else if currentStatus == "tests_failed" && retry >= 5 {
          r := r.(summary := r.summary.(finalStatus := "FAILED"));
        }
      }
    }

    /** The duplicate check and the timeline append. */
    static method AppendVerdict(timeline: seq<TimelineEntry>, iteration: string, currentStatus: string, timestamp: string)
      returns (r: seq<TimelineEntry>)
      ensures r == TimelineAfter(timeline, iteration, currentStatus, timestamp)
    {
      r := timeline;
      var shouldAdd := true;
      if |r| > 0 {
        var last := r[|r| - 1];
        if last.iteration == iteration && last.status == currentStatus {
          shouldAdd := false;
        }
      }
      if shouldAdd && currentStatus in ["tests_passed", "tests_failed", "success"] {
        var entryStatus := if currentStatus in ["tests_passed", "success"] then "PASSED" else "FAILED";
        r := r + [TimelineEntry(iteration, entryStatus, timestamp)];
      }
    }

    /** After the loop: scoring and the RUNNING safety net, or the `except` branch. */
    static method Conclude(rec: RunRecord, raised: Option<string>) returns (r: RunRecord)
      requires rec.Record?
      ensures r == Conclusion(rec, raised)
    {
      r := rec;
      if raised.Some? {
        r := r.(summary := r.summary.(finalStatus := "FAILED"), logs := r.logs + ["Error: " + raised.value]);
      } else {
        var duration := r.summary.totalTimeSeconds;
        var commitCount := 1;
        var score := 100;
        var speedBonus := if duration < 300 then 10 else 0;
        var efficiencyPenalty := 0;
        if commitCount > 20 {
          efficiencyPenalty := (commitCount - 20) * 2;
        }
        var finalScore := score + speedBonus - efficiencyPenalty;
        r := r.(scores := ScoreRecord(100, speedBonus, efficiencyPenalty, finalScore));
        if r.summary.finalStatus == "RUNNING" {
          r := r.(summary := r.summary.(finalStatus := "FAILED"));
        }
      }
    }

    /**
     * `execute_graph` for run `runId`: the initial record is stored, then
     * stored again after every streamed output, then concluded.
     */
    method ExecuteGraph(runId: string, req: RunRequest, stream: seq<StreamItem>, raised: Option<string>)
      modifies this
      ensures runs == old(runs)[runId := ExecuteGraphResult(req, stream, raised)]
    {
      var init := InitialRecord(req);
      var rec := init;
      runs := runs[runId := rec];
      var i := 0;
      while i < |stream|
        invariant 0 <= i <= |stream|
        invariant rec == FoldStream(init, stream[..i])
        invariant runs == old(runs)[runId := rec]
      {
        FoldStreamStep(init, stream, i + 1);
        var next := ApplyOutput(rec, stream[i]);
        OverwriteKey(old(runs), runId, rec, next);
        rec := next;
        runs := runs[runId := rec];
        i := i + 1;
      }
      assert stream[..|stream|] == stream;
      var last := Conclude(rec, raised);
      OverwriteKey(old(runs), runId, rec, last);
      runs := runs[runId := last];
    }
  }
}
