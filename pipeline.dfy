/**
 * The workflow's stream as `execute_graph` consumes it: every node output of
 * the compiled graph becomes one streamed update, carrying the node's keys
 * (its fixes as dictionaries with every key present) together with whatever
 * elapsed time and timestamp were read when it arrived.
 */
module Pipeline {
  import opened Options
  import Graph
  import Api

  function RawFixOf(f: Graph.Fix): Api.RawFix {
    Api.RawFix(Some(f.file), Some(f.errorType), Some(f.line), Some(f.message), Some(f.status))
  }

  function UpdateOf(u: Graph.Update): Api.NodeUpdate {
    var fixes := if u.fixes.Some? then Some(seq(|u.fixes.value|, i requires 0 <= i < |u.fixes.value| => RawFixOf(u.fixes.value[i])))
                 else None;
    Api.NodeUpdate(u.logs, fixes, u.status, u.currentRetry)
  }

  /** `items` is the stream of the outputs `outs`, with arbitrary times and timestamps. */
  predicate Carries(items: seq<Api.StreamItem>, outs: seq<Graph.Output>) {
    |items| == |outs| && forall i :: 0 <= i < |items| ==> items[i].update == UpdateOf(outs[i].update)
  }

  /** The state `execute_graph` starts the workflow from. */
  function InitialState(req: Api.RunRequest): Graph.AgentState {
    Graph.AgentState(req.githubUrl, req.teamName, req.leaderName, "", "", [], Api.MaxRetries, 0, [], [], "running")
  }

  /** Only the debugger reports a status, and it is always a test verdict. */
  predicate StatusFromDebugger(o: Graph.Output) {
    (o.update.status.Some? <==> o.node == Graph.Debugger)
    && (o.update.status.Some? ==> o.update.status.value == "tests_passed" || o.update.status.value == "tests_failed")
  }

  lemma NodeStatus(n: Graph.Node, s: Graph.AgentState, w: Graph.World)
    requires n != Graph.End && (n == Graph.Fixer ==> |s.logs| > 0)
    ensures StatusFromDebugger(Graph.Output(n, Graph.Execute(n, s, w)))
  {
  }

  predicate StatusOnlyFromDebugger(outs: seq<Graph.Output>) {
    forall i :: 0 <= i < |outs| ==> StatusFromDebugger(outs[i])
  }

  lemma {:induction false} RunStatusFromDebugger(n: Graph.Node, s: Graph.AgentState, w: Graph.World)
    requires n == Graph.Fixer ==> |s.logs| > 0
    ensures StatusOnlyFromDebugger(Graph.Run(n, s, w))
    decreases Graph.RetriesLeft(s), Graph.Rank(n)
  {
    if n != Graph.End {
      var u := Graph.Execute(n, s, w);
      var s1 := Graph.Merge(s, u);
      var outs := Graph.Run(n, s, w);
      var tail := Graph.Run(Graph.Next(n, s1), s1, w);
      RunStatusFromDebugger(Graph.Next(n, s1), s1, w);
      assert outs == [Graph.Output(n, u)] + tail;
      NodeStatus(n, s, w);
      forall i | 0 <= i < |outs|
        ensures StatusFromDebugger(outs[i])
      {
        if i == 0 {
          assert outs[0] == Graph.Output(n, u);
        } else {
          assert outs[i] == tail[i - 1];
        }
      }
    }
  }

  /** The first output of a stream, folded before the rest. */
  lemma FoldFirst(rec: Api.RunRecord, items: seq<Api.StreamItem>)
    requires rec.Record? && |items| > 0
    ensures Api.FoldStream(rec, items) == Api.FoldStream(Api.FoldItem(rec, items[0]), items[1..])
  {
    var first := items[..1];
    Api.FoldStreamAppend(rec, first, items[1..]);
    assert first + items[1..] == items;
    assert first[..0] == [] && first[0] == items[0];
    assert Api.FoldStream(rec, first) == Api.FoldItem(Api.FoldStream(rec, []), items[0]);
  }

  /** The debugger's output decides the run whenever the router then goes to the git manager. */
  lemma DebuggerItem(s: Graph.AgentState, w: Graph.World, rec: Api.RunRecord, item: Api.StreamItem)
    requires s.maxRetries == Api.MaxRetries && rec.Record?
    requires item.update == UpdateOf(Graph.Execute(Graph.Debugger, s, w))
    requires Graph.ShouldContinue(Graph.Merge(s, Graph.Execute(Graph.Debugger, s, w))) == Graph.GitManager
    ensures Api.FoldItem(rec, item).summary.finalStatus
            == if Graph.Execute(Graph.Debugger, s, w).status == Some("tests_passed") then "PASSED" else "FAILED"
  {
    var u := Graph.Execute(Graph.Debugger, s, w);
    assert u.currentRetry == Some(s.currentRetry + 1);
    Api.FoldItemFields(rec, item);
  }

  /** A stream of one output without a status leaves the final status alone. */
  lemma QuietTail(rec: Api.RunRecord, items: seq<Api.StreamItem>)
    requires rec.Record? && |items| == 1 && items[0].update.status.None?
    ensures Api.FoldStream(rec, items).summary.finalStatus == rec.summary.finalStatus
  {
    assert items[..0] == [];
    Api.FoldItemFields(rec, items[0]);
  }

  /** When the tests pass or retries run out, the debugger's output is followed by the git manager's and the run ends. */
  lemma DebuggerToGitManager(s: Graph.AgentState, w: Graph.World)
    requires Graph.ShouldContinue(Graph.Merge(s, Graph.Execute(Graph.Debugger, s, w))) == Graph.GitManager
    ensures var u := Graph.Execute(Graph.Debugger, s, w);
      var s1 := Graph.Merge(s, u);
      Graph.Run(Graph.Debugger, s, w)
        == [Graph.Output(Graph.Debugger, u), Graph.Output(Graph.GitManager, Graph.Execute(Graph.GitManager, s1, w))]
  {
    var s1 := Graph.Merge(s, Graph.Execute(Graph.Debugger, s, w));
    var g := Graph.Execute(Graph.GitManager, s1, w);
    assert Graph.Run(Graph.End, Graph.Merge(s1, g), w) == [];
  }

  /** After a failed test run below the retry limit the fixer can run, and its round uses up one retry. */
  lemma FixerRoundState(s: Graph.AgentState, w: Graph.World)
    requires Graph.ShouldContinue(Graph.Merge(s, Graph.Execute(Graph.Debugger, s, w))) == Graph.Fixer
    ensures var s1 := Graph.Merge(s, Graph.Execute(Graph.Debugger, s, w));
      |s1.logs| > 0 &&
      var s2 := Graph.Merge(s1, Graph.Execute(Graph.Fixer, s1, w));
      Graph.RetriesLeft(s2) < Graph.RetriesLeft(s) && s2.maxRetries == s.maxRetries
  {
    var s1 := Graph.Merge(s, Graph.Execute(Graph.Debugger, s, w));
    Graph.NodesExtendLogs(s, Graph.Debugger, w);
    var f := Graph.Execute(Graph.Fixer, s1, w);
    assert f.currentRetry.None?;
    assert s1.currentRetry == s.currentRetry + 1;
  }

  /** Otherwise the fixer runs and the debugger starts another round with one retry fewer left. */
  lemma DebuggerToFixer(s: Graph.AgentState, w: Graph.World)
    requires Graph.ShouldContinue(Graph.Merge(s, Graph.Execute(Graph.Debugger, s, w))) == Graph.Fixer
    ensures var u := Graph.Execute(Graph.Debugger, s, w);
      var s1 := Graph.Merge(s, u);
      |s1.logs| > 0 &&
      var f := Graph.Execute(Graph.Fixer, s1, w);
      var s2 := Graph.Merge(s1, f);
      Graph.RetriesLeft(s2) < Graph.RetriesLeft(s) && s2.maxRetries == s.maxRetries &&
      Graph.Run(Graph.Debugger, s, w) == [Graph.Output(Graph.Debugger, u), Graph.Output(Graph.Fixer, f)] + Graph.Run(Graph.Debugger, s2, w)
  {
    var u := Graph.Execute(Graph.Debugger, s, w);
    var s1 := Graph.Merge(s, u);
    FixerRoundState(s, w);
    var f := Graph.Execute(Graph.Fixer, s1, w);
    var rest := Graph.Run(Graph.Debugger, Graph.Merge(s1, f), w);
    Graph.RunStep(Graph.Debugger, s, w);
    Graph.RunStep(Graph.Fixer, s1, w);
    assert [Graph.Output(Graph.Debugger, u)] + ([Graph.Output(Graph.Fixer, f)] + rest)
        == [Graph.Output(Graph.Debugger, u), Graph.Output(Graph.Fixer, f)] + rest;
  }

  lemma CarriesSuffix(items: seq<Api.StreamItem>, outs: seq<Graph.Output>, k: nat)
    requires Carries(items, outs) && k <= |outs|
    ensures Carries(items[k..], outs[k..])
  {
    forall i | 0 <= i < |items| - k
      ensures items[k..][i].update == UpdateOf(outs[k..][i].update)
    {
      assert items[k..][i] == items[i + k] && outs[k..][i] == outs[i + k];
    }
  }

  /** The debugger's last round: its verdict decides the run and the git manager's output changes nothing. */
  lemma LastRound(s: Graph.AgentState, w: Graph.World, rec: Api.RunRecord, items: seq<Api.StreamItem>)
    requires s.maxRetries == Api.MaxRetries && rec.Record?
    requires Carries(items, Graph.Run(Graph.Debugger, s, w))
    requires Graph.ShouldContinue(Graph.Merge(s, Graph.Execute(Graph.Debugger, s, w))) == Graph.GitManager
    ensures var outs := Graph.Run(Graph.Debugger, s, w);
      && |outs| == 2 && outs[0].node == Graph.Debugger
      && Api.FoldStream(rec, items).summary.finalStatus
         == if outs[0].update.status == Some("tests_passed") then "PASSED" else "FAILED"
  {
    var outs := Graph.Run(Graph.Debugger, s, w);
    var u := Graph.Execute(Graph.Debugger, s, w);
    DebuggerToGitManager(s, w);
    assert outs[0] == Graph.Output(Graph.Debugger, u);
    FoldFirst(rec, items);
    DebuggerItem(s, w, rec, items[0]);
    QuietTail(Api.FoldItem(rec, items[0]), items[1..]);
  }

  /** A failed round that goes on to the fixer: two outputs folded, then the next round's stream. */
  lemma FixerRound(s: Graph.AgentState, w: Graph.World, rec: Api.RunRecord, items: seq<Api.StreamItem>)
    requires s.maxRetries == Api.MaxRetries && rec.Record?
    requires Carries(items, Graph.Run(Graph.Debugger, s, w))
    requires Graph.ShouldContinue(Graph.Merge(s, Graph.Execute(Graph.Debugger, s, w))) == Graph.Fixer
    ensures var s1 := Graph.Merge(s, Graph.Execute(Graph.Debugger, s, w));
      |s1.logs| > 0 &&
      var s2 := Graph.Merge(s1, Graph.Execute(Graph.Fixer, s1, w));
      var outs := Graph.Run(Graph.Debugger, s, w);
      && Graph.RetriesLeft(s2) < Graph.RetriesLeft(s) && s2.maxRetries == Api.MaxRetries
      && |items| >= 2 && outs[2..] == Graph.Run(Graph.Debugger, s2, w)
      && Carries(items[2..], Graph.Run(Graph.Debugger, s2, w))
      && Api.FoldStream(rec, items) == Api.FoldStream(Api.FoldItem(Api.FoldItem(rec, items[0]), items[1]), items[2..])
  {
    var outs := Graph.Run(Graph.Debugger, s, w);
    DebuggerToFixer(s, w);
    var rec1 := Api.FoldItem(rec, items[0]);
    FoldFirst(rec, items);
    FoldFirst(rec1, items[1..]);
    assert items[1..][1..] == items[2..];
    CarriesSuffix(items, outs, 2);
  }

  /** The outputs `outs` end with a debugger run whose verdict is the final status of `items` folded into `rec`. */
  predicate DecidedByLastTest(rec: Api.RunRecord, items: seq<Api.StreamItem>, outs: seq<Graph.Output>)
    requires rec.Record?
  {
    && |outs| >= 2 && outs[|outs| - 2].node == Graph.Debugger
    && Api.FoldStream(rec, items).summary.finalStatus
       == if outs[|outs| - 2].update.status == Some("tests_passed") then "PASSED" else "FAILED"
  }

  lemma DecidedAfterTwo(rec: Api.RunRecord, rec2: Api.RunRecord, items: seq<Api.StreamItem>, outs: seq<Graph.Output>)
    requires rec.Record? && rec2.Record? && 2 <= |items| && 2 <= |outs|
    requires Api.FoldStream(rec, items) == Api.FoldStream(rec2, items[2..])
    requires DecidedByLastTest(rec2, items[2..], outs[2..])
    ensures DecidedByLastTest(rec, items, outs)
  {
    assert outs[|outs| - 2] == outs[2..][|outs| - 4];
  }

  /**
   * From the debugger on, with `max_retries` at 5, the stream always decides
   * the run: the final status is PASSED when the last debugger output (the
   * one just before the git manager's) passed the tests, and FAILED otherwise.
   */
  lemma {:induction false} DebuggerLoopDecides(s: Graph.AgentState, w: Graph.World, rec: Api.RunRecord,
                                               items: seq<Api.StreamItem>)
    requires s.maxRetries == Api.MaxRetries && rec.Record?
    requires Carries(items, Graph.Run(Graph.Debugger, s, w))
    ensures DecidedByLastTest(rec, items, Graph.Run(Graph.Debugger, s, w))
    decreases Graph.RetriesLeft(s)
  {
    var s1 := Graph.Merge(s, Graph.Execute(Graph.Debugger, s, w));
    if Graph.ShouldContinue(s1) == Graph.GitManager {
      LastRound(s, w, rec, items);
    } else {
      FixerRound(s, w, rec, items);
      var s2 := Graph.Merge(s1, Graph.Execute(Graph.Fixer, s1, w));
      var rec2 := Api.FoldItem(Api.FoldItem(rec, items[0]), items[1]);
      DebuggerLoopDecides(s2, w, rec2, items[2..]);
      DecidedAfterTwo(rec, rec2, items, Graph.Run(Graph.Debugger, s, w));
    }
  }

  lemma CarriesPrefix(items: seq<Api.StreamItem>, outs: seq<Graph.Output>, k: nat)
    requires Carries(items, outs) && k <= |outs|
    ensures Carries(items[..k], outs[..k])
  {
    forall i | 0 <= i < k
      ensures items[..k][i].update == UpdateOf(outs[..k][i].update)
    {
      assert items[..k][i] == items[i] && outs[..k][i] == outs[i];
    }
  }

  /** The timeline gets one entry per debugger run. */
  lemma {:induction false} VerdictCount(items: seq<Api.StreamItem>, outs: seq<Graph.Output>)
    requires Carries(items, outs) && StatusOnlyFromDebugger(outs)
    ensures |Api.VerdictEntries(items)| == Graph.CountDebugger(outs)
  {
    if outs != [] {
      var n := |outs| - 1;
      CarriesPrefix(items, outs, n);
      assert StatusOnlyFromDebugger(outs[..n]) by {
        forall i | 0 <= i < n
          ensures StatusFromDebugger(outs[..n][i])
        {
          assert outs[..n][i] == outs[i];
        }
      }
      VerdictCount(items[..n], outs[..n]);
      Graph.CountDebuggerSnoc(outs);
      assert StatusFromDebugger(outs[n]);
      assert items[n].update == UpdateOf(outs[n].update);
      assert Api.VerdictEntries(items) == Api.VerdictEntries(items[..n]) + Api.VerdictOf(items[n]);
    }
  }

  /** The CI/CD timeline of a workflow run has one entry per debugger run: between one and five. */
  lemma WorkflowTimeline(req: Api.RunRequest, w: Graph.World, items: seq<Api.StreamItem>, raised: Option<string>)
    requires Carries(items, Graph.Run(Graph.Analyzer, InitialState(req), w))
    ensures var outs := Graph.Run(Graph.Analyzer, InitialState(req), w);
      var r := Api.ExecuteGraphResult(req, items, raised);
      && r.Record?
      && |r.timeline| == Graph.CountDebugger(outs) && 1 <= |r.timeline| <= Api.MaxRetries
  {
    var s0 := InitialState(req);
    var outs := Graph.Run(Graph.Analyzer, s0, w);
    Graph.WorkflowDebuggerBound(s0, w);
    RunStatusFromDebugger(Graph.Analyzer, s0, w);
    VerdictCount(items, outs);
    Api.ExecuteGraphTimeline(req, items, raised);
  }

  /** The analyzer's output, then the debugger loop on a state that keeps `max_retries`. */
  lemma AnalyzerRunShape(s0: Graph.AgentState, w: Graph.World)
    ensures var s1 := Graph.Merge(s0, Graph.Execute(Graph.Analyzer, s0, w));
      var outs := Graph.Run(Graph.Analyzer, s0, w);
      && s1.maxRetries == s0.maxRetries
      && |outs| >= 1 && outs[1..] == Graph.Run(Graph.Debugger, s1, w)
  {
    var s1 := Graph.Merge(s0, Graph.Execute(Graph.Analyzer, s0, w));
    assert Graph.Run(Graph.Analyzer, s0, w)
        == [Graph.Output(Graph.Analyzer, Graph.Execute(Graph.Analyzer, s0, w))] + Graph.Run(Graph.Debugger, s1, w);
  }

  lemma DecidedAfterOne(rec: Api.RunRecord, rec1: Api.RunRecord, items: seq<Api.StreamItem>, outs: seq<Graph.Output>)
    requires rec.Record? && rec1.Record? && 1 <= |items| && 1 <= |outs|
    requires Api.FoldStream(rec, items) == Api.FoldStream(rec1, items[1..])
    requires DecidedByLastTest(rec1, items[1..], outs[1..])
    ensures DecidedByLastTest(rec, items, outs) && |outs| >= 3
  {
    assert outs[|outs| - 2] == outs[1..][|outs| - 3];
  }

  /** Folding a whole workflow stream into any record: decided by the last debugger run. */
  lemma WorkflowDecides(s0: Graph.AgentState, w: Graph.World, rec: Api.RunRecord, items: seq<Api.StreamItem>)
    requires s0.maxRetries == Api.MaxRetries && rec.Record?
    requires Carries(items, Graph.Run(Graph.Analyzer, s0, w))
    ensures |Graph.Run(Graph.Analyzer, s0, w)| >= 3
    ensures DecidedByLastTest(rec, items, Graph.Run(Graph.Analyzer, s0, w))
  {
    var outs := Graph.Run(Graph.Analyzer, s0, w);
    var s1 := Graph.Merge(s0, Graph.Execute(Graph.Analyzer, s0, w));
    AnalyzerRunShape(s0, w);
    FoldFirst(rec, items);
    CarriesSuffix(items, outs, 1);
    DebuggerLoopDecides(s1, w, Api.FoldItem(rec, items[0]), items[1..]);
    DecidedAfterOne(rec, Api.FoldItem(rec, items[0]), items, outs);
  }

  /** A stream decided by its last debugger run leaves the safety net nothing to do. */
  lemma FinishedDecided(req: Api.RunRequest, items: seq<Api.StreamItem>, outs: seq<Graph.Output>)
    requires DecidedByLastTest(Api.InitialRecord(req), items, outs)
    ensures |outs| >= 2
    ensures Api.ExecuteGraphResult(req, items, None).summary.finalStatus
            == if outs[|outs| - 2].update.status == Some("tests_passed") then "PASSED" else "FAILED"
  {
    var st := Api.FoldStream(Api.InitialRecord(req), items).summary.finalStatus;
    assert |st| == 6;
    Api.ExecuteGraphFinished(req, items);
  }

  /** The verdict lemma for any starting state that keeps `max_retries` at 5. */
  lemma WorkflowVerdictFrom(req: Api.RunRequest, s0: Graph.AgentState, w: Graph.World, items: seq<Api.StreamItem>)
    requires s0.maxRetries == Api.MaxRetries
    requires Carries(items, Graph.Run(Graph.Analyzer, s0, w))
    ensures var outs := Graph.Run(Graph.Analyzer, s0, w);
      && |outs| >= 3 && outs[|outs| - 2].node == Graph.Debugger
      && Api.ExecuteGraphResult(req, items, None).summary.finalStatus
         == if outs[|outs| - 2].update.status == Some("tests_passed") then "PASSED" else "FAILED"
  {
    WorkflowDecides(s0, w, Api.InitialRecord(req), items);
    FinishedDecided(req, items, Graph.Run(Graph.Analyzer, s0, w));
  }

  /**
   * A workflow run that raised nothing is always decided by the stream (the
   * RUNNING safety net never fires): it ends PASSED exactly when the last
   * debugger run, the output just before the git manager's, passed the
   * tests, and FAILED otherwise.
   */
  lemma WorkflowVerdict(req: Api.RunRequest, w: Graph.World, items: seq<Api.StreamItem>)
    requires Carries(items, Graph.Run(Graph.Analyzer, InitialState(req), w))
    ensures var outs := Graph.Run(Graph.Analyzer, InitialState(req), w);
      |outs| >= 3 && outs[|outs| - 2].node == Graph.Debugger
    ensures var outs := Graph.Run(Graph.Analyzer, InitialState(req), w);
      var r := Api.ExecuteGraphResult(req, items, None);
      r.Record? && r.summary.finalStatus == if outs[|outs| - 2].update.status == Some("tests_passed") then "PASSED" else "FAILED"
  {
    WorkflowVerdictFrom(req, InitialState(req), w, items);
  }
}
