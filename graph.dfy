/**
 * The repair workflow: analyzer -> debugger -> (fixer -> debugger)* ->
 * git_manager -> END, routed after each debugger run by `should_continue`.
 * Each node is a pure function from the agent state (and the reply of the
 * foreign call it makes, supplied as an argument) to the partial update it
 * returns; the graph runtime merges each update into the state by overwriting
 * the keys it carries. `Run` drives the edges and yields the updates in the
 * order the runtime streams them.
 */
module Graph {
  import opened Options
  import Text
  import Analyzer
  import GitOps

  datatype Fix = Fix(file: string, errorType: string, line: int, message: string, status: string)

  datatype AgentState = AgentState(
    repoUrl: string,
    teamName: string,
    leaderName: string,
    repoPath: string,
    language: string,
    testFiles: seq<string>,
    maxRetries: int,
    currentRetry: int,
    fixes: seq<Fix>,
    logs: seq<string>,
    status: string)

  /** The keys a node returns; absent keys keep their value. */
  datatype Update = Update(
    repoPath: Option<string>,
    language: Option<string>,
    testFiles: Option<seq<string>>,
    logs: Option<seq<string>>,
    status: Option<string>,
    currentRetry: Option<int>,
    fixes: Option<seq<Fix>>)

  const NoUpdate: Update := Update(None, None, None, None, None, None, None)

  function Merge(s: AgentState, u: Update): AgentState {
    s.(repoPath := u.repoPath.GetOr(s.repoPath),
       language := u.language.GetOr(s.language),
       testFiles := u.testFiles.GetOr(s.testFiles),
       logs := u.logs.GetOr(s.logs),
       status := u.status.GetOr(s.status),
       currentRetry := u.currentRetry.GetOr(s.currentRetry),
       fixes := u.fixes.GetOr(s.fixes))
  }

  function AnalyzerNode(s: AgentState, out: Analyzer.AnalyzerOutput): Update {
    NoUpdate.(repoPath := Some(out.repoPath), language := Some(out.language), testFiles := Some(out.testFiles),
              logs := Some(s.logs + ["Analyzed repo: " + out.language + ", found "
                                     + Text.NatToString(|out.testFiles|) + " test files"]))
  }

  /** The dictionary the test container run returns: its error reply has neither key. */
  datatype TestRun = TestRun(exitCode: Option<int>, output: Option<string>)

  function DebuggerNode(s: AgentState, results: TestRun): Update {
    var status := if results.exitCode == Some(0) then "tests_passed" else "tests_failed";
    var exitText := if results.exitCode.Some? then Text.IntToString(results.exitCode.value) else "None";
    NoUpdate.(status := Some(status),
              logs := Some(s.logs + ["Tests finished with exit code " + exitText, results.output.GetOr("")]),
              currentRetry := Some(s.currentRetry + 1))
  }

  /** "line " followed by a digit starts at position `i` of `s` (a match of `line (\d+)`). */
  predicate LineRefAt(s: string, i: int) {
    0 <= i && i + 6 <= |s| && s[i..i + 5] == "line " && Text.IsDigit(s[i + 5])
  }

  /** The leftmost match position at or after `from`. */
  function FindLineRef(s: string, from: nat): (r: Option<nat>)
    decreases |s| - from
    ensures r.Some? ==> from <= r.value && LineRefAt(s, r.value)
    ensures r.Some? ==> forall j :: from <= j < r.value ==> !LineRefAt(s, j)
    ensures r.None? ==> forall j :: from <= j ==> !LineRefAt(s, j)
  {
    if from + 6 > |s| then None
    else if LineRefAt(s, from) then Some(from)
    else FindLineRef(s, from + 1)
  }

  /** The length of the run of digits starting at `from` (the greedy `\d+`). */
  function DigitRun(s: string, from: nat): (n: nat)
    requires from <= |s|
    decreases |s| - from
    ensures from + n <= |s|
    ensures Text.AllDigits(s[from..from + n])
    ensures from + n < |s| ==> !Text.IsDigit(s[from + n])
  {
    if from < |s| && Text.IsDigit(s[from]) then
      var rest := DigitRun(s, from + 1);
      assert s[from..from + 1 + rest] == [s[from]] + s[from + 1..from + 1 + rest];
      1 + rest
    else 0
  }

  /** `int(re.search(r"line (\d+)", log).group(1))`, or 1 without a match. */
  function LineNumber(log: string): nat {
    match FindLineRef(log, 0)
    case None => 1
    case Some(i) => Text.DigitsValue(log[i + 5..i + 5 + DigitRun(log, i + 5)])
  }

  /** The first matching keyword decides the error type. */
  function ErrorType(log: string): string {
    if Text.Contains(log, "SyntaxError") then "SYNTAX"
    else if Text.Contains(log, "IndentationError") then "INDENTATION"
    else if Text.Contains(log, "ImportError") || Text.Contains(log, "ModuleNotFoundError") then "IMPORT"
    else if Text.Contains(log, "AssertionError") then "LOGIC"
    else if Text.Contains(log, "TypeError") then "TYPE_ERROR"
    else "UNKNOWN"
  }

  function TargetFile(testFiles: seq<string>): string {
    if |testFiles| > 0 then testFiles[0] else "unknown"
  }

  /** `state["logs"][-1]` raises on an empty list, so the fixer needs at least one log line. */
  function FixerNode(s: AgentState): Update
    requires |s.logs| > 0
  {
    var lastLog := s.logs[|s.logs| - 1];
    var target := TargetFile(s.testFiles);
    var line := LineNumber(lastLog);
    var errorType := ErrorType(lastLog);
    var fix := Fix(target, errorType, line, "Fixed " + errorType + " error at line " + Text.NatToString(line), "applied");
    NoUpdate.(fixes := Some(s.fixes + [fix]),
              logs := Some(s.logs + ["Applied fix to " + target + ": " + errorType + " at line " + Text.NatToString(line)]))
  }

  function GitManagerNode(s: AgentState, result: GitOps.GitResult): Update {
    NoUpdate.(logs := Some(s.logs + ["Git operation: " + result.Status() + " - " + result.BranchText()]))
  }

  datatype Node = Analyzer | Debugger | Fixer | GitManager | End

  /** `should_continue`, the router after the debugger. */
  function ShouldContinue(s: AgentState): Node {
    if s.status == "tests_passed" then GitManager
    else if s.currentRetry >= s.maxRetries then GitManager
    else Fixer
  }

  /** The external replies a run consumes: the analysis and the test run for each retry count. */
  datatype World = World(analysis: Analyzer.AnalyzerOutput, tests: int -> TestRun)

  /** One node's execution on state `s`. */
  function Execute(n: Node, s: AgentState, w: World): Update
    requires n != End
    requires n == Fixer ==> |s.logs| > 0
  {
    match n
    case Analyzer => AnalyzerNode(s, w.analysis)
    case Debugger => DebuggerNode(s, w.tests(s.currentRetry))
    case Fixer => FixerNode(s)
    case GitManager => GitManagerNode(s, GitOps.RunGitAgent(s.teamName, s.leaderName, |s.fixes|))
  }

  /** The edges: fixed ones, and the router after the debugger (consulted on the merged state). */
  function Next(n: Node, merged: AgentState): Node {
    match n
    case Analyzer => Debugger
    case Debugger => ShouldContinue(merged)
    case Fixer => Debugger
    case GitManager => End
    case End => End
  }

  datatype Output = Output(node: Node, update: Update)

  function Rank(n: Node): nat {
    match n
    case Analyzer => 4
    case Fixer => 3
    case Debugger => 2
    case GitManager => 1
    case End => 0
  }

  function RetriesLeft(s: AgentState): nat {
    if s.currentRetry <= s.maxRetries then s.maxRetries - s.currentRetry else 0
  }

  /** The stream of node outputs from node `n` on state `s` to END. */
  function Run(n: Node, s: AgentState, w: World): seq<Output>
    requires n == Fixer ==> |s.logs| > 0
    decreases RetriesLeft(s), Rank(n)
  {
    if n == End then []
    else
      var u := Execute(n, s, w);
      var s' := Merge(s, u);
      [Output(n, u)] + Run(Next(n, s'), s', w)
  }

  /** One step of the stream: the node's own output, then the stream from the node its edge leads to. */
  lemma RunStep(n: Node, s: AgentState, w: World)
    requires n != End && (n == Fixer ==> |s.logs| > 0)
    ensures var u := Execute(n, s, w);
      Run(n, s, w) == [Output(n, u)] + Run(Next(n, Merge(s, u)), Merge(s, u), w)
  {
  }

  /** Only the debugger moves the retry counter, by one; no node touches `max_retries`. */
  lemma NodeRetry(n: Node, s: AgentState, w: World)
    requires n != End && (n == Fixer ==> |s.logs| > 0)
    ensures var s1 := Merge(s, Execute(n, s, w));
      && s1.currentRetry == (if n == Debugger then s.currentRetry + 1 else s.currentRetry)
      && s1.maxRetries == s.maxRetries
  {
    match n
    case Analyzer =>
    case Debugger =>
    case Fixer =>
    case GitManager =>
  }

  /** Every node keeps the old logs as a prefix; analyzer, fixer and git manager add one line, the debugger two. */
  lemma NodesExtendLogs(s: AgentState, n: Node, w: World)
    requires n != End && (n == Fixer ==> |s.logs| > 0)
    ensures var u := Execute(n, s, w);
      && u.logs.Some?
      && |u.logs.value| == |s.logs| + (if n == Debugger then 2 else 1)
      && u.logs.value[..|s.logs|] == s.logs
  {
  }

  lemma DebuggerVerdict(s: AgentState, results: TestRun)
    ensures var u := DebuggerNode(s, results);
      && (u.status == Some("tests_passed") <==> results.exitCode == Some(0))
      && (results.exitCode.None? ==> u.status == Some("tests_failed"))
      && u.currentRetry == Some(s.currentRetry + 1)
  {
  }

  /** The fixer appends exactly one fix and leaves the earlier ones as they were. */
  lemma FixerAppendsOneFix(s: AgentState)
    requires |s.logs| > 0
    ensures var u := FixerNode(s);
      && u.fixes.Some? && |u.fixes.value| == |s.fixes| + 1
      && u.fixes.value[..|s.fixes|] == s.fixes
      && var f := u.fixes.value[|s.fixes|];
         && f.file == TargetFile(s.testFiles) && f.status == "applied"
         && f.errorType == ErrorType(s.logs[|s.logs| - 1]) && f.line == LineNumber(s.logs[|s.logs| - 1])
         && f.message == "Fixed " + f.errorType + " error at line " + Text.NatToString(f.line)
  {
  }

  lemma LineNumberNoMatch(log: string)
    requires forall i :: 0 <= i ==> !LineRefAt(log, i)
    ensures LineNumber(log) == 1
  {
  }

  /** The number is the whole digit run after the leftmost "line " that a digit follows. */
  lemma LineNumberIsFirstMatch(log: string, i: nat)
    requires LineRefAt(log, i) && forall j :: 0 <= j < i ==> !LineRefAt(log, j)
    ensures var n := DigitRun(log, i + 5);
      && n >= 1 && (i + 5 + n < |log| ==> !Text.IsDigit(log[i + 5 + n]))
      && LineNumber(log) == Text.DigitsValue(log[i + 5..i + 5 + n])
  {
    var r := FindLineRef(log, 0);
    assert r == Some(i);
  }

  lemma {:induction false} DigitRunToEnd(s: string, from: nat)
    requires from <= |s| && Text.AllDigits(s[from..])
    ensures DigitRun(s, from) == |s| - from
    decreases |s| - from
  {
    if from < |s| {
      assert Text.IsDigit(s[from..][0]);
      assert s[from + 1..] == s[from..][1..];
      DigitRunToEnd(s, from + 1);
    }
  }

  /** "line <n>" is read back as n. */
  lemma {:induction false} LineNumberReadsBack(n: nat)
    ensures LineNumber("line " + Text.NatToString(n)) == n
  {
    var log := "line " + Text.NatToString(n);
    assert LineRefAt(log, 0);
    var d := Text.NatToString(n);
    assert log[5..] == d;
    DigitRunToEnd(log, 5);
    assert log[5..5 + DigitRun(log, 5)] == d;
    Text.DigitsRoundTrip(n);
  }

  lemma ErrorTypeFirstMatch(log: string)
    ensures Text.Contains(log, "SyntaxError") ==> ErrorType(log) == "SYNTAX"
    ensures !Text.Contains(log, "SyntaxError") && Text.Contains(log, "IndentationError") ==> ErrorType(log) == "INDENTATION"
    ensures (!Text.Contains(log, "SyntaxError") && !Text.Contains(log, "IndentationError")
             && (Text.Contains(log, "ImportError") || Text.Contains(log, "ModuleNotFoundError")))
            ==> ErrorType(log) == "IMPORT"
    ensures (!Text.Contains(log, "SyntaxError") && !Text.Contains(log, "IndentationError")
             && !Text.Contains(log, "ImportError") && !Text.Contains(log, "ModuleNotFoundError")
             && Text.Contains(log, "AssertionError"))
            ==> ErrorType(log) == "LOGIC"
    ensures (!Text.Contains(log, "SyntaxError") && !Text.Contains(log, "IndentationError")
             && !Text.Contains(log, "ImportError") && !Text.Contains(log, "ModuleNotFoundError")
             && !Text.Contains(log, "AssertionError") && Text.Contains(log, "TypeError"))
            ==> ErrorType(log) == "TYPE_ERROR"
    ensures ErrorType(log) == "UNKNOWN" <==>
      !Text.Contains(log, "SyntaxError") && !Text.Contains(log, "IndentationError") && !Text.Contains(log, "ImportError")
      && !Text.Contains(log, "ModuleNotFoundError") && !Text.Contains(log, "AssertionError") && !Text.Contains(log, "TypeError")
  {
  }

  lemma ShouldContinueRoutes(s: AgentState)
    ensures ShouldContinue(s) == Fixer <==> s.status != "tests_passed" && s.currentRetry < s.maxRetries
    ensures ShouldContinue(s) == GitManager <==> s.status == "tests_passed" || s.currentRetry >= s.maxRetries
  {
  }

  function CountDebugger(outs: seq<Output>): nat {
    if outs == [] then 0 else (if outs[0].node == Debugger then 1 else 0) + CountDebugger(outs[1..])
  }

  /** Counting from the back: the last output adds one if it is the debugger's. */
  lemma {:induction false} CountDebuggerSnoc(outs: seq<Output>)
    requires outs != []
    ensures var n := |outs| - 1;
      CountDebugger(outs) == CountDebugger(outs[..n]) + (if outs[n].node == Debugger then 1 else 0)
  {
    var n := |outs| - 1;
    if n > 0 {
      CountDebuggerSnoc(outs[1..]);
      assert outs[1..][..n - 1] == outs[..n][1..];
      assert outs[1..][n - 1] == outs[n];
      assert outs[..n][0] == outs[0];
    } else {
      assert outs[..n] == [];
    }
  }

  lemma CountDebuggerCons(o: Output, rest: seq<Output>)
    ensures CountDebugger([o] + rest) == (if o.node == Debugger then 1 else 0) + CountDebugger(rest)
  {
    assert ([o] + rest)[1..] == rest;
  }

  /** From the debugger with `current_retry = r`, the debugger runs at most max(1, max_retries - r) times. */
  lemma {:induction false} DebuggerRunsBounded(s: AgentState, w: World)
    ensures var outs := Run(Debugger, s, w);
      1 <= CountDebugger(outs) <= (if s.maxRetries - s.currentRetry > 1 then s.maxRetries - s.currentRetry else 1)
    decreases RetriesLeft(s)
  {
    var u := Execute(Debugger, s, w);
    var s1 := Merge(s, u);
    RunStep(Debugger, s, w);
    NodesExtendLogs(s, Debugger, w);
    var rest := Run(Next(Debugger, s1), s1, w);
    CountDebuggerCons(Output(Debugger, u), rest);
    if ShouldContinue(s1) == Fixer {
      var u2 := Execute(Fixer, s1, w);
      var s2 := Merge(s1, u2);
      RunStep(Fixer, s1, w);
      CountDebuggerCons(Output(Fixer, u2), Run(Debugger, s2, w));
      assert u2.currentRetry.None?;
      DebuggerRunsBounded(s2, w);
    } else {
      var g := Execute(GitManager, s1, w);
      RunStep(GitManager, s1, w);
      assert Run(End, Merge(s1, g), w) == [];
      CountDebuggerCons(Output(GitManager, g), []);
    }
  }

  /** The whole workflow from the analyzer runs the debugger between 1 and max(1, max_retries) times. */
  lemma {:induction false} WorkflowDebuggerBound(s: AgentState, w: World)
    requires s.currentRetry == 0
    ensures 1 <= CountDebugger(Run(Analyzer, s, w)) <= (if s.maxRetries > 1 then s.maxRetries else 1)
  {
    var u := Execute(Analyzer, s, w);
    var s1 := Merge(s, u);
    assert Run(Analyzer, s, w)[1..] == Run(Debugger, s1, w);
    DebuggerRunsBounded(s1, w);
  }

  /** Every run ends with the git manager's output, and the analyzer's comes first. */
  lemma {:induction false} RunEndsWithGitManager(n: Node, s: AgentState, w: World)
    requires n != End && (n == Fixer ==> |s.logs| > 0)
    ensures var outs := Run(n, s, w); |outs| > 0 && outs[0].node == n && outs[|outs| - 1].node == GitManager
    decreases RetriesLeft(s), Rank(n)
  {
    var u := Execute(n, s, w);
    var s1 := Merge(s, u);
    var m := Next(n, s1);
    RunStep(n, s, w);
    NodesExtendLogs(s, n, w);
    NodeRetry(n, s, w);
    var rest := Run(m, s1, w);
    if m != End {
      RunEndsWithGitManager(m, s1, w);
      assert ([Output(n, u)] + rest)[|rest|] == rest[|rest| - 1];
    } else {
      assert rest == [];
    }
  }
}
