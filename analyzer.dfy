/**
 * The repository analyzer's classification loop. Cloning and `os.walk` are
 * I/O; the walk is supplied as the sequence of (directory, file name) pairs
 * it would yield, in order.
 */
module Analyzer {
  import opened Options
  import Text

  datatype WalkEntry = WalkEntry(root: string, name: string)

  datatype AnalyzerOutput = AnalyzerOutput(repoPath: string, testFiles: seq<string>, language: string)

  /** `os.path.join(root, name)` on POSIX paths. */
  function PathJoin(root: string, name: string): string {
    if Text.StartsWith(name, "/") then name
    else if root == [] || Text.EndsWith(root, "/") then root + name
    else root + "/" + name
  }

  /** The language a file name reveals, when it reveals one. */
  function FileLanguage(name: string): Option<string> {
    if Text.EndsWith(name, ".py") then Some("python")
    else if Text.EndsWith(name, ".js") || Text.EndsWith(name, ".ts") then Some("javascript")
    else None
  }

  /** The test-file test of each branch of the loop, as written. */
  predicate IsTestFile(name: string) {
    if Text.EndsWith(name, ".py") then Text.Contains(name, "test") || Text.StartsWith(name, "test_")
    else if Text.EndsWith(name, ".js") || Text.EndsWith(name, ".ts") then Text.Contains(name, "test") || Text.Contains(name, "spec")
    else false
  }

  /** The `language` the loop ends with after visiting `walk`. */
  function LanguageOf(walk: seq<WalkEntry>): string {
    if walk == [] then "unknown"
    else
      var lang := FileLanguage(walk[|walk| - 1].name);
      if lang.Some? then lang.value else LanguageOf(walk[..|walk| - 1])
  }

  /** The `test_files` the loop ends with after visiting `walk`. */
  function TestFilesOf(walk: seq<WalkEntry>): seq<string> {
    if walk == [] then []
    else
      var e := walk[|walk| - 1];
      TestFilesOf(walk[..|walk| - 1]) + (if IsTestFile(e.name) then [PathJoin(e.root, e.name)] else [])
  }

  /** `analyze_repository` over a supplied walk. */
  method AnalyzeRepository(repoPath: string, walk: seq<WalkEntry>) returns (out: AnalyzerOutput)
    ensures out.repoPath == repoPath
    ensures out.language == LanguageOf(walk)
    ensures out.testFiles == TestFilesOf(walk)
  {
    var testFiles: seq<string> := [];
    var language := "unknown";
    for i := 0 to |walk|
      invariant language == LanguageOf(walk[..i])
      invariant testFiles == TestFilesOf(walk[..i])
    {
      assert walk[..i + 1][..i] == walk[..i];
      var root, file := walk[i].root, walk[i].name;
      if Text.EndsWith(file, ".py") {
        language := "python";
        if Text.Contains(file, "test") || Text.StartsWith(file, "test_") {
          testFiles := testFiles + [PathJoin(root, file)];
        }
      } else if Text.EndsWith(file, ".js") || Text.EndsWith(file, ".ts") {
        language := "javascript";
        if Text.Contains(file, "test") || Text.Contains(file, "spec") {
          testFiles := testFiles + [PathJoin(root, file)];
        }
      }
    }
    assert walk[..|walk|] == walk;
    out := AnalyzerOutput(repoPath, testFiles, language);
  }

  /** The `startswith("test_")` alternative adds nothing: a ".py" file is a test file iff its name contains "test". */
  lemma TestFileRules(name: string)
    ensures Text.EndsWith(name, ".py") ==> (IsTestFile(name) <==> Text.Contains(name, "test"))
    ensures !Text.EndsWith(name, ".py") && (Text.EndsWith(name, ".js") || Text.EndsWith(name, ".ts")) ==>
      (IsTestFile(name) <==> Text.Contains(name, "test") || Text.Contains(name, "spec"))
    ensures FileLanguage(name).None? ==> !IsTestFile(name)
  {
    if Text.StartsWith(name, "test_") {
      assert Text.StartsWith(name, "test");
      Text.PrefixIsContained(name, "test");
    }
  }

  lemma {:induction false} LanguageUnknownIff(walk: seq<WalkEntry>)
    ensures LanguageOf(walk) == "unknown" <==> forall i :: 0 <= i < |walk| ==> FileLanguage(walk[i].name).None?
  {
    if walk != [] {
      var init := walk[..|walk| - 1];
      LanguageUnknownIff(init);
      assert forall i :: 0 <= i < |init| ==> init[i] == walk[i];
    }
  }

  /** The language comes from the last file whose extension is recognised. */
  lemma {:induction false} LanguageIsLastMatch(walk: seq<WalkEntry>, j: nat)
    requires j < |walk| && FileLanguage(walk[j].name).Some?
    requires forall k :: j < k < |walk| ==> FileLanguage(walk[k].name).None?
    ensures LanguageOf(walk) == FileLanguage(walk[j].name).value
  {
    if j < |walk| - 1 {
      var init := walk[..|walk| - 1];
      LanguageIsLastMatch(init, j);
    }
  }

  /** Test files are exactly the joined paths of the walk's test-file entries. */
  lemma {:induction false} TestFilesMembership(walk: seq<WalkEntry>, path: string)
    ensures path in TestFilesOf(walk) <==>
      exists i :: 0 <= i < |walk| && IsTestFile(walk[i].name) && path == PathJoin(walk[i].root, walk[i].name)
  {
    if walk != [] {
      var init := walk[..|walk| - 1];
      TestFilesMembership(init, path);
      assert forall i :: 0 <= i < |init| ==> init[i] == walk[i];
    }
  }

  /** The test files keep walk order: the walk's pieces contribute their test files in turn. */
  lemma {:induction false} TestFilesKeepOrder(walk1: seq<WalkEntry>, walk2: seq<WalkEntry>)
    ensures TestFilesOf(walk1 + walk2) == TestFilesOf(walk1) + TestFilesOf(walk2)
  {
    if walk2 != [] {
      var init := walk2[..|walk2| - 1];
      TestFilesKeepOrder(walk1, init);
      assert (walk1 + walk2)[..|walk1 + walk2| - 1] == walk1 + init;
    } else {
      assert walk1 + walk2 == walk1;
    }
  }
}
