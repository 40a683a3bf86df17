/**
 * Branch naming and the result shapes of the git agent. The agent's git
 * commands are foreign calls; the file calls two helpers it neither defines
 * nor imports, so as written every call ends in its `except` branch.
 */
module GitOps {
  import opened Options
  import Text

  /** The branch shape `f"{team.upper()}_{leader.upper()}{suffix}".replace(" ", "_")`. */
  function BranchWithSuffix(team: string, leader: string, suffix: string): (r: string)
    ensures |r| == |team| + |leader| + 1 + |suffix|
    ensures ' ' !in r
    ensures forall i :: 0 <= i < |team| ==> r[i] == (if team[i] == ' ' then '_' else Text.UpperChar(team[i]))
    ensures r[|team|] == '_'
    ensures forall i :: 0 <= i < |leader| ==>
      r[|team| + 1 + i] == (if leader[i] == ' ' then '_' else Text.UpperChar(leader[i]))
    ensures r[|team| + 1 + |leader|..] == Text.ReplaceChar(suffix, ' ', '_')
  {
    var joined := Text.Upper(team) + "_" + Text.Upper(leader) + suffix;
    JoinedParts(team, leader, suffix);
    var r := Text.ReplaceChar(joined, ' ', '_');
    ReplacedParts(joined, |team| + 1 + |leader|, suffix);
    r
  }

  /** Where each part sits in the joined, upper-cased name. */
  lemma JoinedParts(team: string, leader: string, suffix: string)
    ensures var joined := Text.Upper(team) + "_" + Text.Upper(leader) + suffix;
      && |joined| == |team| + |leader| + 1 + |suffix|
      && (forall i :: 0 <= i < |team| ==> joined[i] == Text.UpperChar(team[i]))
      && joined[|team|] == '_'
      && (forall i :: 0 <= i < |leader| ==> joined[|team| + 1 + i] == Text.UpperChar(leader[i]))
      && joined[|team| + 1 + |leader|..] == suffix
  {
    var a := Text.Upper(team) + "_";
    var b := a + Text.Upper(leader);
    assert forall i :: 0 <= i < |team| ==> a[i] == Text.Upper(team)[i];
    assert forall i :: 0 <= i < |leader| ==> b[|team| + 1 + i] == Text.Upper(leader)[i];
    assert (b + suffix)[|b|..] == suffix;
  }

  /** Replacing spaces keeps positions and maps the tail `suffix` on its own. */
  lemma ReplacedParts(joined: string, k: nat, suffix: string)
    requires k <= |joined| && joined[k..] == suffix
    ensures var r := Text.ReplaceChar(joined, ' ', '_');
      ' ' !in r && r[k..] == Text.ReplaceChar(suffix, ' ', '_')
  {
    var r := Text.ReplaceChar(joined, ' ', '_');
    var t := Text.ReplaceChar(suffix, ' ', '_');
    assert forall i :: 0 <= i < |r| ==> r[i] != ' ';
    assert forall i :: 0 <= i < |suffix| ==> r[k..][i] == r[k + i] && joined[k + i] == suffix[i];
  }

  /** Suffixes of one length that differ in a non-space character give different branch names. */
  lemma SuffixesDiffer(team: string, leader: string, s1: string, s2: string, i: nat)
    requires |s1| == |s2| && i < |s1| && s1[i] != s2[i] && s1[i] != ' ' && s2[i] != ' '
    ensures |BranchWithSuffix(team, leader, s1)| == |BranchWithSuffix(team, leader, s2)|
    ensures BranchWithSuffix(team, leader, s1) != BranchWithSuffix(team, leader, s2)
  {
    var k := |team| + 1 + |leader|;
    var a := BranchWithSuffix(team, leader, s1);
    var b := BranchWithSuffix(team, leader, s2);
    assert a[k + i] == a[k..][i] && b[k + i] == b[k..][i];
  }

  /** `create_branch_name`. */
  function CreateBranchName(team: string, leader: string): (r: string)
    ensures |r| == |team| + |leader| + 8
    ensures ' ' !in r
    ensures Text.EndsWith(r, "_AI_FIX")
    ensures forall i :: 0 <= i < |team| ==> r[i] == (if team[i] == ' ' then '_' else Text.UpperChar(team[i]))
    ensures r[|team|] == '_'
    ensures forall i :: 0 <= i < |leader| ==>
      r[|team| + 1 + i] == (if leader[i] == ' ' then '_' else Text.UpperChar(leader[i]))
  {
    Text.ReplaceCharAbsent("_AI_FIX", ' ', '_');
    BranchWithSuffix(team, leader, "_AI_FIX")
  }

  datatype GitResult =
    | GitSuccess(branch: string, commit: string)
    | GitFailed(error: string)
  {
    /** `result['status']`. */
    function Status(): string {
      if GitSuccess? then "success" else "failed"
    }

    /** `result.get('branch')`, formatted as an f-string does (`None` when absent). */
    function BranchText(): string {
      if GitSuccess? then branch else "None"
    }
  }

  /**
   * `run_git_agent` around its foreign calls: `failure` is the message of the
   * exception the checkout or commit raised, if any.
   */
  function RunGitAgentWith(team: string, leader: string, fixCount: nat, failure: Option<string>): GitResult {
    var branch := CreateBranchName(team, leader);
    if failure.Some? then GitFailed(failure.value)
    else GitSuccess(branch, "[AI-AGENT] Applied " + Text.NatToString(fixCount) + " fixes")
  }

  /** The `NameError` the undefined `checkout_new_branch` raises on every call. */
  const UndefinedCheckout: string := "name 'checkout_new_branch' is not defined"

  /** `run_git_agent` as the file stands. */
  function RunGitAgent(team: string, leader: string, fixCount: nat): GitResult {
    RunGitAgentWith(team, leader, fixCount, Some(UndefinedCheckout))
  }

  lemma RunGitAgentShapes(team: string, leader: string, fixCount: nat, failure: Option<string>)
    ensures var r := RunGitAgentWith(team, leader, fixCount, failure);
      && (failure.None? <==> r.Status() == "success")
      && (failure.None? ==> r == GitSuccess(CreateBranchName(team, leader), "[AI-AGENT] Applied " + Text.NatToString(fixCount) + " fixes"))
      && (failure.Some? ==> r == GitFailed(failure.value) && r.BranchText() == "None")
  {
  }

  lemma RunGitAgentAlwaysFails(team: string, leader: string, fixCount: nat)
    ensures RunGitAgent(team, leader, fixCount).Status() == "failed"
    ensures RunGitAgent(team, leader, fixCount).BranchText() == "None"
  {
  }
}
