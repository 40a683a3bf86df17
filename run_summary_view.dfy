/**
 * The run summary panel: the branch and repository shown, and the status
 * badge's class and text, with JavaScript's `||` fallbacks made explicit.
 */
module RunSummaryView {
  import opened Options
  import opened Schema
  import opened RunState
  import Text
  import RunStatus

  /** `runSummary?.branch_created || 'Waiting...'`. */
  function DisplayedBranchName(summary: Option<Summary>): string {
    if summary.Some? && summary.value.branchCreated.Some? && summary.value.branchCreated.value != "" then
      summary.value.branchCreated.value
    else "Waiting..."
  }

  /** `runSummary?.repository_url || repoUrl || 'N/A'`. */
  function DisplayedRepo(summary: Option<Summary>, repoUrl: string): string {
    if summary.Some? && summary.value.repositoryUrl.Some? && summary.value.repositoryUrl.value != "" then
      summary.value.repositoryUrl.value
    else if repoUrl != "" then repoUrl
    else "N/A"
  }

  lemma DisplayedBranchNameCases(summary: Option<Summary>, branch: string)
    ensures summary.Some? && summary.value.branchCreated == Some(branch) && branch != "" ==>
      DisplayedBranchName(summary) == branch
    ensures (summary.None? || summary.value.branchCreated.None? || summary.value.branchCreated == Some("")) ==>
      DisplayedBranchName(summary) == "Waiting..."
    ensures DisplayedBranchName(summary) != ""
  {
  }

  lemma DisplayedRepoCases(summary: Option<Summary>, repoUrl: string)
    ensures summary.Some? && summary.value.repositoryUrl.Some? && summary.value.repositoryUrl.value != "" ==>
      DisplayedRepo(summary, repoUrl) == summary.value.repositoryUrl.value
    ensures (summary.None? || summary.value.repositoryUrl.None? || summary.value.repositoryUrl == Some("")) ==>
      DisplayedRepo(summary, repoUrl) == (if repoUrl != "" then repoUrl else "N/A")
    ensures DisplayedRepo(summary, repoUrl) != ""
  {
  }

  function BadgeClass(status: Status): string {
    if status == Completed then "bg-green-500/20 text-green-500"
    else if status == Failed then "bg-red-500/20 text-red-500"
    else if status == Running then "bg-yellow-500/20 text-yellow-500"
    else "bg-gray-500/20 text-gray-500"
  }

  /** `status === 'completed' ? 'PASSED' : (status?.toUpperCase() || 'IDLE')`. */
  function BadgeText(status: Status): string {
    if status == Completed then "PASSED"
    else
      var upper := Text.Upper(RunStatus.StatusName(status));
      if upper != "" then upper else "IDLE"
  }

  /** The badge text is the hook's label: the `'IDLE'` fallback never fires. */
  lemma BadgeTextIsLabel(status: Status)
    ensures BadgeText(status) == RunStatus.StatusLabel(status)
  {
    if status != Completed {
      var name := RunStatus.StatusName(status);
      assert |name| > 0;
      assert |Text.Upper(name)| == |name|;
    }
  }

  /**
   * Each of the badge's four classes belongs to exactly one status, and the
   * badge and the hook's colour single out the same statuses as the neutral
   * (idle) case.
   */
  lemma BadgeClassMatchesColor(status: Status)
    ensures BadgeClass(status) == "bg-green-500/20 text-green-500" <==> status == Completed
    ensures BadgeClass(status) == "bg-red-500/20 text-red-500" <==> status == Failed
    ensures BadgeClass(status) == "bg-yellow-500/20 text-yellow-500" <==> status == Running
    ensures BadgeClass(status) == "bg-gray-500/20 text-gray-500" <==> status == Idle
    ensures BadgeClass(status) == BadgeClass(Idle) <==> RunStatus.StatusColor(status) == RunStatus.StatusColor(Idle)
  {
    if status != Idle {
      assert |BadgeClass(status)| != |BadgeClass(Idle)|;
      assert |RunStatus.StatusColor(status)| != |RunStatus.StatusColor(Idle)|;
    }
  }
}
