/**
 * The test lab: a project's imported scripts split into tabs by execution
 * state, the issues still open against each, and the badge and action
 * button each script card shows.
 */
module TestLab {
  import opened Sequences
  import opened Records

  /** An issue that lists the script and is not fixed. */
  function UnfixedIssueOf(scriptId: Id): Issue -> bool {
    (i: Issue) => scriptId in i.scriptIds && i.status != Fixed
  }

  /** `getScriptIssues`: the issues that list the script and are not fixed, in order. */
  function ScriptIssues(issues: seq<Issue>, scriptId: Id): (r: seq<Issue>)
    ensures forall i :: i in r <==> i in issues && scriptId in i.scriptIds && i.status != Fixed
    ensures IsSubsequence(r, issues)
  {
    Filter(issues, UnfixedIssueOf(scriptId))
  }

  function IsCompleted(): ImportedScript -> bool { (x: ImportedScript) => x.status == Completed }
  function IsNotCompleted(): ImportedScript -> bool {
    (x: ImportedScript) => x.status == Pending || x.status == InProgress
  }
  function HasUnfixedIssues(issues: seq<Issue>): ImportedScript -> bool {
    (x: ImportedScript) => x.status != Completed && ScriptIssues(issues, x.id) != []
  }

  /** The "Completed" tab. */
  function CompletedScripts(scripts: seq<ImportedScript>): (r: seq<ImportedScript>)
    ensures forall x :: x in r <==> x in scripts && x.status == Completed
    ensures IsSubsequence(r, scripts)
  {
    Filter(scripts, IsCompleted())
  }

  /** The "Pending" tab: scripts pending or in progress. */
  function PendingScripts(scripts: seq<ImportedScript>): (r: seq<ImportedScript>)
    ensures forall x :: x in r <==> x in scripts && x.status != Completed
    ensures IsSubsequence(r, scripts)
  {
    Filter(scripts, IsNotCompleted())
  }

  /** The "With Issues" tab: unfinished scripts with at least one unfixed issue. */
  function ScriptsWithIssues(scripts: seq<ImportedScript>, issues: seq<Issue>): (r: seq<ImportedScript>)
    ensures forall x :: x in r <==>
      x in scripts && x.status != Completed && exists i :: i in issues && x.id in i.scriptIds && i.status != Fixed
    ensures IsSubsequence(r, scripts)
  {
    var r := Filter(scripts, HasUnfixedIssues(issues));
    assert forall x :: x in r <==>
      x in scripts && x.status != Completed && exists i :: i in issues && x.id in i.scriptIds && i.status != Fixed
    by {
      forall x: ImportedScript
        ensures ScriptIssues(issues, x.id) != [] <==> exists i :: i in ScriptIssues(issues, x.id)
      {
        var l := ScriptIssues(issues, x.id);
        if l != [] {
          assert l[0] in l;
        }
      }
    }
    r
  }

  /** The Completed and Pending tabs split the project's scripts: each script is in exactly one. */
  lemma {:induction false} TabsPartitionScripts(scripts: seq<ImportedScript>)
    ensures multiset(CompletedScripts(scripts)) + multiset(PendingScripts(scripts)) == multiset(scripts)
    ensures |CompletedScripts(scripts)| + |PendingScripts(scripts)| == |scripts|
  {
    FilterPartition(scripts, IsCompleted(), IsNotCompleted());
  }

  /** The With Issues tab lists a selection of the Pending tab, in the same order. */
  lemma {:induction false} IssuesTabWithinPendingTab(scripts: seq<ImportedScript>, issues: seq<Issue>)
    ensures IsSubsequence(ScriptsWithIssues(scripts, issues), PendingScripts(scripts))
  {
    FilterStronger(scripts, HasUnfixedIssues(issues), IsNotCompleted());
  }

  // ---------------------------------------------------------- the card

  datatype StatusBadge = CompletedBadge | HasIssuesBadge | InProgressBadge | PendingBadge

  /**
   * `getStatusBadge`: completion wins, then unfixed issues, then the
   * execution state.
   */
  function Badge(x: ImportedScript, issues: seq<Issue>): (r: StatusBadge)
    ensures r == CompletedBadge <==> x.status == Completed
    ensures r == HasIssuesBadge <==> x.status != Completed && ScriptIssues(issues, x.id) != []
    ensures r == InProgressBadge <==> x.status == InProgress && ScriptIssues(issues, x.id) == []
    ensures r == PendingBadge <==> x.status == Pending && ScriptIssues(issues, x.id) == []
  {
    match x.status
    case Completed => CompletedBadge
    case _ =>
      if ScriptIssues(issues, x.id) != [] then HasIssuesBadge
      else if x.status == InProgress then InProgressBadge
      else PendingBadge
  }

  datatype ScriptAction = Retarget | Resume | Start

  /** `getActionButton`: the button depends on the execution state alone, not on issues. */
  function Action(x: ImportedScript): (r: ScriptAction)
    ensures r == Retarget <==> x.status == Completed
    ensures r == Resume <==> x.status == InProgress
    ensures r == Start <==> x.status == Pending
  {
    match x.status
    case Completed => Retarget
    case InProgress => Resume
    case Pending => Start
  }

  /** A card sits in a tab exactly when its badge says so. */
  lemma BadgeMatchesTabs(scripts: seq<ImportedScript>, issues: seq<Issue>, x: ImportedScript)
    requires x in scripts
    ensures x in CompletedScripts(scripts) <==> Badge(x, issues) == CompletedBadge
    ensures x in ScriptsWithIssues(scripts, issues) <==> Badge(x, issues) == HasIssuesBadge
    ensures x in PendingScripts(scripts) <==> Badge(x, issues) != CompletedBadge
  {
    var l := ScriptIssues(issues, x.id);
    if l != [] {
      assert l[0] in l;
    }
  }
}
