/**
 * The issue log: moving an issue between open, fixed and reopened with a
 * resolution, the labels each issue card shows, and the names of the
 * scripts an issue lists.
 */
module IssueLog {
  import opened Wrappers
  import opened Text
  import opened Sequences
  import opened Records
  import opened Storage

  /** The two buttons of the issue dialog. */
  datatype IssueAction = MarkFixed | Reopen

  function TargetStatus(a: IssueAction): IssueStatus {
    match a
    case MarkFixed => Fixed
    case Reopen => Reopened
  }

  /**
   * The patch `handleStatusChange` writes: the new status, and the
   * resolution typed in the dialog when fixing; when reopening the
   * resolution key holds `undefined`, so the saved issue has none.
   */
  function StatusChangePatch(a: IssueAction, resolution: string): (p: IssuePatch)
    ensures p.status == Some(TargetStatus(a))
    ensures a == MarkFixed ==> p.resolution == Some(Some(resolution))
    ensures a == Reopen ==> p.resolution == Some(None)
    ensures p.(status := None, resolution := None) == NoIssueChanges
  {
    NoIssueChanges.(status := Some(TargetStatus(a)), resolution := Some(if a == MarkFixed then Some(resolution) else None))
  }

  /** `handleStatusChange`: the issue with that id takes the new status and resolution, stamped now. */
  method HandleStatusChange(store: Store, issueId: Id, a: IssueAction, resolution: string, now: Timestamp)
    modifies store`issues
    ensures store.issues == UpdateFirst(old(store.issues), IssueIdIs(issueId), ApplyIssuePatch(StatusChangePatch(a, resolution), now))
  {
    store.UpdateIssue(issueId, StatusChangePatch(a, resolution), now);
  }

  /**
   * Which button the dialog enables: "Mark as Fixed" for an issue not fixed,
   * once the resolution is not blank; "Reopen Issue" for a fixed issue.
   */
  function Offered(status: IssueStatus, a: IssueAction, resolution: string): (r: bool)
    ensures r <==>
      && (status, TargetStatus(a)) in {(Open, Fixed), (Reopened, Fixed), (Fixed, Reopened)}
      && (a == MarkFixed ==> !IsBlank(resolution))
  {
    match a
    case MarkFixed => status != Fixed && Trim(resolution) != ""
    case Reopen => status == Fixed
  }

  /** The dialog's transitions are exactly open to fixed, reopened to fixed, and fixed to reopened. */
  lemma OfferedTransitions(status: IssueStatus, a: IssueAction, resolution: string)
    ensures Offered(status, a, resolution) ==>
      (status, TargetStatus(a)) in {(Open, Fixed), (Reopened, Fixed), (Fixed, Reopened)}
    ensures (status, TargetStatus(a)) in {(Open, Fixed), (Reopened, Fixed), (Fixed, Reopened)} && !IsBlank(resolution) ==>
      Offered(status, a, resolution)
    ensures !Offered(status, a, resolution) || status != TargetStatus(a)
  {
  }

  /** An issue has a resolution exactly when it is fixed, and that resolution is not blank. */
  predicate ResolutionConsistent(i: Issue) {
    (i.status == Fixed <==> i.resolution.Some?) && (i.resolution.Some? ==> !IsBlank(i.resolution.value))
  }

  /** An offered status change keeps the issue's resolution consistent with its status. */
  lemma StatusChangeKeepsResolutionConsistent(i: Issue, a: IssueAction, resolution: string, now: Timestamp)
    requires ResolutionConsistent(i)
    requires Offered(i.status, a, resolution)
    ensures var j := ApplyIssuePatch(StatusChangePatch(a, resolution), now)(i);
      ResolutionConsistent(j) && j.status == TargetStatus(a) && j.id == i.id && j.scriptIds == i.scriptIds
  {
  }

  /**
   * The invariant holds of the whole collection after an offered change to
   * the issue the dialog shows, as long as that issue is the stored one.
   */
  lemma StatusChangeKeepsCollectionConsistent(issues: seq<Issue>, issueId: Id, a: IssueAction, resolution: string, now: Timestamp)
    requires forall i :: i in issues ==> ResolutionConsistent(i)
    requires forall i :: i in issues && i.id == issueId ==> Offered(i.status, a, resolution)
    ensures forall i :: i in UpdateFirst(issues, IssueIdIs(issueId), ApplyIssuePatch(StatusChangePatch(a, resolution), now)) ==>
      ResolutionConsistent(i)
  {
    var k := IndexWhere(issues, IssueIdIs(issueId));
    if k != -1 {
      StatusChangeKeepsResolutionConsistent(issues[k], a, resolution, now);
    }
  }

  /** Fixing with a blank resolution is what the disabled button prevents: it would break the invariant. */
  lemma BlankFixBreaksConsistency(i: Issue, now: Timestamp)
    ensures !ResolutionConsistent(ApplyIssuePatch(StatusChangePatch(MarkFixed, "  "), now)(i))
  {
    assert IsWhitespace(' ');
  }

  // ------------------------------------------------------------- the card

  /** `getStatusBadge`'s label. */
  function StatusLabel(status: IssueStatus): (r: string)
    ensures r == "Open" <==> status == Open
    ensures r == "Fixed" <==> status == Fixed
    ensures r == "Reopened" <==> status == Reopened
    ensures r in {"Open", "Fixed", "Reopened"}
  {
    match status
    case Open => "Open"
    case Fixed => "Fixed"
    case Reopened => "Reopened"
  }

  /** `getStatusColor`: fixed issues get the success border, the others the destructive one. */
  function StatusColor(status: IssueStatus): (r: string)
    ensures r == "border-success" <==> status == Fixed
    ensures r == "border-destructive" <==> status != Fixed
  {
    match status
    case Open | Reopened => "border-destructive"
    case Fixed => "border-success"
  }

  /** The name shown for one listed script: its catalogue script id, or "Unknown Script". */
  function ScriptName(scripts: seq<ImportedScript>, id: Id): (r: string)
    ensures (forall x :: x in scripts ==> x.id != id) ==> r == "Unknown Script"
    ensures (exists x :: x in scripts && x.id == id) ==>
      r == scripts[IndexWhere(scripts, ImportedIdIs(id))].script.scriptId
  {
    match Find(scripts, ImportedIdIs(id))
    case None => "Unknown Script"
    case Some(x) => x.script.scriptId
  }

  /** `getScriptNames` before the join: one name per listed id, in order. */
  function ScriptNames(scripts: seq<ImportedScript>, ids: seq<Id>): (r: seq<string>)
    ensures |r| == |ids|
    ensures forall k :: 0 <= k < |ids| ==> r[k] == ScriptName(scripts, ids[k])
  {
    if ids == [] then [] else [ScriptName(scripts, ids[0])] + ScriptNames(scripts, ids[1..])
  }
}
