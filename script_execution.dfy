/**
 * The execution page of one imported script: saving progress, marking the
 * script complete, and raising a new issue against it or linking an
 * existing one, which records the link on both sides.
 */
module ScriptExecution {
  import opened Wrappers
  import opened Text
  import opened Sequences
  import opened Records
  import opened Storage

  // ------------------------------------------------------ loading and saving

  /** The remarks box starts from the stored remarks, or empty when there are none. */
  function LoadedRemarks(x: ImportedScript): string { x.remarks.GetOr("") }

  /** Saving progress starts a pending script and leaves any other state alone. */
  function SaveStatus(s: ExecutionStatus): (r: ExecutionStatus)
    ensures r != Pending
    ensures s == Pending ==> r == InProgress
    ensures s != Pending ==> r == s
  {
    if s == Pending then InProgress else s
  }

  /** The patch `handleSave` writes: the advanced status, the remarks and the test screenshots. */
  function SaveProgressPatch(status: ExecutionStatus, remarks: string, shots: seq<Screenshot>): ImportedScriptPatch {
    NoImportedScriptChanges.(status := Some(SaveStatus(status)), remarks := Some(Some(remarks)), testScreenshots := Some(shots))
  }

  /** The patch `handleMarkComplete` writes: completed, the remarks, the test screenshots and the time. */
  function MarkCompletePatch(remarks: string, shots: seq<Screenshot>, now: Timestamp): ImportedScriptPatch {
    NoImportedScriptChanges.(status := Some(Completed), remarks := Some(Some(remarks)),
                             testScreenshots := Some(shots), completedAt := Some(Some(now)))
  }

  /**
   * Saving takes the page's remarks and screenshots and advances a pending
   * script to in progress; the copied script, the project, the linked issues
   * and any completion time stay as they were.
   */
  lemma SaveEffect(x: ImportedScript, status: ExecutionStatus, remarks: string, shots: seq<Screenshot>)
    ensures var y := ApplyImportedScriptPatch(SaveProgressPatch(status, remarks, shots))(x);
      && y.status == SaveStatus(status) && y.remarks == Some(remarks) && y.testScreenshots == shots
      && y == x.(status := y.status, remarks := y.remarks, testScreenshots := y.testScreenshots)
  {
  }

  /**
   * Opening the page and saving without edits changes only the state, from
   * pending to in progress, and turns absent remarks into empty ones.
   */
  lemma SaveUntouched(x: ImportedScript)
    ensures ApplyImportedScriptPatch(SaveProgressPatch(x.status, LoadedRemarks(x), x.testScreenshots))(x)
         == x.(status := SaveStatus(x.status), remarks := Some(x.remarks.GetOr("")))
  {
  }

  /** Completing records the time and keeps everything but state, remarks and screenshots. */
  lemma MarkCompleteEffect(x: ImportedScript, remarks: string, shots: seq<Screenshot>, now: Timestamp)
    ensures var y := ApplyImportedScriptPatch(MarkCompletePatch(remarks, shots, now))(x);
      && y.status == Completed && y.completedAt == Some(now)
      && y == x.(status := Completed, remarks := Some(remarks), testScreenshots := shots, completedAt := Some(now))
  {
  }

  /** `handleSave`: the record with the page's script id takes the save patch. */
  method HandleSave(store: Store, script: ImportedScript, remarks: string, shots: seq<Screenshot>)
    modifies store`importedScripts
    ensures store.importedScripts ==
      UpdateFirst(old(store.importedScripts), ImportedIdIs(script.id), ApplyImportedScriptPatch(SaveProgressPatch(script.status, remarks, shots)))
  {
    store.UpdateImportedScript(script.id, SaveProgressPatch(script.status, remarks, shots));
  }

  /** `handleMarkComplete`: without a project nothing happens; otherwise the record takes the completion patch. */
  method HandleMarkComplete(store: Store, projectId: Id, script: ImportedScript, remarks: string,
                            shots: seq<Screenshot>, now: Timestamp)
    modifies store`importedScripts
    ensures projectId == "" ==> store.importedScripts == old(store.importedScripts)
    ensures projectId != "" ==>
      store.importedScripts == UpdateFirst(old(store.importedScripts), ImportedIdIs(script.id),
                                           ApplyImportedScriptPatch(MarkCompletePatch(remarks, shots, now)))
  {
    if projectId != "" {
      store.UpdateImportedScript(script.id, MarkCompletePatch(remarks, shots, now));
    }
  }

  // ------------------------------------------------------------- issues

  /** The dialog's choice that creates an issue instead of linking one. */
  const NewIssueChoice := "new"

  /** The issue the dialog hands to `addIssue`: trimmed title and description, open, listing this script. */
  function NewIssueDraft(title: string, description: string, projectId: Id, scriptId: Id): Issue {
    Issue("", 0, Trim(title), Trim(description), Open, projectId, [scriptId], [], None, "", "")
  }

  function NotListing(scriptId: Id): Issue -> bool { (i: Issue) => scriptId !in i.scriptIds }
  function ListedIn(issueIds: seq<Id>): Issue -> bool { (i: Issue) => i.id in issueIds }

  /** The existing issues the dialog offers for linking: those that do not list the script yet. */
  function LinkableIssues(issues: seq<Issue>, scriptId: Id): (r: seq<Issue>)
    ensures forall i :: i in r <==> i in issues && scriptId !in i.scriptIds
    ensures IsSubsequence(r, issues)
  {
    Filter(issues, NotListing(scriptId))
  }

  /** `getLinkedIssues`: the project's issues whose id the script records. */
  function LinkedIssues(issues: seq<Issue>, script: ImportedScript): (r: seq<Issue>)
    ensures forall i :: i in r <==> i in issues && i.id in script.issues
    ensures IsSubsequence(r, issues)
  {
    Filter(issues, ListedIn(script.issues))
  }

  /** The patch that appends one script to an issue. */
  function AddScriptPatch(existing: Issue, scriptId: Id): IssuePatch {
    NoIssueChanges.(scriptIds := Some(existing.scriptIds + [scriptId]))
  }

  /** The patch that appends one issue to the script, after the issues the page loaded. */
  function AddIssuePatch(script: ImportedScript, issueId: Id): ImportedScriptPatch {
    NoImportedScriptChanges.(issues := Some(script.issues + [issueId]))
  }

  /** What a press of the dialog's button did. */
  datatype RaiseOutcome = NothingWritten | Created(issue: Issue) | Linked(issueId: Id)

  /**
   * `handleRaiseIssue`. Without a project nothing is written. For "new", a
   * blank title or description writes nothing; otherwise an open issue is
   * added and its id appended to the script's issues. For an existing issue
   * found among the loaded ones that does not list the script yet, the
   * script is appended to the issue and the issue to the script. Anything
   * else writes nothing.
   */
  method HandleRaiseIssue(store: Store, projectId: Id, script: ImportedScript, loaded: seq<Issue>,
                          selected: string, title: string, description: string, freshId: Id, now: Timestamp)
    returns (outcome: RaiseOutcome)
    requires forall i :: i in store.issues ==> i.id != freshId
    modifies store`issues, store`importedScripts
    ensures outcome.NothingWritten? ==>
      store.issues == old(store.issues) && store.importedScripts == old(store.importedScripts)
    ensures outcome.Created? <==> projectId != "" && selected == NewIssueChoice && !IsBlank(title) && !IsBlank(description)
    ensures outcome.Created? ==>
      && outcome.issue == NewIssueDraft(title, description, projectId, script.id)
           .(id := freshId, issueNumber := NextIssueNumber(old(store.issues), projectId), createdAt := now, updatedAt := now)
      && store.issues == old(store.issues) + [outcome.issue]
      && store.importedScripts == UpdateFirst(old(store.importedScripts), ImportedIdIs(script.id), ApplyImportedScriptPatch(AddIssuePatch(script, freshId)))
    ensures outcome.Linked? <==>
      && projectId != "" && selected != NewIssueChoice && selected != ""
      && Find(loaded, IssueIdIs(selected)).Some? && script.id !in Find(loaded, IssueIdIs(selected)).value.scriptIds
    ensures outcome.Linked? ==>
      && outcome.issueId == selected
      && store.issues == UpdateFirst(old(store.issues), IssueIdIs(selected), ApplyIssuePatch(AddScriptPatch(Find(loaded, IssueIdIs(selected)).value, script.id), now))
      && store.importedScripts == UpdateFirst(old(store.importedScripts), ImportedIdIs(script.id), ApplyImportedScriptPatch(AddIssuePatch(script, selected)))
  {
    if projectId == "" {
      return NothingWritten;
    }
    if selected == NewIssueChoice {
      if Trim(title) == "" || Trim(description) == "" {
        return NothingWritten;
      }
      var issue := store.AddIssue(NewIssueDraft(title, description, projectId, script.id), freshId, now);
      store.UpdateImportedScript(script.id, AddIssuePatch(script, issue.id));
      return Created(issue);
    } else if selected != "" {
      var existing := Find(loaded, IssueIdIs(selected));
      if existing.Some? && script.id !in existing.value.scriptIds {
        store.UpdateIssue(selected, AddScriptPatch(existing.value, script.id), now);
        store.UpdateImportedScript(script.id, AddIssuePatch(script, selected));
        return Linked(selected);
      }
    }
    return NothingWritten;
  }

  // ---------------------------------------------------- the two-way link

  /** The first issue with that id lists the script. */
  ghost predicate IssueListsScript(issues: seq<Issue>, issueId: Id, scriptId: Id) {
    var k := IndexWhere(issues, IssueIdIs(issueId));
    k != -1 && scriptId in issues[k].scriptIds
  }

  /** The first imported script with that id records the issue. */
  ghost predicate ScriptListsIssue(imported: seq<ImportedScript>, scriptId: Id, issueId: Id) {
    var k := IndexWhere(imported, ImportedIdIs(scriptId));
    k != -1 && issueId in imported[k].issues
  }

  /** A created issue lists the script, and the script, when stored, records the issue. */
  lemma CreatedIssueIsLinkedBothWays(issues: seq<Issue>, imported: seq<ImportedScript>, script: ImportedScript,
                                     created: Issue, freshId: Id)
    requires forall i :: i in issues ==> i.id != freshId
    requires created.id == freshId && script.id in created.scriptIds
    requires IndexWhere(imported, ImportedIdIs(script.id)) != -1
    ensures IssueListsScript(issues + [created], freshId, script.id)
    ensures ScriptListsIssue(UpdateFirst(imported, ImportedIdIs(script.id), ApplyImportedScriptPatch(AddIssuePatch(script, freshId))),
                             script.id, freshId)
  {
    var all := issues + [created];
    assert IssueIdIs(freshId)(all[|issues|]);
    forall j | 0 <= j < |issues| ensures !IssueIdIs(freshId)(all[j]) {
      assert all[j] in issues;
    }
    UpdateFirstKeepsIndex(imported, ImportedIdIs(script.id), ApplyImportedScriptPatch(AddIssuePatch(script, freshId)));
  }

  /** A linked issue lists the script, and the script, when stored, records the issue. */
  lemma LinkedIssueIsLinkedBothWays(issues: seq<Issue>, imported: seq<ImportedScript>, script: ImportedScript,
                                    existing: Issue, selected: Id, now: Timestamp)
    requires IndexWhere(issues, IssueIdIs(selected)) != -1
    requires IndexWhere(imported, ImportedIdIs(script.id)) != -1
    ensures IssueListsScript(UpdateFirst(issues, IssueIdIs(selected), ApplyIssuePatch(AddScriptPatch(existing, script.id), now)),
                             selected, script.id)
    ensures ScriptListsIssue(UpdateFirst(imported, ImportedIdIs(script.id), ApplyImportedScriptPatch(AddIssuePatch(script, selected))),
                             script.id, selected)
  {
    UpdateFirstKeepsIndex(issues, IssueIdIs(selected), ApplyIssuePatch(AddScriptPatch(existing, script.id), now));
    UpdateFirstKeepsIndex(imported, ImportedIdIs(script.id), ApplyImportedScriptPatch(AddIssuePatch(script, selected)));
  }

  ghost predicate DistinctIssueIds(issues: seq<Issue>) {
    forall i, j :: 0 <= i < j < |issues| ==> issues[i].id != issues[j].id
  }

  /**
   * With distinct ids, every issue the dialog offers can be linked: picking
   * it finds that very issue, which does not list the script yet.
   */
  lemma OfferedIssueCanBeLinked(loaded: seq<Issue>, scriptId: Id, offered: Issue)
    requires DistinctIssueIds(loaded)
    requires offered in LinkableIssues(loaded, scriptId)
    ensures Find(loaded, IssueIdIs(offered.id)) == Some(offered)
    ensures scriptId !in Find(loaded, IssueIdIs(offered.id)).value.scriptIds
  {
    var j :| 0 <= j < |loaded| && loaded[j] == offered;
    var k := IndexWhere(loaded, IssueIdIs(offered.id));
    assert IssueIdIs(offered.id)(loaded[j]);
    assert k != -1 && k <= j;
    assert k == j;
  }

  /** With distinct ids, once an issue is linked it is no longer offered for the same script. */
  lemma LinkedIssueIsNoLongerOffered(issues: seq<Issue>, existing: Issue, selected: Id, scriptId: Id, now: Timestamp)
    requires DistinctIssueIds(issues)
    ensures var r := UpdateFirst(issues, IssueIdIs(selected), ApplyIssuePatch(AddScriptPatch(existing, scriptId), now));
      forall i :: i in LinkableIssues(r, scriptId) ==> i.id != selected
  {
    var r := UpdateFirst(issues, IssueIdIs(selected), ApplyIssuePatch(AddScriptPatch(existing, scriptId), now));
    var k := IndexWhere(issues, IssueIdIs(selected));
    forall i | i in LinkableIssues(r, scriptId) ensures i.id != selected {
      var j :| 0 <= j < |r| && r[j] == i;
      if k == -1 {
        assert !IssueIdIs(selected)(issues[j]);
      } else if j != k {
        assert r[j] == issues[j];
        assert issues[j].id != issues[k].id;
      }
    }
  }
}
