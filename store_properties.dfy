/**
 * Properties of the store's operations that relate several fields or several
 * calls: time stamps, unknown ids, and the behaviours a caller can observe
 * through a sequence of calls on a fresh store.
 */
module StoreProperties {
  import opened Wrappers
  import opened Sequences
  import opened Records
  import opened Storage

  /** Every field other than `updatedAt` is the patch's value when it carries one and the old value otherwise. */
  ghost predicate ScriptFollowsPatch(before: Script, p: ScriptPatch, after: Script) {
    && after.id == p.id.GetOr(before.id)
    && after.scriptId == p.scriptId.GetOr(before.scriptId)
    && after.shortDescription == p.shortDescription.GetOr(before.shortDescription)
    && after.testEnvironment == p.testEnvironment.GetOr(before.testEnvironment)
    && after.testType == p.testType.GetOr(before.testType)
    && after.purpose == p.purpose.GetOr(before.purpose)
    && after.assumptions == p.assumptions.GetOr(before.assumptions)
    && after.expectedResults == p.expectedResults.GetOr(before.expectedResults)
    && after.scriptDetails == p.scriptDetails.GetOr(before.scriptDetails)
    && after.screenshots == p.screenshots.GetOr(before.screenshots)
    && after.subfolderId == p.subfolderId.GetOr(before.subfolderId)
    && after.createdAt == p.createdAt.GetOr(before.createdAt)
  }

  /** Every field other than `updatedAt` is the patch's value when it carries one and the old value otherwise. */
  ghost predicate IssueFollowsPatch(before: Issue, p: IssuePatch, after: Issue) {
    && after.id == p.id.GetOr(before.id)
    && after.issueNumber == p.issueNumber.GetOr(before.issueNumber)
    && after.title == p.title.GetOr(before.title)
    && after.description == p.description.GetOr(before.description)
    && after.status == p.status.GetOr(before.status)
    && after.projectId == p.projectId.GetOr(before.projectId)
    && after.scriptIds == p.scriptIds.GetOr(before.scriptIds)
    && after.screenshots == p.screenshots.GetOr(before.screenshots)
    && after.resolution == p.resolution.GetOr(before.resolution)
    && after.createdAt == p.createdAt.GetOr(before.createdAt)
  }

  /**
   * `updateScript` on a known id: the record's `updatedAt` becomes `now` even
   * when the patch carries its own, every other field follows the patch, and
   * every other record, and the length, stay as they were.
   */
  lemma UpdateScriptStampsNow(scripts: seq<Script>, id: Id, p: ScriptPatch, now: Timestamp)
    requires exists i :: 0 <= i < |scripts| && scripts[i].id == id
    ensures var k := IndexWhere(scripts, ScriptIdIs(id));
      var r := UpdateFirst(scripts, ScriptIdIs(id), ApplyScriptPatch(p, now));
      && 0 <= k && scripts[k].id == id && |r| == |scripts|
      && r[k].updatedAt == now && ScriptFollowsPatch(scripts[k], p, r[k])
      && forall j :: 0 <= j < |scripts| && j != k ==> r[j] == scripts[j]
  {
    var i :| 0 <= i < |scripts| && scripts[i].id == id;
    UpdateFirstAt(scripts, ScriptIdIs(id), ApplyScriptPatch(p, now), i);
    var k := IndexWhere(scripts, ScriptIdIs(id));
    StampedMergeFollowsPatch(scripts[k], p, now);
  }

  lemma StampedMergeFollowsPatch(s: Script, p: ScriptPatch, now: Timestamp)
    ensures ApplyScriptPatch(p, now)(s).updatedAt == now
    ensures ScriptFollowsPatch(s, p, ApplyScriptPatch(p, now)(s))
  {
  }

  /**
   * `updateIssue` on a known id: the record's `updatedAt` becomes `now` even
   * when the patch carries its own, every other field follows the patch, and
   * every other record, and the length, stay as they were.
   */
  lemma UpdateIssueStampsNow(issues: seq<Issue>, id: Id, p: IssuePatch, now: Timestamp)
    requires exists j :: 0 <= j < |issues| && issues[j].id == id
    ensures var k := IndexWhere(issues, IssueIdIs(id));
      var r := UpdateFirst(issues, IssueIdIs(id), ApplyIssuePatch(p, now));
      && 0 <= k && issues[k].id == id && |r| == |issues|
      && r[k].updatedAt == now && IssueFollowsPatch(issues[k], p, r[k])
      && forall j :: 0 <= j < |issues| && j != k ==> r[j] == issues[j]
  {
    var j :| 0 <= j < |issues| && issues[j].id == id;
    UpdateFirstAt(issues, IssueIdIs(id), ApplyIssuePatch(p, now), j);
    var k := IndexWhere(issues, IssueIdIs(id));
    StampedIssueMergeFollowsPatch(issues[k], p, now);
  }

  lemma StampedIssueMergeFollowsPatch(i: Issue, p: IssuePatch, now: Timestamp)
    ensures ApplyIssuePatch(p, now)(i).updatedAt == now
    ensures IssueFollowsPatch(i, p, ApplyIssuePatch(p, now)(i))
  {
  }

  /** `updateImportedScript` leaves `completedAt` alone unless the patch itself sets it. */
  lemma UpdateImportedScriptHasNoClock(imported: seq<ImportedScript>, id: Id, p: ImportedScriptPatch)
    requires p.completedAt.None?
    ensures var r := UpdateFirst(imported, ImportedIdIs(id), ApplyImportedScriptPatch(p));
      forall j :: 0 <= j < |r| ==> r[j].completedAt == imported[j].completedAt
  {
  }

  /** Updating an id no record has leaves the collection exactly as it was. */
  lemma UpdateUnknownIdIsNoop(folders: seq<Folder>, id: Id, p: FolderPatch)
    requires forall f :: f in folders ==> f.id != id
    ensures UpdateFirst(folders, FolderIdIs(id), ApplyFolderPatch(p)) == folders
  {
    assert forall i :: 0 <= i < |folders| ==> !FolderIdIs(id)(folders[i]) by {
      forall i | 0 <= i < |folders| ensures !FolderIdIs(id)(folders[i]) {
        assert folders[i] in folders;
      }
    }
  }

  /** Deleting an id no script has leaves the catalogue exactly as it was. */
  lemma DeleteUnknownScriptIsNoop(scripts: seq<Script>, id: Id)
    requires forall s :: s in scripts ==> s.id != id
    ensures Filter(scripts, SurvivesScriptDelete(id)) == scripts
  {
    FilterKeepsAll(scripts, SurvivesScriptDelete(id));
  }

  /**
   * Deleting a root folder takes its subfolder with it in the same write, but a
   * script filed under that subfolder stays in the catalogue, now orphaned.
   */
  method CascadeDeleteScenario(rootName: string, subName: string, draft: Script,
                               rootId: Id, subId: Id, scriptId: Id, now: Timestamp)
    returns (folders: seq<Folder>, scripts: seq<Script>)
    requires rootId != subId
    ensures folders == []
    ensures |scripts| == 1 && scripts[0].id == scriptId && scripts[0].subfolderId == subId
  {
    var store := new Store();
    var root := store.AddFolder(Folder("", rootName, None, false), rootId);
    var sub := store.AddFolder(Folder("", subName, Some(root.id), true), subId);
    var script := store.AddScript(draft.(subfolderId := sub.id), scriptId, now);
    store.DeleteFolder(root.id);
    folders, scripts := store.folders, store.scripts;
  }

  /**
   * An imported copy is a snapshot: editing the catalogue script afterwards
   * (here its short description) does not reach the copy.
   */
  method SnapshotIsolationScenario(draft: Script, scriptId: Id, projectId: Id, importId: Id,
                                   changed: string, created: Timestamp, edited: Timestamp)
    returns (snapshot: Script, current: Script)
    ensures snapshot == draft.(id := scriptId, createdAt := created, updatedAt := created)
    ensures current.shortDescription == changed && current.updatedAt == edited
    ensures current.createdAt == snapshot.createdAt
  {
    var store := new Store();
    var script := store.AddScript(draft, scriptId, created);
    store.ImportScript(script.id, projectId, importId);
    assert store.importedScripts == [NewImport(importId, scriptId, projectId, script)];
    store.UpdateScript(script.id, NoScriptChanges.(shortDescription := Some(changed)), edited);
    assert ScriptIdIs(scriptId)(store.scripts[0]);
    snapshot, current := store.importedScripts[0].script, store.scripts[0];
  }

  /**
   * Issue numbers count per project: two issues in one project get 1 and 2,
   * and the first issue of another project gets 1 again.
   */
  method IssueNumberingScenario(draft: Issue, first: Id, second: Id, third: Id, otherProject: Id, now: Timestamp)
    returns (a: int, b: int, c: int)
    requires first != second && first != third && second != third
    requires otherProject != draft.projectId
    ensures a == 1 && b == 2 && c == 1
  {
    var store := new Store();
    var i1 := store.AddIssue(draft, first, now);
    NextIssueNumberAdvances([], i1, draft.projectId);
    var i2 := store.AddIssue(draft, second, now);
    NextIssueNumberIgnoresOtherProjects([i1], i2, otherProject);
    NextIssueNumberIgnoresOtherProjects([], i1, otherProject);
    var i3 := store.AddIssue(draft.(projectId := otherProject), third, now);
    a, b, c := i1.issueNumber, i2.issueNumber, i3.issueNumber;
  }

  /**
   * Importing the same script twice into the same project yields two records
   * with different ids that both point at the same catalogue script.
   */
  method DuplicateImportScenario(draft: Script, scriptId: Id, projectId: Id, firstId: Id, secondId: Id, now: Timestamp)
    returns (imported: seq<ImportedScript>)
    requires firstId != secondId
    ensures |imported| == 2
    ensures imported[0].id == firstId && imported[1].id == secondId
    ensures imported[0].originalScriptId == imported[1].originalScriptId == scriptId
    ensures imported[0].projectId == imported[1].projectId == projectId
  {
    var store := new Store();
    var script := store.AddScript(draft, scriptId, now);
    store.ImportScript(scriptId, projectId, firstId);
    assert ScriptIdIs(scriptId)(store.scripts[0]);
    store.ImportScript(scriptId, projectId, secondId);
    imported := store.importedScripts;
  }

  /** `addScript` stamps both times with `now`; a later `updateScript` keeps `createdAt` and moves `updatedAt`. */
  method TimestampScenario(draft: Script, scriptId: Id, created: Timestamp, edited: Timestamp, p: ScriptPatch)
    returns (added: Script, updated: Script)
    requires p.createdAt.None?
    ensures added.createdAt == added.updatedAt == created
    ensures updated.createdAt == created && updated.updatedAt == edited
  {
    var store := new Store();
    added := store.AddScript(draft, scriptId, created);
    store.UpdateScript(scriptId, p, edited);
    assert ScriptIdIs(scriptId)([added][0]);
    assert store.scripts[0] == ApplyScriptPatch(p, edited)(added);
    updated := store.scripts[0];
    assert updated == MergeScript(added, p).(updatedAt := edited);
  }
}
