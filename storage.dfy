/**
 * The relational entity store: five collections (folders, scripts, projects,
 * imported scripts, issues), each read whole, changed and written back whole.
 * A collection is a `seq` field; reading it is reading the field and saving it
 * is assigning the field. Fresh ids and the current time are parameters.
 */
module Storage {
  import opened Wrappers
  import opened Sequences
  import opened Records

  // ------------------------------------------------------ filter conditions

  function OwnedBy(userId: string): Project -> bool { (p: Project) => p.userId == userId }
  function ImportedInProject(projectId: Id): ImportedScript -> bool { (x: ImportedScript) => x.projectId == projectId }
  function IssueInProject(projectId: Id): Issue -> bool { (i: Issue) => i.projectId == projectId }

  /** `deleteFolder`'s filter: neither the folder itself nor one of its direct children. */
  function SurvivesFolderDelete(id: Id): Folder -> bool {
    (f: Folder) => f.id != id && f.parentId != Some(id)
  }

  function SurvivesScriptDelete(id: Id): Script -> bool { (s: Script) => s.id != id }

  // ------------------------------------------------------- issue numbering

  /** `Math.max(0, ...issues.map(i => i.issueNumber))`. */
  function MaxIssueNumber(issues: seq<Issue>): (m: int)
    ensures m >= 0
    ensures forall i :: i in issues ==> i.issueNumber <= m
    ensures m == 0 || exists i :: i in issues && i.issueNumber == m
  {
    if issues == [] then 0
    else
      var rest := MaxIssueNumber(issues[1..]);
      assert forall i :: i in issues[1..] ==> i in issues;
      if issues[0].issueNumber > rest then issues[0].issueNumber else rest
  }

  /**
   * The number `addIssue` gives a new issue of `projectId`: one more than the
   * largest number among that project's issues, 1 when it has none. It is
   * positive and larger than every number already used in the project.
   */
  function NextIssueNumber(issues: seq<Issue>, projectId: Id): (n: int)
    ensures n >= 1
    ensures forall i :: i in issues && i.projectId == projectId ==> i.issueNumber < n
    ensures n == 1 || exists i :: i in issues && i.projectId == projectId && i.issueNumber == n - 1
  {
    MaxIssueNumber(Filter(issues, IssueInProject(projectId))) + 1
  }

  /** The three properties in NextIssueNumber's contract pin the number down. */
  lemma NextIssueNumberIsDetermined(issues: seq<Issue>, projectId: Id, n: int)
    requires n >= 1
    requires forall i :: i in issues && i.projectId == projectId ==> i.issueNumber < n
    requires n == 1 || exists i :: i in issues && i.projectId == projectId && i.issueNumber == n - 1
    ensures n == NextIssueNumber(issues, projectId)
  {
    var m := NextIssueNumber(issues, projectId);
    if n != 1 {
      var i :| i in issues && i.projectId == projectId && i.issueNumber == n - 1;
      assert n <= m;
    }
    if m != 1 {
      var i :| i in issues && i.projectId == projectId && i.issueNumber == m - 1;
      assert m <= n;
    }
  }

  /** Issues of other projects have no effect on a project's next number. */
  lemma NextIssueNumberIgnoresOtherProjects(issues: seq<Issue>, other: Issue, projectId: Id)
    requires other.projectId != projectId
    ensures NextIssueNumber(issues + [other], projectId) == NextIssueNumber(issues, projectId)
  {
    var n := NextIssueNumber(issues + [other], projectId);
    assert forall i :: i in issues + [other] && i.projectId == projectId ==> i in issues;
    NextIssueNumberIsDetermined(issues, projectId, n);
  }

  /** After an issue numbered `NextIssueNumber` joins the project, the next number is one higher. */
  lemma NextIssueNumberAdvances(issues: seq<Issue>, added: Issue, projectId: Id)
    requires added.projectId == projectId && added.issueNumber == NextIssueNumber(issues, projectId)
    ensures NextIssueNumber(issues + [added], projectId) == NextIssueNumber(issues, projectId) + 1
  {
    var n := NextIssueNumber(issues, projectId) + 1;
    assert added in issues + [added];
    assert forall i :: i in issues + [added] ==> i in issues || i == added;
    NextIssueNumberIsDetermined(issues + [added], projectId, n);
  }

  // ---------------------------------------------------------------- import

  /** The record `importScript` appends: a pending copy of `script` with nothing recorded yet. */
  function NewImport(freshId: Id, scriptId: Id, projectId: Id, script: Script): ImportedScript {
    ImportedScript(freshId, scriptId, projectId, script, Pending, None, [], [], None)
  }

  /** The imported-scripts collection after `importScript(scriptId, projectId)`. */
  function ImportInto(imported: seq<ImportedScript>, catalogue: seq<Script>, scriptId: Id, projectId: Id, freshId: Id)
    : seq<ImportedScript>
  {
    match Find(catalogue, ScriptIdIs(scriptId))
    case None => imported
    case Some(script) => imported + [NewImport(freshId, scriptId, projectId, script)]
  }

  /**
   * Importing a script missing from the catalogue changes nothing; otherwise
   * exactly one record is appended, holding a copy of the catalogue's first
   * script with that id, pending, with no screenshots, issues, remarks or
   * completion time. Nothing guards against importing the same script twice.
   */
  lemma ImportIntoEffect(imported: seq<ImportedScript>, catalogue: seq<Script>, scriptId: Id, projectId: Id, freshId: Id)
    ensures var r := ImportInto(imported, catalogue, scriptId, projectId, freshId);
      && ((forall s :: s in catalogue ==> s.id != scriptId) ==> r == imported)
      && ((exists s :: s in catalogue && s.id == scriptId) ==>
            var k := IndexWhere(catalogue, ScriptIdIs(scriptId));
            && |r| == |imported| + 1 && r[..|imported|] == imported
            && r[|imported|].id == freshId
            && r[|imported|].originalScriptId == scriptId && r[|imported|].projectId == projectId
            && r[|imported|].script == catalogue[k] && r[|imported|].script.id == scriptId
            && r[|imported|].status == Pending
            && r[|imported|].testScreenshots == [] && r[|imported|].issues == []
            && r[|imported|].remarks.None? && r[|imported|].completedAt.None?)
  {
    if exists s :: s in catalogue && s.id == scriptId {
      var s :| s in catalogue && s.id == scriptId;
      var j :| 0 <= j < |catalogue| && catalogue[j] == s;
      assert ScriptIdIs(scriptId)(catalogue[j]);
    } else {
      assert forall i :: 0 <= i < |catalogue| ==> !ScriptIdIs(scriptId)(catalogue[i]);
    }
  }

  // ----------------------------------------------------------------- store

  class Store {
    var folders: seq<Folder>
    var scripts: seq<Script>
    var projects: seq<Project>
    var importedScripts: seq<ImportedScript>
    var issues: seq<Issue>

    /** A store none of whose collections has been written: every one of them reads as empty. */
    constructor ()
      ensures folders == [] && scripts == [] && projects == [] && importedScripts == [] && issues == []
    {
      folders, scripts, projects, importedScripts, issues := [], [], [], [], [];
    }

    /** `getProjects(userId)`: the user's projects, in stored order. */
    function GetProjects(userId: string): (r: seq<Project>)
      reads this
      ensures forall p :: p in r <==> p in projects && p.userId == userId
      ensures IsSubsequence(r, projects)
    {
      Filter(projects, OwnedBy(userId))
    }

    /** `getImportedScripts(projectId)`: the project's imported scripts, in stored order. */
    function GetImportedScripts(projectId: Id): (r: seq<ImportedScript>)
      reads this
      ensures forall x :: x in r <==> x in importedScripts && x.projectId == projectId
      ensures IsSubsequence(r, importedScripts)
    {
      Filter(importedScripts, ImportedInProject(projectId))
    }

    /** `getIssues(projectId)`: the project's issues, in stored order. */
    function GetIssues(projectId: Id): (r: seq<Issue>)
      reads this
      ensures forall i :: i in r <==> i in issues && i.projectId == projectId
      ensures IsSubsequence(r, issues)
    {
      Filter(issues, IssueInProject(projectId))
    }

    /** `addFolder`: appends the draft under a fresh id and returns it. */
    method AddFolder(draft: Folder, freshId: Id) returns (folder: Folder)
      requires forall f :: f in folders ==> f.id != freshId
      modifies this`folders
      ensures folder == draft.(id := freshId)
      ensures folders == old(folders) + [folder]
    {
      folder := draft.(id := freshId);
      folders := folders + [folder];
    }

    /** `updateFolder`: merges the patch into the first folder with this id; nothing happens when there is none. */
    method UpdateFolder(id: Id, patch: FolderPatch)
      modifies this`folders
      ensures folders == UpdateFirst(old(folders), FolderIdIs(id), ApplyFolderPatch(patch))
    {
      var index := IndexWhere(folders, FolderIdIs(id));
      if index != -1 {
        folders := folders[index := MergeFolder(folders[index], patch)];
      }
    }

    /** `deleteFolder`: removes the folder and its direct children in one write. */
    method DeleteFolder(id: Id)
      modifies this`folders
      ensures folders == Filter(old(folders), SurvivesFolderDelete(id))
      ensures forall f :: f in folders <==> f in old(folders) && f.id != id && f.parentId != Some(id)
      ensures IsSubsequence(folders, old(folders))
    {
      folders := Filter(folders, SurvivesFolderDelete(id));
    }

    /** `addScript`: appends the draft under a fresh id, created and updated now, and returns it. */
    method AddScript(draft: Script, freshId: Id, now: Timestamp) returns (script: Script)
      requires forall s :: s in scripts ==> s.id != freshId
      modifies this`scripts
      ensures script == draft.(id := freshId, createdAt := now, updatedAt := now)
      ensures script.createdAt == script.updatedAt
      ensures scripts == old(scripts) + [script]
    {
      script := draft.(id := freshId, createdAt := now, updatedAt := now);
      scripts := scripts + [script];
    }

    /** `updateScript`: merges the patch into the first script with this id and stamps it with `now`. */
    method UpdateScript(id: Id, patch: ScriptPatch, now: Timestamp)
      modifies this`scripts
      ensures scripts == UpdateFirst(old(scripts), ScriptIdIs(id), ApplyScriptPatch(patch, now))
    {
      var index := IndexWhere(scripts, ScriptIdIs(id));
      if index != -1 {
        scripts := scripts[index := MergeScript(scripts[index], patch).(updatedAt := now)];
      }
    }

    /** `deleteScript`: removes every script with this id; imported copies are not touched. */
    method DeleteScript(id: Id)
      modifies this`scripts
      ensures scripts == Filter(old(scripts), SurvivesScriptDelete(id))
      ensures forall s :: s in scripts <==> s in old(scripts) && s.id != id
      ensures IsSubsequence(scripts, old(scripts))
    {
      scripts := Filter(scripts, SurvivesScriptDelete(id));
    }

    /** `addProject`: appends a new project owned by `userId` and returns it. */
    method AddProject(name: string, userId: string, freshId: Id, now: Timestamp) returns (project: Project)
      requires forall p :: p in projects ==> p.id != freshId
      modifies this`projects
      ensures project == Project(freshId, name, now, userId)
      ensures projects == old(projects) + [project]
    {
      project := Project(freshId, name, now, userId);
      projects := projects + [project];
    }

    /** `importScript`: appends a snapshot of the catalogue script, or does nothing when it is missing. */
    method ImportScript(scriptId: Id, projectId: Id, freshId: Id)
      requires forall x :: x in importedScripts ==> x.id != freshId
      modifies this`importedScripts
      ensures importedScripts == ImportInto(old(importedScripts), scripts, scriptId, projectId, freshId)
    {
      var script := Find(scripts, ScriptIdIs(scriptId));
      if script.None? {
        return;
      }
      var imported := NewImport(freshId, scriptId, projectId, script.value);
      importedScripts := importedScripts + [imported];
    }

    /** `updateImportedScript`: merges the patch into the first record with this id; no time stamp. */
    method UpdateImportedScript(id: Id, patch: ImportedScriptPatch)
      modifies this`importedScripts
      ensures importedScripts == UpdateFirst(old(importedScripts), ImportedIdIs(id), ApplyImportedScriptPatch(patch))
    {
      var index := IndexWhere(importedScripts, ImportedIdIs(id));
      if index != -1 {
        importedScripts := importedScripts[index := MergeImportedScript(importedScripts[index], patch)];
      }
    }

    /** `addIssue`: numbers the draft within its project, appends it under a fresh id and returns it. */
    method AddIssue(draft: Issue, freshId: Id, now: Timestamp) returns (issue: Issue)
      requires forall i :: i in issues ==> i.id != freshId
      modifies this`issues
      ensures issue == draft.(id := freshId, issueNumber := NextIssueNumber(old(issues), draft.projectId),
                              createdAt := now, updatedAt := now)
      ensures issues == old(issues) + [issue]
    {
      var projectIssues := Filter(issues, IssueInProject(draft.projectId));
      var nextIssueNumber := MaxIssueNumber(projectIssues) + 1;
      issue := draft.(id := freshId, issueNumber := nextIssueNumber, createdAt := now, updatedAt := now);
      issues := issues + [issue];
    }

    /** `updateIssue`: merges the patch into the first issue with this id and stamps it with `now`. */
    method UpdateIssue(id: Id, patch: IssuePatch, now: Timestamp)
      modifies this`issues
      ensures issues == UpdateFirst(old(issues), IssueIdIs(id), ApplyIssuePatch(patch, now))
    {
      var index := IndexWhere(issues, IssueIdIs(id));
      if index != -1 {
        issues := issues[index := MergeIssue(issues[index], patch).(updatedAt := now)];
      }
    }
  }
}
