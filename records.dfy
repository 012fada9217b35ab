/**
 * The five kinds of persisted records, the screenshots they carry, and the
 * partial updates (`Partial<T>` in the source) that `update*` operations merge
 * into them with object spread.
 *
 * In a patch, `None` means "key not present, keep the field". An optional
 * record field has a patch field of type `Option<Option<T>>`: `Some(None)`
 * is the key present with value `undefined`, which the JSON round trip turns
 * into an absent field.
 */
module Records {
  import opened Wrappers

  type Id = string
  /** An ISO-8601 time stamp, taken as an opaque string. */
  type Timestamp = string

  datatype Screenshot = Screenshot(id: Id, filename: string, description: string, path: string)

  datatype Folder = Folder(id: Id, name: string, parentId: Option<Id>, isSubfolder: bool)

  datatype TestEnvironment = Online | Batch | OnlineAndBatch
  datatype TestType = Positive | Negative

  datatype Script = Script(
    id: Id,
    scriptId: string,
    shortDescription: string,
    testEnvironment: TestEnvironment,
    testType: TestType,
    purpose: string,
    assumptions: seq<string>,
    expectedResults: string,
    scriptDetails: string,
    screenshots: seq<Screenshot>,
    subfolderId: Id,
    createdAt: Timestamp,
    updatedAt: Timestamp)

  datatype Project = Project(id: Id, name: string, createdAt: Timestamp, userId: string)

  /** The execution state of an imported script: 'pending' | 'in-progress' | 'completed'. */
  datatype ExecutionStatus = Pending | InProgress | Completed

  datatype ImportedScript = ImportedScript(
    id: Id,
    originalScriptId: Id,
    projectId: Id,
    script: Script,
    status: ExecutionStatus,
    remarks: Option<string>,
    testScreenshots: seq<Screenshot>,
    issues: seq<Id>,
    completedAt: Option<Timestamp>)

  /** The state of an issue: 'open' | 'fixed' | 'reopened'. */
  datatype IssueStatus = Open | Fixed | Reopened

  datatype Issue = Issue(
    id: Id,
    issueNumber: int,
    title: string,
    description: string,
    status: IssueStatus,
    projectId: Id,
    scriptIds: seq<Id>,
    screenshots: seq<Screenshot>,
    resolution: Option<string>,
    createdAt: Timestamp,
    updatedAt: Timestamp)

  // ---------------------------------------------------------------- patches

  datatype FolderPatch = FolderPatch(
    id: Option<Id>, name: Option<string>, parentId: Option<Option<Id>>, isSubfolder: Option<bool>)

  const NoFolderChanges := FolderPatch(None, None, None, None)

  datatype ScriptPatch = ScriptPatch(
    id: Option<Id>,
    scriptId: Option<string>,
    shortDescription: Option<string>,
    testEnvironment: Option<TestEnvironment>,
    testType: Option<TestType>,
    purpose: Option<string>,
    assumptions: Option<seq<string>>,
    expectedResults: Option<string>,
    scriptDetails: Option<string>,
    screenshots: Option<seq<Screenshot>>,
    subfolderId: Option<Id>,
    createdAt: Option<Timestamp>,
    updatedAt: Option<Timestamp>)

  const NoScriptChanges := ScriptPatch(None, None, None, None, None, None, None, None, None, None, None, None, None)

  datatype ImportedScriptPatch = ImportedScriptPatch(
    id: Option<Id>,
    originalScriptId: Option<Id>,
    projectId: Option<Id>,
    script: Option<Script>,
    status: Option<ExecutionStatus>,
    remarks: Option<Option<string>>,
    testScreenshots: Option<seq<Screenshot>>,
    issues: Option<seq<Id>>,
    completedAt: Option<Option<Timestamp>>)

  const NoImportedScriptChanges := ImportedScriptPatch(None, None, None, None, None, None, None, None, None)

  datatype IssuePatch = IssuePatch(
    id: Option<Id>,
    issueNumber: Option<int>,
    title: Option<string>,
    description: Option<string>,
    status: Option<IssueStatus>,
    projectId: Option<Id>,
    scriptIds: Option<seq<Id>>,
    screenshots: Option<seq<Screenshot>>,
    resolution: Option<Option<string>>,
    createdAt: Option<Timestamp>,
    updatedAt: Option<Timestamp>)

  const NoIssueChanges := IssuePatch(None, None, None, None, None, None, None, None, None, None, None)

  // ------------------------------------------------- merges: `{ ...r, ...p }`

  function MergeFolder(f: Folder, p: FolderPatch): Folder {
    Folder(p.id.GetOr(f.id), p.name.GetOr(f.name), p.parentId.GetOr(f.parentId), p.isSubfolder.GetOr(f.isSubfolder))
  }

  function MergeScript(s: Script, p: ScriptPatch): Script {
    Script(
      p.id.GetOr(s.id), p.scriptId.GetOr(s.scriptId), p.shortDescription.GetOr(s.shortDescription),
      p.testEnvironment.GetOr(s.testEnvironment), p.testType.GetOr(s.testType), p.purpose.GetOr(s.purpose),
      p.assumptions.GetOr(s.assumptions), p.expectedResults.GetOr(s.expectedResults),
      p.scriptDetails.GetOr(s.scriptDetails), p.screenshots.GetOr(s.screenshots),
      p.subfolderId.GetOr(s.subfolderId), p.createdAt.GetOr(s.createdAt), p.updatedAt.GetOr(s.updatedAt))
  }

  function MergeImportedScript(x: ImportedScript, p: ImportedScriptPatch): ImportedScript {
    ImportedScript(
      p.id.GetOr(x.id), p.originalScriptId.GetOr(x.originalScriptId), p.projectId.GetOr(x.projectId),
      p.script.GetOr(x.script), p.status.GetOr(x.status), p.remarks.GetOr(x.remarks),
      p.testScreenshots.GetOr(x.testScreenshots), p.issues.GetOr(x.issues), p.completedAt.GetOr(x.completedAt))
  }

  function MergeIssue(i: Issue, p: IssuePatch): Issue {
    Issue(
      p.id.GetOr(i.id), p.issueNumber.GetOr(i.issueNumber), p.title.GetOr(i.title),
      p.description.GetOr(i.description), p.status.GetOr(i.status), p.projectId.GetOr(i.projectId),
      p.scriptIds.GetOr(i.scriptIds), p.screenshots.GetOr(i.screenshots), p.resolution.GetOr(i.resolution),
      p.createdAt.GetOr(i.createdAt), p.updatedAt.GetOr(i.updatedAt))
  }

  // ------------------------------------- the conditions and edits as values

  function FolderIdIs(id: Id): Folder -> bool { (f: Folder) => f.id == id }
  function ScriptIdIs(id: Id): Script -> bool { (s: Script) => s.id == id }
  function ImportedIdIs(id: Id): ImportedScript -> bool { (x: ImportedScript) => x.id == id }
  function IssueIdIs(id: Id): Issue -> bool { (i: Issue) => i.id == id }

  /** `updateFolder`'s edit: the spread merge. */
  function ApplyFolderPatch(p: FolderPatch): Folder -> Folder { (f: Folder) => MergeFolder(f, p) }

  /** `updateScript`'s edit: the spread merge, then `updatedAt: now`, which wins over the patch's own. */
  function ApplyScriptPatch(p: ScriptPatch, now: Timestamp): Script -> Script {
    (s: Script) => MergeScript(s, p).(updatedAt := now)
  }

  /** `updateImportedScript`'s edit: the spread merge and no time stamp. */
  function ApplyImportedScriptPatch(p: ImportedScriptPatch): ImportedScript -> ImportedScript {
    (x: ImportedScript) => MergeImportedScript(x, p)
  }

  /** `updateIssue`'s edit: the spread merge, then `updatedAt: now`, which wins over the patch's own. */
  function ApplyIssuePatch(p: IssuePatch, now: Timestamp): Issue -> Issue {
    (i: Issue) => MergeIssue(i, p).(updatedAt := now)
  }
}
