/**
 * The user's import page: which catalogue scripts a project already holds,
 * and the import button that adds a copy of a script to the project.
 */
module ImportScripts {
  import opened Sequences
  import opened Records
  import opened Storage

  /** `new Set(imported.map(s => s.originalScriptId))`: the catalogue ids the records were copied from. */
  function ImportedIds(imported: seq<ImportedScript>): (r: set<Id>)
    ensures forall id :: id in r <==> exists x :: x in imported && x.originalScriptId == id
  {
    if imported == [] then {}
    else
      var rest := ImportedIds(imported[1..]);
      assert forall x :: x in imported <==> x == imported[0] || x in imported[1..];
      {imported[0].originalScriptId} + rest
  }

  /** `loadData`'s imported set: the catalogue ids of the project's own imports. */
  function LoadImportedIds(store: Store, projectId: Id): (r: set<Id>)
    reads store
    ensures forall id :: id in r <==>
      exists x :: x in store.importedScripts && x.projectId == projectId && x.originalScriptId == id
  {
    ImportedIds(store.GetImportedScripts(projectId))
  }

  /**
   * The import button is enabled exactly for scripts not marked as imported;
   * on freshly loaded marks, that is exactly when no import of the project
   * was copied from the script.
   */
  function CanImport(importedIds: set<Id>, scriptId: Id): (r: bool)
    ensures r <==> forall id :: id in importedIds ==> id != scriptId
  {
    scriptId !in importedIds
  }

  /** On the marks `loadData` builds, the button is enabled exactly for scripts the project holds no copy of. */
  lemma CanImportOnLoad(store: Store, projectId: Id, scriptId: Id)
    ensures CanImport(LoadImportedIds(store, projectId), scriptId) <==>
      forall x :: x in store.importedScripts && x.projectId == projectId ==> x.originalScriptId != scriptId
  {
  }

  /**
   * `handleImport`: without a project nothing happens; otherwise the script is
   * imported into the project (a no-op in the store when the catalogue lacks
   * it) and its id is marked as imported on the page in either case.
   */
  method HandleImport(store: Store, projectId: Id, scriptId: Id, importedIds: set<Id>, freshId: Id)
    returns (newIds: set<Id>)
    requires forall x :: x in store.importedScripts ==> x.id != freshId
    modifies store`importedScripts
    ensures projectId == "" ==> newIds == importedIds && store.importedScripts == old(store.importedScripts)
    ensures projectId != "" ==>
      && newIds == importedIds + {scriptId}
      && store.importedScripts == ImportInto(old(store.importedScripts), store.scripts, scriptId, projectId, freshId)
  {
    if projectId == "" {
      return importedIds;
    }
    store.ImportScript(scriptId, projectId, freshId);
    newIds := importedIds + {scriptId};
  }

  /**
   * When the page's set matches the store and the script is in the catalogue,
   * the set after an import still matches the store.
   */
  lemma ImportKeepsMarksInStep(imported: seq<ImportedScript>, catalogue: seq<Script>, scriptId: Id, projectId: Id, freshId: Id)
    requires exists s :: s in catalogue && s.id == scriptId
    ensures ImportedIds(Filter(ImportInto(imported, catalogue, scriptId, projectId, freshId), ImportedInProject(projectId)))
         == ImportedIds(Filter(imported, ImportedInProject(projectId))) + {scriptId}
  {
    ImportIntoEffect(imported, catalogue, scriptId, projectId, freshId);
    var r := ImportInto(imported, catalogue, scriptId, projectId, freshId);
    var added := r[|imported|];
    assert r == imported + [added];
    FilterConcat(imported, [added], ImportedInProject(projectId));
    assert Filter([added], ImportedInProject(projectId)) == [added];
  }

  /** A script missing from the catalogue is marked as imported although the store holds no copy of it. */
  lemma MissingScriptIsMarkedButNotImported(imported: seq<ImportedScript>, catalogue: seq<Script>, scriptId: Id, projectId: Id, freshId: Id)
    requires forall s :: s in catalogue ==> s.id != scriptId
    requires scriptId !in ImportedIds(Filter(imported, ImportedInProject(projectId)))
    ensures scriptId !in ImportedIds(Filter(ImportInto(imported, catalogue, scriptId, projectId, freshId), ImportedInProject(projectId)))
  {
    ImportIntoEffect(imported, catalogue, scriptId, projectId, freshId);
  }

  /** No two of a project's imports were copied from the same catalogue script. */
  ghost predicate NoDuplicateImports(imported: seq<ImportedScript>) {
    forall i, j :: 0 <= i < j < |imported| && imported[i].projectId == imported[j].projectId ==>
      imported[i].originalScriptId != imported[j].originalScriptId
  }

  /** Importing only through an enabled button never copies a script into a project twice. */
  lemma GuardedImportKeepsImportsDistinct(imported: seq<ImportedScript>, catalogue: seq<Script>, scriptId: Id, projectId: Id, freshId: Id)
    requires NoDuplicateImports(imported)
    requires CanImport(ImportedIds(Filter(imported, ImportedInProject(projectId))), scriptId)
    ensures NoDuplicateImports(ImportInto(imported, catalogue, scriptId, projectId, freshId))
  {
    ImportIntoEffect(imported, catalogue, scriptId, projectId, freshId);
    var r := ImportInto(imported, catalogue, scriptId, projectId, freshId);
    if r != imported {
      var n := |imported|;
      forall i, j | 0 <= i < j < |r| && r[i].projectId == r[j].projectId
        ensures r[i].originalScriptId != r[j].originalScriptId
      {
        if j == n {
          assert r[i] == imported[i];
          assert imported[i] in Filter(imported, ImportedInProject(projectId));
        } else {
          assert r[i] == imported[i] && r[j] == imported[j];
        }
      }
    }
  }
}
