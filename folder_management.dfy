/**
 * The folder administration page: creating and renaming folders through one
 * form, the root/subfolder views, and the two-level shape the form keeps.
 */
module FolderManagement {
  import opened Wrappers
  import opened Text
  import opened Sequences
  import opened Records
  import opened Storage

  function IsRoot(f: Folder): bool { !f.isSubfolder }
  function ChildOf(parentId: Id): Folder -> bool { (f: Folder) => f.parentId == Some(parentId) }

  /** `mainFolders`: the root folders, in order; they are also the only parent choices the form offers. */
  function MainFolders(folders: seq<Folder>): (r: seq<Folder>)
    ensures forall f :: f in r <==> f in folders && !f.isSubfolder
    ensures IsSubsequence(r, folders)
  {
    Filter(folders, IsRoot)
  }

  /** `getSubfolders(parentId)`: the folders whose parent id is `parentId`, in order. */
  function Subfolders(folders: seq<Folder>, parentId: Id): (r: seq<Folder>)
    ensures forall f :: f in r <==> f in folders && f.parentId == Some(parentId)
    ensures IsSubsequence(r, folders)
  {
    Filter(folders, ChildOf(parentId))
  }

  /** The folder the create form passes to `addFolder`; an empty parent selection means a root folder. */
  function NewFolderDraft(folderName: string, parentSelection: Id): Folder {
    Folder("", Trim(folderName), if parentSelection == "" then None else Some(parentSelection), parentSelection != "")
  }

  /** The rename the edit form passes to `updateFolder`: the trimmed name and nothing else. */
  function RenamePatch(folderName: string): FolderPatch {
    NoFolderChanges.(name := Some(Trim(folderName)))
  }

  /**
   * `handleSubmit`: a blank name writes nothing; editing renames the folder
   * being edited whatever parent is selected; otherwise a folder is created
   * under the selected parent, or as a root when none is selected.
   */
  method HandleSubmit(store: Store, folderName: string, parentSelection: Id, editing: Option<Folder>, freshId: Id)
    returns (wrote: bool)
    requires forall f :: f in store.folders ==> f.id != freshId
    modifies store`folders
    ensures wrote <==> !IsBlank(folderName)
    ensures !wrote ==> store.folders == old(store.folders)
    ensures wrote && editing.Some? ==>
      store.folders == UpdateFirst(old(store.folders), FolderIdIs(editing.value.id), ApplyFolderPatch(RenamePatch(folderName)))
    ensures wrote && editing.None? ==>
      store.folders == old(store.folders) + [NewFolderDraft(folderName, parentSelection).(id := freshId)]
  {
    if Trim(folderName) == "" {
      return false;
    }
    if editing.Some? {
      store.UpdateFolder(editing.value.id, RenamePatch(folderName));
    } else {
      var created := store.AddFolder(NewFolderDraft(folderName, parentSelection), freshId);
    }
    return true;
  }

  // ------------------------------------------------ the two-level hierarchy

  ghost predicate DistinctIds(folders: seq<Folder>) {
    forall i, j :: 0 <= i < j < |folders| ==> folders[i].id != folders[j].id
  }

  ghost predicate HasRootWithId(folders: seq<Folder>, id: Id) {
    exists r :: r in folders && r.id == id && !r.isSubfolder && r.parentId.None?
  }

  /**
   * The shape the form produces: a folder is a subfolder exactly when it has a
   * parent id, and every parent id names a root folder.
   */
  ghost predicate TwoLevel(folders: seq<Folder>) {
    forall f :: f in folders ==>
      && (f.isSubfolder <==> f.parentId.Some?)
      && (f.parentId.Some? ==> HasRootWithId(folders, f.parentId.value))
  }

  /** With distinct ids, a two-level collection has no folder whose parent has a parent. */
  lemma TwoLevelHasDepthTwo(folders: seq<Folder>, f: Folder, g: Folder)
    requires TwoLevel(folders) && DistinctIds(folders)
    requires f in folders && g in folders && f.parentId == Some(g.id)
    ensures !g.isSubfolder && g.parentId.None?
  {
    var r :| r in folders && r.id == g.id && !r.isSubfolder && r.parentId.None?;
    var i :| 0 <= i < |folders| && folders[i] == r;
    var j :| 0 <= j < |folders| && folders[j] == g;
    assert i == j;
  }

  /** Appending a folder whose id is new keeps the ids distinct. */
  lemma AppendFreshKeepsDistinctIds(folders: seq<Folder>, n: Folder)
    requires DistinctIds(folders)
    requires forall f :: f in folders ==> f.id != n.id
    ensures DistinctIds(folders + [n])
  {
    var r := folders + [n];
    forall i, j | 0 <= i < j < |r| ensures r[i].id != r[j].id {
      assert r[i] == folders[i];
      if j == |folders| {
        assert folders[i] in folders;
      } else {
        assert r[j] == folders[j];
      }
    }
  }

  /** Creating a folder from the form, with a parent chosen among MainFolders, keeps the shape. */
  lemma CreateKeepsTwoLevel(folders: seq<Folder>, folderName: string, parentSelection: Id, freshId: Id)
    requires TwoLevel(folders) && DistinctIds(folders)
    requires forall f :: f in folders ==> f.id != freshId
    requires parentSelection == "" || exists m :: m in MainFolders(folders) && m.id == parentSelection
    ensures var r := folders + [NewFolderDraft(folderName, parentSelection).(id := freshId)];
      TwoLevel(r) && DistinctIds(r)
  {
    var n := NewFolderDraft(folderName, parentSelection).(id := freshId);
    var r := folders + [n];
    AppendFreshKeepsDistinctIds(folders, n);
    forall f | f in r
      ensures (f.isSubfolder <==> f.parentId.Some?) && (f.parentId.Some? ==> HasRootWithId(r, f.parentId.value))
    {
      if f == n {
        DraftHasItsRoot(folders, n, parentSelection);
      } else {
        assert f in folders;
        RootSurvivesAppend(folders, n, f);
      }
    }
  }

  /** The appended draft is a subfolder exactly when a parent was chosen, and that parent is a root. */
  lemma DraftHasItsRoot(folders: seq<Folder>, n: Folder, parentSelection: Id)
    requires TwoLevel(folders)
    requires n.parentId == (if parentSelection == "" then None else Some(parentSelection))
    requires n.isSubfolder == (parentSelection != "")
    requires parentSelection == "" || exists m :: m in MainFolders(folders) && m.id == parentSelection
    ensures (n.isSubfolder <==> n.parentId.Some?) && (n.parentId.Some? ==> HasRootWithId(folders + [n], n.parentId.value))
  {
    if parentSelection != "" {
      var m :| m in MainFolders(folders) && m.id == parentSelection;
      assert m in folders && m.parentId.None?;
      assert m in folders + [n];
    }
  }

  /** A root a folder relies on is still there after an append. */
  lemma RootSurvivesAppend(folders: seq<Folder>, n: Folder, f: Folder)
    requires TwoLevel(folders) && f in folders
    ensures (f.isSubfolder <==> f.parentId.Some?) && (f.parentId.Some? ==> HasRootWithId(folders + [n], f.parentId.value))
  {
    if f.parentId.Some? {
      var root :| root in folders && root.id == f.parentId.value && !root.isSubfolder && root.parentId.None?;
      assert root in folders + [n];
    }
  }

  /** Renaming leaves ids, parents and kinds alone, so it keeps the shape. */
  lemma RenameKeepsTwoLevel(folders: seq<Folder>, id: Id, folderName: string)
    requires TwoLevel(folders) && DistinctIds(folders)
    ensures var r := UpdateFirst(folders, FolderIdIs(id), ApplyFolderPatch(RenamePatch(folderName)));
      TwoLevel(r) && DistinctIds(r)
  {
    var r := UpdateFirst(folders, FolderIdIs(id), ApplyFolderPatch(RenamePatch(folderName)));
    var k := IndexWhere(folders, FolderIdIs(id));
    assert forall i :: 0 <= i < |r| ==>
      r[i].id == folders[i].id && r[i].parentId == folders[i].parentId && r[i].isSubfolder == folders[i].isSubfolder;
    forall f | f in r
      ensures (f.isSubfolder <==> f.parentId.Some?) && (f.parentId.Some? ==> HasRootWithId(r, f.parentId.value))
    {
      var i :| 0 <= i < |r| && r[i] == f;
      assert folders[i] in folders;
      if f.parentId.Some? {
        var root :| root in folders && root.id == f.parentId.value && !root.isSubfolder && root.parentId.None?;
        var j :| 0 <= j < |folders| && folders[j] == root;
        assert r[j] in r;
      }
    }
  }

  /** Distinct ids survive any filter. */
  lemma {:induction false} FilterKeepsDistinctIds(folders: seq<Folder>, p: Folder -> bool)
    requires DistinctIds(folders)
    ensures DistinctIds(Filter(folders, p))
  {
    if folders != [] {
      var rest := folders[1..];
      assert DistinctIds(rest) by {
        forall i, j | 0 <= i < j < |rest| ensures rest[i].id != rest[j].id {
          assert rest[i] == folders[i + 1] && rest[j] == folders[j + 1];
        }
      }
      FilterKeepsDistinctIds(rest, p);
      var fr := Filter(rest, p);
      if p(folders[0]) {
        forall g | g in fr ensures g.id != folders[0].id {
          var j :| 0 <= j < |rest| && rest[j] == g;
          assert folders[j + 1] == g;
        }
        var r := [folders[0]] + fr;
        forall i, j | 0 <= i < j < |r| ensures r[i].id != r[j].id {
          if i == 0 {
            assert r[j] in fr;
          } else {
            assert r[i] == fr[i - 1] && r[j] == fr[j - 1];
          }
        }
      }
    }
  }

  /**
   * Deleting a folder keeps the shape: its direct children go with it, and a
   * root folder is never a child, so every remaining parent id still names a
   * remaining root.
   */
  lemma DeleteKeepsTwoLevel(folders: seq<Folder>, id: Id)
    requires TwoLevel(folders) && DistinctIds(folders)
    ensures var r := Filter(folders, SurvivesFolderDelete(id));
      TwoLevel(r) && DistinctIds(r)
  {
    var r := Filter(folders, SurvivesFolderDelete(id));
    FilterKeepsDistinctIds(folders, SurvivesFolderDelete(id));
    forall f | f in r
      ensures (f.isSubfolder <==> f.parentId.Some?) && (f.parentId.Some? ==> HasRootWithId(r, f.parentId.value))
    {
      if f.parentId.Some? {
        var root :| root in folders && root.id == f.parentId.value && !root.isSubfolder && root.parentId.None?;
        assert root in r;
      }
    }
  }
}
