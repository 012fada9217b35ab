/**
 * The catalogue views shared by the admin script listing and the user import
 * page: the folder and search filter over scripts, the folder-name lookups,
 * and the list of folders offered as a script's subfolder.
 */
module CatalogView {
  import opened Wrappers
  import opened Text
  import opened Sequences
  import opened Records

  /** The folder selection that disables the folder filter. */
  const AllFolders := "all"

  function InSubfolder(folderId: Id): Script -> bool { (s: Script) => s.subfolderId == folderId }

  /** The search test: the term occurs in the script id or the short description, ignoring case. */
  function MatchesSearch(term: string): Script -> bool {
    (s: Script) => Contains(ToLower(s.scriptId), ToLower(term)) || Contains(ToLower(s.shortDescription), ToLower(term))
  }

  /**
   * `filterScripts`: the folder filter unless "all" is selected, then the
   * search filter unless the term is empty. A script is kept exactly when it
   * passes both, and the kept scripts keep their catalogue order.
   */
  function FilterScripts(scripts: seq<Script>, selectedFolder: Id, searchTerm: string): (r: seq<Script>)
    ensures forall s :: s in r <==>
      && s in scripts
      && (selectedFolder == AllFolders || s.subfolderId == selectedFolder)
      && (searchTerm == "" || MatchesSearch(searchTerm)(s))
    ensures IsSubsequence(r, scripts)
  {
    var byFolder := if selectedFolder != AllFolders then Filter(scripts, InSubfolder(selectedFolder)) else scripts;
    var r := if searchTerm != "" then Filter(byFolder, MatchesSearch(searchTerm)) else byFolder;
    SubsequenceReflexive(scripts);
    SubsequenceReflexive(byFolder);
    SubsequenceTransitive(r, byFolder, scripts);
    r
  }

  /** With "all" folders and an empty search, the listing is the whole catalogue. */
  lemma NoFilterKeepsCatalogue(scripts: seq<Script>)
    ensures FilterScripts(scripts, AllFolders, "") == scripts
  {
  }

  /** The search does not depend on the case of the ASCII letters in the term. */
  lemma {:induction false} SearchIgnoresCase(s: Script, term: string)
    ensures MatchesSearch(ToLower(term))(s) == MatchesSearch(term)(s)
  {
    ToLowerIdempotent(term);
  }

  lemma {:induction false} ToLowerIdempotent(s: string)
    ensures ToLower(ToLower(s)) == ToLower(s)
  {
    var t := ToLower(s);
    assert forall i :: 0 <= i < |s| ==> LowerChar(t[i]) == t[i];
  }

  /** `getSubfolderName`: the name of the first folder with that id, or "Unknown" when there is none. */
  function SubfolderName(folders: seq<Folder>, subfolderId: Id): (r: string)
    ensures (forall f :: f in folders ==> f.id != subfolderId) ==> r == "Unknown"
    ensures (exists f :: f in folders && f.id == subfolderId) ==>
      r == folders[IndexWhere(folders, FolderIdIs(subfolderId))].name
  {
    match Find(folders, FolderIdIs(subfolderId))
    case None => "Unknown"
    case Some(f) => f.name
  }

  /**
   * `getParentFolderName`: "Root" when the folder is missing or has no parent
   * id (an empty id counts as none), "Unknown" when its parent is missing, and
   * the parent's name otherwise.
   */
  function ParentFolderName(folders: seq<Folder>, subfolderId: Id): (r: string)
    ensures (forall f :: f in folders ==> f.id != subfolderId) ==> r == "Root"
    ensures (exists f :: f in folders && f.id == subfolderId) ==>
      var sub := folders[IndexWhere(folders, FolderIdIs(subfolderId))];
      && (sub.parentId.None? || sub.parentId == Some("") ==> r == "Root")
      && (sub.parentId.Some? && sub.parentId.value != "" ==>
            && ((forall f :: f in folders ==> f.id != sub.parentId.value) ==> r == "Unknown")
            && ((exists f :: f in folders && f.id == sub.parentId.value) ==>
                  r == folders[IndexWhere(folders, FolderIdIs(sub.parentId.value))].name))
  {
    match Find(folders, FolderIdIs(subfolderId))
    case Some(sub) =>
      if sub.parentId.Some? && sub.parentId.value != "" then
        match Find(folders, FolderIdIs(sub.parentId.value))
        case Some(parent) => parent.name
        case None => "Unknown"
      else
        "Root"
    case None => "Root"
  }

  function IsSubfolderEntry(f: Folder): bool { f.isSubfolder }

  /** `folders.filter(f => f.isSubfolder)`: the folders a script can be filed under, in order. */
  function SubfolderOptions(folders: seq<Folder>): (r: seq<Folder>)
    ensures forall f :: f in r <==> f in folders && f.isSubfolder
    ensures IsSubsequence(r, folders)
  {
    Filter(folders, IsSubfolderEntry)
  }
}
