/**
 * The admin script listing's delete confirmation: a delete is first held
 * as pending and only the confirmation removes the script.
 */
module ScriptListing {
  import opened Wrappers
  import opened Sequences
  import opened Records
  import opened Storage
  import opened CatalogView

  /**
   * `confirmDelete`: with a pending script, the script with its id leaves the
   * catalogue and the confirmation is cleared; with none, nothing happens.
   */
  method ConfirmDelete(store: Store, pending: Option<Script>) returns (deleted: bool)
    modifies store`scripts
    ensures deleted <==> pending.Some?
    ensures !deleted ==> store.scripts == old(store.scripts)
    ensures deleted ==> store.scripts == Filter(old(store.scripts), SurvivesScriptDelete(pending.value.id))
  {
    if pending.Some? {
      store.DeleteScript(pending.value.id);
      return true;
    }
    return false;
  }

  /**
   * After a delete, whatever the filter, the listing no longer shows the
   * deleted id and still shows every other script it showed before.
   */
  lemma DeleteRemovesFromEveryListing(scripts: seq<Script>, id: Id, selectedFolder: Id, searchTerm: string)
    ensures var before := FilterScripts(scripts, selectedFolder, searchTerm);
      var after := FilterScripts(Filter(scripts, SurvivesScriptDelete(id)), selectedFolder, searchTerm);
      && (forall s :: s in after ==> s.id != id)
      && (forall s :: s in before && s.id != id ==> s in after)
      && IsSubsequence(after, before)
  {
    var kept := Filter(scripts, SurvivesScriptDelete(id));
    FilterScriptsMonotone(kept, scripts, selectedFolder, searchTerm);
  }

  /** The listing filter keeps order: filtering a subsequence gives a subsequence of the filtered whole. */
  lemma FilterScriptsMonotone(a: seq<Script>, b: seq<Script>, selectedFolder: Id, searchTerm: string)
    requires IsSubsequence(a, b)
    ensures IsSubsequence(FilterScripts(a, selectedFolder, searchTerm), FilterScripts(b, selectedFolder, searchTerm))
  {
    var byA := if selectedFolder != AllFolders then Filter(a, InSubfolder(selectedFolder)) else a;
    var byB := if selectedFolder != AllFolders then Filter(b, InSubfolder(selectedFolder)) else b;
    if selectedFolder != AllFolders {
      FilterMonotone(a, b, InSubfolder(selectedFolder));
    }
    if searchTerm != "" {
      FilterMonotone(byA, byB, MatchesSearch(searchTerm));
    }
  }
}
