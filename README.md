# A verified model of the deep-purple-test-suite entity store and its page rules

deep-purple-test-suite is a regression-testing workflow tool. Administrators keep a catalogue of test
scripts filed in a two-level folder tree. Users create projects, import copies of catalogue scripts into
them, execute the copies, and raise issues against them.

This project models two parts of that system in Dafny.

The first is the entity store in `src/lib/storage.ts`:
- five collections (folders, scripts, projects, imported scripts, issues), held as the `seq` fields of
  the class `Storage.Store`;
- every add, update, delete and import operation as a method that reassigns one field. Each method
  states the new collection exactly: append one record, replace only the first record with the id, or
  keep exactly the records a condition accepts.

The second is the caller-side rules that the store does not enforce itself. They live in the page
handlers, and each page is one module:
- `ScriptExecution`: saving progress, completing a script, and raising or linking an issue so that the
  issue and the script each list the other;
- `IssueLog`: the fixed and reopened transitions and the resolution they set or clear;
- `TestLab`: the tab partition, the badge priority and the action buttons;
- `ImportScripts`: the "already imported" marks;
- `ScriptListing`: the delete confirmation;
- `FolderManagement`: create or rename, and root-only parents that keep the tree two levels deep;
- `ScriptManagement`: the script form, its assumption list and the blank-line stripping on save.

Shared logic has its own modules:
- `Text`: JavaScript `trim`, ASCII `toLowerCase` and `includes` on strings;
- `Sequences`: `findIndex`, `find`, `filter` and the "replace the first match" step of every update;
- `Records`: the record types and `Partial<T>` patches merged by object spread;
- `CatalogView`: the catalogue filter and folder-name lookups, duplicated verbatim in the listing and
  import pages;
- `Screenshots`: the screenshot edits, duplicated in the script form and the execution page;
- `StoreProperties`: relations between several store operations, and scenario methods on a fresh
  store, whose outcomes are proved.

Fresh ids and the current time are parameters. Every add method requires its id to be new to its
collection. The code draws ids from `Date.now()` and `Math.random()`, so it cannot guarantee this.

A patch field of a record's optional field has type `Option<Option<T>>`. `Some(None)` is a key present
with value `undefined`. The save's JSON round trip turns that into an absent field, and this is how
reopening an issue clears its resolution.

Three behaviours of the code worth knowing:
- `addFolder` stores the caller's `isSubfolder` as given and does not derive it from the parent id
  (`src/lib/storage.ts:87-96`). The folder page sets both consistently, which is what
  `FolderManagement.CreateKeepsTwoLevel` proves.
- `JSON.parse` throws on malformed stored text, so such a collection does not read as empty
  (`src/lib/storage.ts:74-77`).
- An empty `parentId` is falsy, so the parent-name lookup answers "Root" for it.

## Model

| member | source | states |
|---|---|---|
| Storage.Store.constructor | src/lib/storage.ts:74-77 | A store with nothing saved reads every collection as empty. |
| Storage.Store.GetProjects | src/lib/storage.ts:151-153 | Exactly the stored projects owned by the user, as an order-preserving subsequence. |
| Storage.Store.GetImportedScripts | src/lib/storage.ts:171-173 | Exactly the stored imported scripts of the project, in stored order. |
| Storage.Store.GetIssues | src/lib/storage.ts:209-211 | Exactly the stored issues of the project, in stored order. |
| Storage.Store.AddFolder | src/lib/storage.ts:87-96 | Appends the given folder with the fresh id and returns it. Earlier folders are unchanged. |
| Storage.Store.UpdateFolder | src/lib/storage.ts:98-105 | Merges the patch into the first folder with the id. Does nothing when no folder has it. |
| Storage.Store.DeleteFolder | src/lib/storage.ts:107-111 | Keeps exactly the folders that are neither the deleted one nor its direct children, in order. Scripts are outside its frame. |
| Storage.Store.AddScript | src/lib/storage.ts:117-129 | Appends the script with the fresh id and `createdAt == updatedAt == now`. |
| Storage.Store.UpdateScript | src/lib/storage.ts:131-142 | Merges the patch into the first script with the id, then stamps `updatedAt := now` over the patch's own value. Does nothing for an unknown id. |
| Storage.Store.DeleteScript | src/lib/storage.ts:144-148 | Removes every script with the id and nothing else. Imported copies are outside its frame. |
| Storage.Store.AddProject | src/lib/storage.ts:157-168 | Appends one project with the fresh id, name, owner and creation time. |
| Storage.Store.ImportScript | src/lib/storage.ts:179-197 | The imported collection becomes `ImportInto` of the old one. Only that collection changes. |
| Storage.Store.UpdateImportedScript | src/lib/storage.ts:199-206 | Merges the patch into the first imported script with the id. No time stamp is touched. |
| Storage.Store.AddIssue | src/lib/storage.ts:215-232 | Appends the issue with the fresh id, the project's next number, and equal creation and update times. |
| Storage.Store.UpdateIssue | src/lib/storage.ts:234-245 | Merges the patch into the first issue with the id, then stamps `updatedAt := now`. Does nothing for an unknown id. |
| Storage.MaxIssueNumber | src/lib/storage.ts:218 | Is at least 0 and at least every issue number, and is 0 or some issue's number: `Math.max(0, ...)`. |
| Storage.NextIssueNumber | src/lib/storage.ts:216-218 | Is at least 1 and greater than every number in the project, and is 1 or one more than a number in use there. |
| Storage.NextIssueNumberIsDetermined | src/lib/storage.ts:216-218 | Those three facts single out the number, so they specify it completely. |
| Storage.NextIssueNumberIgnoresOtherProjects | src/lib/storage.ts:217 | Adding an issue of another project leaves this project's next number unchanged. |
| Storage.NextIssueNumberAdvances | src/lib/storage.ts:215-232 | After adding an issue with the next number, the project's next number goes up by exactly one. |
| Storage.ImportIntoEffect | src/lib/storage.ts:179-197 | A missing script changes nothing. Otherwise exactly one record is appended: a pending copy of the first catalogue script with the id, with the given project, no screenshots, issues, remarks or completion time. Nothing guards against duplicates. |
| StoreProperties.UpdateScriptStampsNow | src/lib/storage.ts:131-142 | The updated script keeps every field the patch omits, takes every field it gives, and has `updatedAt == now` even when the patch carries its own. |
| StoreProperties.StampedMergeFollowsPatch | src/lib/storage.ts:135-139 | The spread-then-stamp merge of one script follows the patch field by field. |
| StoreProperties.UpdateIssueStampsNow | src/lib/storage.ts:234-245 | The same as `UpdateScriptStampsNow`, for issues. |
| StoreProperties.UpdateImportedScriptHasNoClock | src/lib/storage.ts:199-206 | Unless the patch sets `completedAt`, no record's completion time changes: this update stamps no time. |
| StoreProperties.UpdateUnknownIdIsNoop | src/lib/storage.ts:98-105 | Updating a folder id that no folder has returns the collection unchanged. |
| StoreProperties.DeleteUnknownScriptIsNoop | src/lib/storage.ts:144-148 | Deleting a script id that no script has returns the collection unchanged. |
| StoreProperties.CascadeDeleteScenario | src/lib/storage.ts:107-111 | Deleting a root removes its subfolder too. The script filed under that subfolder stays, orphaned. |
| StoreProperties.SnapshotIsolationScenario | src/lib/storage.ts:179-197 | Editing a catalogue script after it was imported leaves the imported copy as it was at import time. |
| StoreProperties.IssueNumberingScenario | src/lib/storage.ts:215-232 | Two issues in one project are numbered 1 and 2. The first issue of another project is numbered 1. |
| StoreProperties.DuplicateImportScenario | src/lib/storage.ts:179-197 | Importing the same script twice into one project gives two records with the same original id. |
| StoreProperties.TimestampScenario | src/lib/storage.ts:117-142 | An added script has equal creation and update times. A later update whose patch carries no creation time keeps the creation time and sets the update time to the new time. |
| Sequences.IndexWhere | src/lib/storage.ts:100 | `findIndex`: -1 exactly when nothing matches, otherwise the first matching index. |
| Sequences.Find | src/lib/storage.ts:181 | `find`: none exactly when nothing matches, otherwise the first matching element (the one at `IndexWhere`). |
| Sequences.Filter | src/lib/storage.ts:146 | `filter`: exactly the matching elements, as an order-preserving subsequence. |
| Sequences.FilterCounts | src/lib/storage.ts:146 | `filter` keeps every copy of a matching element: its count in the result is its count in the input, and 0 for a non-matching one. |
| Sequences.UpdateFirst | src/lib/storage.ts:133-136 | Replaces the element at the `findIndex` position, or nothing when that is -1. The length is kept. |
| Sequences.FilterPartition | src/pages/user/TestLab.tsx:37-39 | Two conditions that disagree on every element split the sequence: the multisets and the lengths add up. |
| Sequences.FilterStronger | src/pages/user/TestLab.tsx:39-42 | A stronger condition keeps a subsequence of what a weaker one keeps. |
| Sequences.FilterMonotone | src/pages/admin/ScriptListing.tsx:40-55 | Filtering a subsequence gives a subsequence of the filtered whole. |
| Sequences.UpdateFirstKeepsIndex | src/pages/user/ScriptExecution.tsx:134-151 | An update that keeps the matched id keeps the record at the same first position. |
| Text.Trim | src/pages/admin/FolderManagement.tsx:34 | JavaScript `trim`: never longer than the input, and empty exactly when the input is all whitespace. |
| Text.TrimHasNoOuterWhitespace | src/pages/admin/FolderManagement.tsx:45 | Neither end of the trimmed text is whitespace. |
| Text.TrimIsInfix | src/pages/admin/FolderManagement.tsx:45 | The trimmed text occurs in the input, and only whitespace lies around it. |
| Text.TrimIdempotent | src/pages/admin/FolderManagement.tsx:45 | Trimming twice is trimming once. |
| Text.ToLower | src/pages/admin/ScriptListing.tsx:49-50 | Same length, and each character is its lowered form. |
| Text.Contains | src/pages/admin/ScriptListing.tsx:48-51 | `includes`: true exactly when the term occurs at some position. |
| Screenshots.UpdateDescription | src/pages/user/ScriptExecution.tsx:86-88 | Same length and order. Only the descriptions of entries with the id change; ids, files and paths stay. |
| Screenshots.RemoveScreenshot | src/pages/user/ScriptExecution.tsx:90-92 | Drops exactly the entries with the id and keeps the rest in order. |
| CatalogView.FilterScripts | src/pages/admin/ScriptListing.tsx:40-55 | A script is shown exactly when it is in the selected folder (or "all" is selected) and matches the search (or it is empty). Catalogue order is kept. |
| CatalogView.NoFilterKeepsCatalogue | src/pages/user/ImportScripts.tsx:45-60 | With "all" folders and an empty search, the whole catalogue is shown. |
| CatalogView.SearchIgnoresCase | src/pages/admin/ScriptListing.tsx:47-51 | Searching for the lowered term matches the same scripts as the term itself. |
| CatalogView.ToLowerIdempotent | src/pages/admin/ScriptListing.tsx:49-50 | Lowering twice is lowering once. |
| CatalogView.SubfolderName | src/pages/admin/ScriptListing.tsx:73-76 | "Unknown" when no folder has the id, otherwise the name of the first folder with it. |
| CatalogView.ParentFolderName | src/pages/admin/ScriptListing.tsx:78-85 | Gives "Root" for a missing folder, or one with no or an empty parent id. Gives "Unknown" for a missing parent, and the parent's name otherwise. |
| CatalogView.SubfolderOptions | src/pages/admin/ScriptListing.tsx:87 | Exactly the folders marked as subfolders, in order. |
| ScriptListing.ConfirmDelete | src/pages/admin/ScriptListing.tsx:61-71 | With a pending script, deletes exactly the scripts with its id. With none, writes nothing. |
| ScriptListing.DeleteRemovesFromEveryListing | src/pages/admin/ScriptListing.tsx:40-71 | After a delete, no listing shows the id, and every other script a listing showed is still shown, in order. |
| ScriptListing.FilterScriptsMonotone | src/pages/admin/ScriptListing.tsx:40-55 | The listing filter maps a subsequence of the catalogue to a subsequence of the listing. |
| ImportScripts.ImportedIds | src/pages/user/ImportScripts.tsx:41 | The set of original ids: an id is in it exactly when some record was copied from it. |
| ImportScripts.LoadImportedIds | src/pages/user/ImportScripts.tsx:40-42 | An id is marked exactly when the project holds a record copied from it. |
| ImportScripts.CanImport | src/pages/user/ImportScripts.tsx:193-198 | The button is enabled exactly when the script's id is not among the marked ids. |
| ImportScripts.CanImportOnLoad | src/pages/user/ImportScripts.tsx:40-42 | On the marks loaded from the store, the button is enabled exactly when no import of the project was copied from the script. |
| ImportScripts.HandleImport | src/pages/user/ImportScripts.tsx:62-79 | Without a project, nothing happens. Otherwise it imports into the store and marks the id, whether or not the catalogue holds the script. |
| ImportScripts.ImportKeepsMarksInStep | src/pages/user/ImportScripts.tsx:62-67 | Importing a catalogue script adds exactly its id to the project's imported set, which then matches the page's marks. |
| ImportScripts.MissingScriptIsMarkedButNotImported | src/pages/user/ImportScripts.tsx:66-67 | A script missing from the catalogue gets no record in the project, although the page marks it. |
| ImportScripts.GuardedImportKeepsImportsDistinct | src/pages/user/ImportScripts.tsx:193-208 | Importing only through an enabled button never copies one script into a project twice. |
| FolderManagement.MainFolders | src/pages/admin/FolderManagement.tsx:104 | Exactly the root folders, in order. |
| FolderManagement.Subfolders | src/pages/admin/FolderManagement.tsx:105 | Exactly the folders whose parent id is the given one, in order. |
| FolderManagement.HandleSubmit | src/pages/admin/FolderManagement.tsx:31-72 | Writes exactly when the trimmed name is not empty. An edit renames the folder, whatever parent is selected. A create adds the trimmed name, with the selection as parent and `isSubfolder` exactly when a parent was selected. |
| FolderManagement.TwoLevelHasDepthTwo | src/pages/admin/FolderManagement.tsx:153-158 | In a two-level collection with distinct ids, every parent is a root without a parent. |
| FolderManagement.CreateKeepsTwoLevel | src/pages/admin/FolderManagement.tsx:51-55 | Creating with a parent chosen among the root folders keeps the tree two levels deep and the ids distinct. |
| FolderManagement.RenameKeepsTwoLevel | src/pages/admin/FolderManagement.tsx:44-45 | Renaming keeps the tree shape and the ids distinct. |
| FolderManagement.DeleteKeepsTwoLevel | src/pages/admin/FolderManagement.tsx:81-96 | Deleting keeps the tree shape: the children go with their root, and no remaining folder loses its parent. |
| FolderManagement.FilterKeepsDistinctIds | src/lib/storage.ts:109 | Any filter keeps ids distinct. |
| ScriptManagement.SavedAssumptions | src/pages/admin/ScriptManagement.tsx:133 | Exactly the lines that are not all whitespace, untrimmed and in order, each repeated line kept as often as it occurs. |
| ScriptManagement.LoadForm | src/pages/admin/ScriptManagement.tsx:40-56 | The form loaded from a script round-trips: a draft made from it holds the script's content again, blank assumption lines dropped. |
| ScriptManagement.AddAssumption | src/pages/admin/ScriptManagement.tsx:80-82 | One more line: the old lines unchanged, then an empty one. |
| ScriptManagement.ChangeAssumption | src/pages/admin/ScriptManagement.tsx:74-78 | Only line `i` changes. The length is kept. |
| ScriptManagement.RemoveAssumption | src/pages/admin/ScriptManagement.tsx:84-89 | With more than one line, removes exactly line `i` and shifts the rest up. It never empties a non-empty list. |
| ScriptManagement.AddedBlankLineIsNotSaved | src/pages/admin/ScriptManagement.tsx:80-82 | A line added and left empty does not change what is saved. |
| ScriptManagement.RemoveUndoesAdd | src/pages/admin/ScriptManagement.tsx:80-89 | Removing the line just added restores a non-empty list. |
| ScriptManagement.EditTakesFormKeepsIdentity | src/pages/admin/ScriptManagement.tsx:136-141 | An edit takes every form field, the saved assumptions and the screenshots. It keeps the id and creation time and stamps the update time. |
| ScriptManagement.SaveUntouchedEdit | src/pages/admin/ScriptManagement.tsx:40-56 | Opening a script and saving it unchanged only drops its blank assumptions and restamps it. |
| ScriptManagement.CreateTakesForm | src/pages/admin/ScriptManagement.tsx:146-151 | A created script holds the form, the saved assumptions and the screenshots. |
| ScriptManagement.HandleSubmit | src/pages/admin/ScriptManagement.tsx:121-166 | Writes exactly when subfolder, script id and description are non-empty, with no trim. Then it makes one update of the edited script or one add. |
| TestLab.ScriptIssues | src/pages/user/TestLab.tsx:31-35 | Exactly the issues that list the script and are not fixed, in order. |
| TestLab.CompletedScripts | src/pages/user/TestLab.tsx:38 | Exactly the completed scripts, in order. |
| TestLab.PendingScripts | src/pages/user/TestLab.tsx:39 | Exactly the scripts not completed, in order. |
| TestLab.ScriptsWithIssues | src/pages/user/TestLab.tsx:40-42 | Exactly the unfinished scripts that some unfixed issue lists, in order. |
| TestLab.TabsPartitionScripts | src/pages/user/TestLab.tsx:37-39 | The Completed and Pending tabs split the scripts: each one is in exactly one tab. |
| TestLab.IssuesTabWithinPendingTab | src/pages/user/TestLab.tsx:39-42 | The With Issues tab is an order-preserving part of the Pending tab. |
| TestLab.Badge | src/pages/user/TestLab.tsx:87-103 | Completed wins, then unfixed issues, then in progress, then pending. Each badge is stated both ways. |
| TestLab.Action | src/pages/user/TestLab.tsx:44-85 | Completed gives Retarget, in progress gives Resume, pending gives Start. Issues play no part. |
| TestLab.BadgeMatchesTabs | src/pages/user/TestLab.tsx:87-103 | A card is in the Completed, With Issues or Pending tab exactly when its badge says so. |
| IssueLog.StatusChangePatch | src/pages/user/IssueLog.tsx:46-50 | Sets the new status. Fixing sets the typed resolution, reopening clears it, and nothing else is in the patch. |
| IssueLog.HandleStatusChange | src/pages/user/IssueLog.tsx:46-60 | The first issue with the id takes the status change, stamped now. |
| IssueLog.Offered | src/pages/user/IssueLog.tsx:225-261 | A button is enabled exactly for open to fixed, reopened to fixed or fixed to reopened, and the fix also needs a non-blank resolution. |
| IssueLog.OfferedTransitions | src/pages/user/IssueLog.tsx:225-261 | The enabled buttons give exactly open to fixed, reopened to fixed, and fixed to reopened (a fix also needs a non-blank resolution). None keeps the status. |
| IssueLog.StatusChangeKeepsResolutionConsistent | src/pages/user/IssueLog.tsx:225-261 | An enabled change keeps "has a non-blank resolution exactly when fixed", and keeps the id and linked scripts. |
| IssueLog.StatusChangeKeepsCollectionConsistent | src/pages/user/IssueLog.tsx:46-50 | The same invariant holds over every issue after an enabled change. |
| IssueLog.BlankFixBreaksConsistency | src/pages/user/IssueLog.tsx:239-243 | Fixing with a blank resolution, which the disabled button prevents, would break the invariant. |
| IssueLog.StatusLabel | src/pages/user/IssueLog.tsx:62-73 | Each status has its own label: "Open", "Fixed" or "Reopened", each exactly for its status. |
| IssueLog.StatusColor | src/pages/user/IssueLog.tsx:75-85 | Fixed issues get the success border. Open and reopened issues share the destructive one. |
| IssueLog.ScriptName | src/pages/user/IssueLog.tsx:40-42 | The first matching record's catalogue script id, or "Unknown Script". |
| IssueLog.ScriptNames | src/pages/user/IssueLog.tsx:39-44 | One name per listed id, in order. |
| ScriptExecution.SaveStatus | src/pages/user/ScriptExecution.tsx:171 | Pending becomes in-progress; any other state is kept; never pending afterwards. |
| ScriptExecution.SaveEffect | src/pages/user/ScriptExecution.tsx:167-174 | Saving sets the advanced state, the remarks and the screenshots, and leaves every other field as it was. |
| ScriptExecution.SaveUntouched | src/pages/user/ScriptExecution.tsx:57-58 | Loading then saving without edits only advances pending and turns absent remarks into empty ones. |
| ScriptExecution.MarkCompleteEffect | src/pages/user/ScriptExecution.tsx:94-102 | Completing sets completed, the remarks, the screenshots and the completion time, whatever the prior state. Nothing else changes. |
| ScriptExecution.HandleSave | src/pages/user/ScriptExecution.tsx:167-180 | The first record with the script's id takes the save patch. |
| ScriptExecution.HandleMarkComplete | src/pages/user/ScriptExecution.tsx:94-110 | Without a project, nothing is written. Otherwise the record takes the completion patch. |
| ScriptExecution.LinkableIssues | src/pages/user/ScriptExecution.tsx:428 | Exactly the issues that do not list the script yet, in order. |
| ScriptExecution.LinkedIssues | src/pages/user/ScriptExecution.tsx:182-185 | Exactly the issues whose id the script records, in issue order. |
| ScriptExecution.HandleRaiseIssue | src/pages/user/ScriptExecution.tsx:112-165 | "new" with a non-blank title and description adds one open issue and appends its id to the script. A found issue that does not list the script gets the script appended, and the script gets the issue. Every other case writes nothing. |
| ScriptExecution.CreatedIssueIsLinkedBothWays | src/pages/user/ScriptExecution.tsx:125-136 | After a create, the new issue lists the script and the stored script lists the issue. |
| ScriptExecution.LinkedIssueIsLinkedBothWays | src/pages/user/ScriptExecution.tsx:142-151 | After a link, the issue lists the script and the stored script lists the issue. |
| ScriptExecution.OfferedIssueCanBeLinked | src/pages/user/ScriptExecution.tsx:143-144 | With distinct ids, picking an offered issue finds that issue, and it passes the link guard. |
| ScriptExecution.LinkedIssueIsNoLongerOffered | src/pages/user/ScriptExecution.tsx:428 | With distinct ids, an issue is no longer offered to the script it was just linked to. |

## Left out

- Persistence: `localStorage` and the JSON text of each collection (`src/lib/storage.ts:74-81`) are not modelled. Each collection is the `seq` it decodes to. A malformed stored text makes `JSON.parse` throw; that failure is not modelled, and no fallback to an empty list is claimed.
- Storage.NextIssueNumber: issue numbers are unbounded integers. The code computes on JavaScript numbers (`src/lib/storage.ts:54`, `:218`), where `n + 1 == n` from 2^53 on, and spreading a very large project's numbers into `Math.max` throws a `RangeError`. Neither is modelled, so "above every number in use" and `Storage.NextIssueNumberAdvances` hold only below those limits.
- Ids and clocks: `Date.now()`, `Math.random()` and `new Date().toISOString()` become parameters. That an id is new is a precondition, which the code cannot guarantee.
- Copying: the `{ ...script }` copy at import is shallow in memory. Dafny's values make the snapshot independent outright, which the JSON round trip achieves in the code.
- Text.ToLower: lowers ASCII letters only. JavaScript's Unicode case mapping is not modelled, so the search properties hold for that lowering.
- File upload: reading image files into base64 paths in both `handleFileUpload` handlers is browser I/O. A screenshot's path is an opaque string.
- React plumbing: state hooks, effects, toasts, navigation, dialogs and rendering are not modelled. This includes view mode, which hides the execution page's buttons. Each handler is modelled by its effect on the store and on the page values it returns.
- IssueLog.ScriptNames: yields the list of names. The `", "` join into one display string is left out.
- Stale page copies and concurrency: the handlers write from the copies the page loaded. `handleRaiseIssue` appends to the loaded issue's and script's lists. Another tab's write in between is overwritten; the model takes the loaded values as given.
- Authentication, routing, sidebars, dashboards, the login page, the image viewer and the layout hold no data rules. They are not part of this model.
- Project creation page: its trimmed-name check and the current user are not modelled. The store effect is `Storage.Store.AddProject`.
- `getFolders`, `getScripts`, `saveFolders` and their kind are the `Store` fields themselves.
- `FolderManagement`'s `handleDelete` calls `deleteFolder` and nothing else, so it is `Storage.Store.DeleteFolder`. `FolderManagement.DeleteKeepsTwoLevel` states what the delete keeps.
- The `default` branches of `getStatusBadge` and `getStatusColor` cannot be reached with the three typed statuses, so they are not modelled.
- ScriptManagement.ChangeAssumption: requires the index to be within the list. A JavaScript assignment past the end would grow the array, but the page only passes indices of lines it shows.
- Error paths of the `try`/`catch` blocks: the only failure inside them is a storage exception, which is not modelled (see persistence).
