/**
 * The admin script form: its fields, the editable list of assumptions, and
 * the submit that creates a script or updates the one being edited.
 */
module ScriptManagement {
  import opened Wrappers
  import opened Text
  import opened Sequences
  import opened Records
  import opened Storage

  /** The form state: every script field an administrator types or picks. */
  datatype ScriptForm = ScriptForm(
    subfolderId: Id,
    scriptId: string,
    shortDescription: string,
    testEnvironment: TestEnvironment,
    testType: TestType,
    purpose: string,
    assumptions: seq<string>,
    expectedResults: string,
    scriptDetails: string)

  /** The empty form a new script starts from: one empty assumption line. */
  const EmptyForm := ScriptForm("", "", "", Online, Positive, "", [""], "", "")

  /**
   * The form filled from a stored script when it is opened for editing: a
   * draft made from it holds the script's content again, with blank
   * assumption lines dropped.
   */
  function LoadForm(s: Script): (r: ScriptForm)
    ensures FormDraft(r, s.screenshots)
         == s.(id := "", createdAt := "", updatedAt := "", assumptions := SavedAssumptions(s.assumptions))
  {
    ScriptForm(s.subfolderId, s.scriptId, s.shortDescription, s.testEnvironment, s.testType,
               s.purpose, s.assumptions, s.expectedResults, s.scriptDetails)
  }

  /**
   * The required-field check: subfolder, script id and short description must
   * be non-empty strings. Unlike the other forms, the value is not trimmed, so
   * a description of spaces passes.
   */
  predicate HasRequiredFields(form: ScriptForm) {
    form.subfolderId != "" && form.scriptId != "" && form.shortDescription != ""
  }

  // ---------------------------------------------------------- assumptions

  function NotBlankLine(): string -> bool { (x: string) => Trim(x) != "" }

  /** The assumptions that are saved: the non-blank lines, in order. */
  function SavedAssumptions(a: seq<string>): (r: seq<string>)
    ensures forall x :: x in r <==> x in a && !IsBlank(x)
    ensures forall x :: multiset(r)[x] == if IsBlank(x) then 0 else multiset(a)[x]
    ensures IsSubsequence(r, a)
  {
    var r := Filter(a, NotBlankLine());
    assert forall x :: multiset(r)[x] == if IsBlank(x) then 0 else multiset(a)[x] by {
      forall x {
        FilterCounts(a, NotBlankLine(), x);
      }
    }
    r
  }

  /** `addAssumption`: a new empty line at the end. */
  function AddAssumption(a: seq<string>): (r: seq<string>)
    ensures |r| == |a| + 1 && r[..|a|] == a && r[|a|] == ""
  {
    a + [""]
  }

  /**
   * `handleAssumptionChange`: line `i` takes the new text. The page only
   * calls it with the index of a line it shows.
   */
  function ChangeAssumption(a: seq<string>, i: nat, value: string): (r: seq<string>)
    requires i < |a|
    ensures |r| == |a| && r[i] == value
    ensures forall k :: 0 <= k < |a| && k != i ==> r[k] == a[k]
  {
    a[i := value]
  }

  /**
   * `removeAssumption`: with more than one line, line `i` is dropped and the
   * later lines move up; the last remaining line is never removed.
   */
  function RemoveAssumption(a: seq<string>, i: int): (r: seq<string>)
    ensures |a| <= 1 ==> r == a
    ensures |a| > 1 && 0 <= i < |a| ==>
      && |r| == |a| - 1
      && (forall k :: 0 <= k < i ==> r[k] == a[k])
      && (forall k :: i <= k < |r| ==> r[k] == a[k + 1])
    ensures !(0 <= i < |a|) ==> r == a
    ensures |a| >= 1 ==> |r| >= 1
  {
    if |a| > 1 && 0 <= i < |a| then a[..i] + a[i + 1..] else a
  }

  /** An added line that is left empty is not saved. */
  lemma AddedBlankLineIsNotSaved(a: seq<string>)
    ensures SavedAssumptions(AddAssumption(a)) == SavedAssumptions(a)
  {
    FilterConcat(a, [""], NotBlankLine());
    assert Trim("") == "";
  }

  /** Removing the line just added restores the list, once the list has a line to keep. */
  lemma RemoveUndoesAdd(a: seq<string>)
    requires |a| >= 1
    ensures RemoveAssumption(AddAssumption(a), |a|) == a
  {
    assert AddAssumption(a)[..|a|] == a;
  }

  // --------------------------------------------------------------- submit

  /** The draft handed to `addScript`: the form with saved assumptions and the current screenshots. */
  function FormDraft(form: ScriptForm, shots: seq<Screenshot>): Script {
    Script("", form.scriptId, form.shortDescription, form.testEnvironment, form.testType, form.purpose,
           SavedAssumptions(form.assumptions), form.expectedResults, form.scriptDetails, shots,
           form.subfolderId, "", "")
  }

  /** The patch handed to `updateScript`: every form field, the saved assumptions and the screenshots. */
  function FormPatch(form: ScriptForm, shots: seq<Screenshot>): ScriptPatch {
    ScriptPatch(None, Some(form.scriptId), Some(form.shortDescription), Some(form.testEnvironment),
                Some(form.testType), Some(form.purpose), Some(SavedAssumptions(form.assumptions)),
                Some(form.expectedResults), Some(form.scriptDetails), Some(shots), Some(form.subfolderId),
                None, None)
  }

  /**
   * An edit replaces every field the form holds and the screenshots, keeps
   * the script's id and creation time, and stamps the update time.
   */
  lemma EditTakesFormKeepsIdentity(s: Script, form: ScriptForm, shots: seq<Screenshot>, now: Timestamp)
    ensures var e := ApplyScriptPatch(FormPatch(form, shots), now)(s);
      && e.id == s.id && e.createdAt == s.createdAt && e.updatedAt == now
      && LoadForm(e) == form.(assumptions := SavedAssumptions(form.assumptions))
      && e.screenshots == shots
  {
  }

  /**
   * Opening a script and saving it untouched changes nothing but blank
   * assumption lines, which are dropped, and the update time.
   */
  lemma SaveUntouchedEdit(s: Script, now: Timestamp)
    ensures ApplyScriptPatch(FormPatch(LoadForm(s), s.screenshots), now)(s)
         == s.(assumptions := SavedAssumptions(s.assumptions), updatedAt := now)
  {
  }

  /** A created script holds the form's fields, saved assumptions, and the screenshots. */
  lemma CreateTakesForm(form: ScriptForm, shots: seq<Screenshot>, freshId: Id, now: Timestamp)
    ensures var c := FormDraft(form, shots).(id := freshId, createdAt := now, updatedAt := now);
      && LoadForm(c) == form.(assumptions := SavedAssumptions(form.assumptions))
      && c.screenshots == shots && c.id == freshId
  {
  }

  /**
   * `handleSubmit`: nothing is written unless the required fields are filled;
   * then the script being edited is updated, or a new one is added.
   */
  method HandleSubmit(store: Store, form: ScriptForm, shots: seq<Screenshot>, editingId: Option<Id>,
                      freshId: Id, now: Timestamp) returns (wrote: bool)
    requires forall s :: s in store.scripts ==> s.id != freshId
    modifies store`scripts
    ensures wrote <==> HasRequiredFields(form)
    ensures !wrote ==> store.scripts == old(store.scripts)
    ensures wrote && editingId.Some? ==>
      store.scripts == UpdateFirst(old(store.scripts), ScriptIdIs(editingId.value), ApplyScriptPatch(FormPatch(form, shots), now))
    ensures wrote && editingId.None? ==>
      store.scripts == old(store.scripts) + [FormDraft(form, shots).(id := freshId, createdAt := now, updatedAt := now)]
  {
    if !HasRequiredFields(form) {
      return false;
    }
    if editingId.Some? {
      store.UpdateScript(editingId.value, FormPatch(form, shots), now);
    } else {
      var created := store.AddScript(FormDraft(form, shots), freshId, now);
    }
    return true;
  }
}
