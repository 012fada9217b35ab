/**
 * The screenshot-list edits shared by the script form and the execution page:
 * changing one screenshot's description and removing a screenshot.
 */
module Screenshots {
  import opened Sequences
  import opened Records

  /** `shots.map(s => s.id === id ? { ...s, description } : s)`: only descriptions of entries with that id change. */
  function UpdateDescription(shots: seq<Screenshot>, id: Id, description: string): (r: seq<Screenshot>)
    ensures |r| == |shots|
    ensures forall k :: 0 <= k < |shots| ==>
      && r[k].id == shots[k].id && r[k].filename == shots[k].filename && r[k].path == shots[k].path
      && r[k].description == (if shots[k].id == id then description else shots[k].description)
  {
    if shots == [] then []
    else
      var head := if shots[0].id == id then shots[0].(description := description) else shots[0];
      [head] + UpdateDescription(shots[1..], id, description)
  }

  function NotScreenshot(id: Id): Screenshot -> bool { (s: Screenshot) => s.id != id }

  /** `shots.filter(s => s.id !== id)`: exactly the entries with that id go, the rest keep their order. */
  function RemoveScreenshot(shots: seq<Screenshot>, id: Id): (r: seq<Screenshot>)
    ensures forall s :: s in r <==> s in shots && s.id != id
    ensures IsSubsequence(r, shots)
  {
    Filter(shots, NotScreenshot(id))
  }
}
