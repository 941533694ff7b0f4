/** Builds the action intent for the locked target (stage2_decision/planner.py). */
module Planner {
  import opened Common
  import opened VisionEntity
  import opened DecisionEntity

  const IntentReason: string := "Selected and locked high-priority object"

  /** A ranked entry carrying an object with the given id. */
  predicate Matches(e: Scored, id: TrackId) {
    e.obj.Some? && e.obj.value.trackId == id
  }

  /** The intent built from a matching entry: its id, class, score and box. */
  function IntentOf(e: Scored): ActionIntent
    requires e.obj.Some?
  {
    ActionIntent(e.obj.value.trackId, e.obj.value.className, e.score, e.obj.value.bbox, IntentReason)
  }

  /** Linear search: the intent for the first entry carrying `id`, if any. */
  function Search(ranked: seq<Scored>, id: TrackId): (r: Option<ActionIntent>)
    ensures r.None? <==> forall i :: 0 <= i < |ranked| ==> !Matches(ranked[i], id)
    ensures r.Some? ==> r.value.trackId == id
    ensures r.Some? ==>
      exists i :: 0 <= i < |ranked| && Matches(ranked[i], id) && r.value == IntentOf(ranked[i])
        && forall j :: 0 <= j < i ==> !Matches(ranked[j], id)
  {
    if ranked == [] then None
    else if Matches(ranked[0], id) then Some(IntentOf(ranked[0]))
    else
      var r := Search(ranked[1..], id);
      assert forall i :: 1 <= i < |ranked| ==> ranked[1..][i - 1] == ranked[i];
      if r.Some? then
        ghost var i :| 0 <= i < |ranked[1..]| && Matches(ranked[1..][i], id) && r.value == IntentOf(ranked[1..][i])
          && forall j :: 0 <= j < i ==> !Matches(ranked[1..][j], id);
        assert Matches(ranked[i + 1], id) && r.value == IntentOf(ranked[i + 1]);
        assert forall j :: 0 <= j < i + 1 ==> !Matches(ranked[j], id) by {
          forall j | 0 <= j < i + 1 ensures !Matches(ranked[j], id) {
            if j > 0 { assert ranked[j] == ranked[1..][j - 1]; }
          }
        }
        r
      else r
  }

  /** No intent without a lock or without candidates; otherwise the search for the locked id. */
  function IntentFor(ranked: seq<Scored>, locked: TrackId): (intent: Option<ActionIntent>)
    ensures intent.Some? ==> locked.Some? && intent.value.trackId == locked
    ensures intent.Some? ==> exists i :: 0 <= i < |ranked| && Matches(ranked[i], locked) && intent.value == IntentOf(ranked[i])
  {
    if locked.None? then None
    else if |ranked| == 0 then None
    else Search(ranked, locked)
  }

  datatype ActionPlanner = ActionPlanner(maxTargets: int) {

    /** The search loop with early return. */
    method BuildActionIntents(rankedObjects: seq<Scored>, lockedTrackId: TrackId) returns (intent: Option<ActionIntent>)
      ensures intent == IntentFor(rankedObjects, lockedTrackId)
    {
      if lockedTrackId.None? {
        return None;
      }
      if |rankedObjects| == 0 {
        return None;
      }
      var i := 0;
      while i < |rankedObjects|
        invariant 0 <= i <= |rankedObjects|
        invariant Search(rankedObjects, lockedTrackId) == Search(rankedObjects[i..], lockedTrackId)
      {
        var e := rankedObjects[i];
        assert rankedObjects[i..][1..] == rankedObjects[i + 1..];
        if e.obj.None? {
          i := i + 1;
          continue;
        }
        if e.obj.value.trackId == lockedTrackId {
          return Some(ActionIntent(e.obj.value.trackId, e.obj.value.className, e.score, e.obj.value.bbox, IntentReason));
        }
        i := i + 1;
      }
      return None;
    }
  }

  /** Any intent is for the locked id, and exists only if an entry carries that id. */
  lemma {:induction false} IntentForLocked(ranked: seq<Scored>, locked: TrackId)
    ensures IntentFor(ranked, locked).Some? ==>
      locked.Some? && IntentFor(ranked, locked).value.trackId == locked
      && exists i :: 0 <= i < |ranked| && Matches(ranked[i], locked)
    ensures locked.Some? && (exists i :: 0 <= i < |ranked| && Matches(ranked[i], locked)) ==> IntentFor(ranked, locked).Some?
  {
  }
}
