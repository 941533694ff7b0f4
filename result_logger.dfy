/** The outcome logger (stage3_action/result_logger.py): writes one CSV row per track id. The CSV
    writer is file output, so the rows written are kept as a ghost sequence. */
module ResultLogger {
  import opened Common
  import opened VisionEntity
  import opened DecisionEntity
  import opened ActionEntity

  /** One CSV row (common/logging/entity.py). The last field is spelled `ignore_rason` there. */
  datatype GarbageLogEntry = GarbageLogEntry(
    trackId: int,
    className: string,
    firstSeenFrame: int,
    lastSeenFrame: int,
    finalState: string,
    lifecycleState: string,
    age: int,
    avgConfidence: real,
    priorityScore: Option<real> := None,
    selectedAt: Option<int> := None,
    completedAt: Option<int> := None,
    failureReason: Option<string> := None,
    ignoreReason: Option<string> := None)

  /** The row written for an intent and its feedback. Frames, age and confidence are fixed
      placeholders whatever the input. */
  function EntryFor(trackId: int, actionIntent: ActionIntent, feedback: ActionFeedback): (e: GarbageLogEntry)
    ensures e.trackId == trackId && e.className == actionIntent.className
    ensures e.priorityScore == Some(actionIntent.priorityScore)
    ensures e.finalState == e.lifecycleState == StatusValue(feedback.status)
    ensures e.firstSeenFrame == 1 && e.lastSeenFrame == 10 && e.age == 100 && e.avgConfidence == 1.5
    ensures e.selectedAt == e.completedAt == None && e.failureReason == e.ignoreReason == None
  {
    GarbageLogEntry(
      trackId := trackId,
      className := actionIntent.className,
      firstSeenFrame := 1,
      lastSeenFrame := 10,
      finalState := StatusValue(feedback.status),
      lifecycleState := StatusValue(feedback.status),
      age := 100,
      avgConfidence := 1.5,
      priorityScore := Some(actionIntent.priorityScore))
  }

  /** Two inputs for the same id, class, score and status give the same row: nothing else is recorded. */
  lemma EntryIgnoresTrackedData(trackId: int, a: ActionIntent, b: ActionIntent, fa: ActionFeedback, fb: ActionFeedback)
    requires a.className == b.className && a.priorityScore == b.priorityScore && fa.status == fb.status
    ensures EntryFor(trackId, a, fa) == EntryFor(trackId, b, fb)
  {
  }

  class OutcomeLogger {
    var loggedIds: set<int>
    /** The rows written so far, oldest first. */
    ghost var written: seq<GarbageLogEntry>

    /** Each track id has been written exactly once, and `loggedIds` is the set of ids written. */
    ghost predicate Valid()
      reads this
    {
      (forall i, j :: 0 <= i < j < |written| ==> written[i].trackId != written[j].trackId) &&
      (forall id :: id in loggedIds <==> exists i :: 0 <= i < |written| && written[i].trackId == id)
    }

    constructor ()
      ensures Valid()
      ensures loggedIds == {} && written == []
    {
      loggedIds := {};
      written := [];
    }

    /** Writes the row for the intent unless its id is `None` or already logged. */
    method LogActionResults(actionIntent: ActionIntent, feedback: ActionFeedback)
      requires Valid()
      modifies this
      ensures Valid()
      ensures old(loggedIds) <= loggedIds
      ensures (actionIntent.trackId.None? || actionIntent.trackId.value in old(loggedIds)) ==>
        loggedIds == old(loggedIds) && written == old(written)
      ensures actionIntent.trackId.Some? && actionIntent.trackId.value !in old(loggedIds) ==>
        written == old(written) + [EntryFor(actionIntent.trackId.value, actionIntent, feedback)] &&
        loggedIds == old(loggedIds) + {actionIntent.trackId.value}
    {
      if actionIntent.trackId.None? || actionIntent.trackId.value in loggedIds {
        return;
      }
      var id := actionIntent.trackId.value;
      var newEntry := EntryFor(id, actionIntent, feedback);
      ghost var before := written;
      written := written + [newEntry];
      loggedIds := loggedIds + {id};
      forall k | k in loggedIds
        ensures exists i :: 0 <= i < |written| && written[i].trackId == k
      {
        if k == id {
          assert written[|before|].trackId == id;
        } else {
          var i :| 0 <= i < |before| && before[i].trackId == k;
          assert written[i] == before[i];
        }
      }
      forall k | exists i :: 0 <= i < |written| && written[i].trackId == k
        ensures k in loggedIds
      {
        var i :| 0 <= i < |written| && written[i].trackId == k;
        if i < |before| {
          assert written[i] == before[i];
        }
      }
    }
  }
}
