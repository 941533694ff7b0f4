/** The single-target selection lock of the decision stage (stage2_decision/selector.py). */
module Selector {
  import opened Common
  import opened VisionEntity
  import opened Command
  import opened DecisionEntity
  import opened ActionEntity

  /** The lock after a selector call, and the command the call returns. */
  datatype LockStep = LockStep(lock: TrackId, command: Option<LifeCycleCommand>)

  /** Selection: with no truthy lock held, lock the head of the ranked list, if it carries an object. */
  function SelectStep(lock: TrackId, ranked: seq<Scored>): (r: LockStep)
    ensures r.command.Some? <==> !IsHeld(lock) && |ranked| > 0 && ranked[0].obj.Some?
    ensures r.command.None? ==> r.lock == lock
    ensures r.command.Some? ==>
      r.lock == ranked[0].obj.value.trackId && r.command.value == LifeCycleCommand(LifeCycleAction.Select, r.lock)
  {
    if IsHeld(lock) then LockStep(lock, None)
    else if |ranked| == 0 then LockStep(lock, None)
    else if ranked[0].obj.None? then LockStep(lock, None)
    else
      var id := ranked[0].obj.value.trackId;
      LockStep(id, Some(LifeCycleCommand(LifeCycleAction.Select, id)))
  }

  /** The lifecycle action a feedback status asks for. */
  function ActionFor(status: ActionStatus): (a: LifeCycleAction)
    ensures a == MarkDone <==> status == Success
    ensures a == LifeCycleAction.Failed <==> status == ActionStatus.Failed
    ensures a == LifeCycleAction.Unattempted <==> status in {MovedForward, NothingHappened}
  {
    match status
    case Success => MarkDone
    case Failed => LifeCycleAction.Failed
    case _ => LifeCycleAction.Unattempted
  }

  /** Feedback handling as intended: feedback for the locked id (a missing id matches a
      missing lock) releases the lock and becomes the command for that id. */
  function FeedbackStep(lock: TrackId, feedback: ActionFeedback): (r: LockStep)
    ensures lock != feedback.trackId ==> r == LockStep(lock, None)
    ensures lock == feedback.trackId ==>
      r.lock == None && r.command.Some? && r.command.value.trackId == feedback.trackId
      && (feedback.status == Success <==> r.command.value.action == MarkDone)
      && (feedback.status == ActionStatus.Failed <==> r.command.value.action == LifeCycleAction.Failed)
      && (feedback.status in {MovedForward, NothingHappened} <==> r.command.value.action == LifeCycleAction.Unattempted)
  {
    if lock != feedback.trackId then LockStep(lock, None)
    else LockStep(None, Some(LifeCycleCommand(ActionFor(feedback.status), feedback.trackId)))
  }

  /** Feedback handling as written: `LifeCycleAction` has no FAILED or UNATTEMPTED member, so
      every matching feedback other than SUCCESS raises before the lock is released. */
  function FeedbackAsWritten(lock: TrackId, feedback: ActionFeedback): (r: Result<LockStep>)
    ensures r.Ok? <==> lock != feedback.trackId || feedback.status == Success
    ensures r.Ok? ==> r.value == FeedbackStep(lock, feedback)
  {
    if lock != feedback.trackId then Ok(LockStep(lock, None))
    else if feedback.status == Success then Ok(LockStep(None, Some(LifeCycleCommand(MarkDone, feedback.trackId))))
    else if feedback.status == ActionStatus.Failed then Err(AttributeError("FAILED"))
    else Err(AttributeError("UNATTEMPTED"))
  }

  /** A failed grasp on the locked target raises instead of releasing the lock. */
  lemma FailedFeedbackRaises()
    ensures FeedbackAsWritten(Some(7), ActionFeedback(ActionStatus.Failed, Some(7), "Target grasp failed")).Err?
    ensures FeedbackStep(Some(7), ActionFeedback(ActionStatus.Failed, Some(7), "Target grasp failed"))
      == LockStep(None, Some(LifeCycleCommand(LifeCycleAction.Failed, Some(7))))
  {
  }

  class SelectionLock {
    var activeTrackId: TrackId

    constructor ()
      ensures activeTrackId == None
    {
      activeTrackId := None;
    }

    method SelectTarget(rankedObjects: seq<Scored>) returns (command: Option<LifeCycleCommand>)
      modifies this
      ensures LockStep(activeTrackId, command) == SelectStep(old(activeTrackId), rankedObjects)
    {
      if IsHeld(activeTrackId) {
        return None;
      }
      if |rankedObjects| == 0 {
        return None;
      }
      var selected := rankedObjects[0].obj;
      if selected.None? {
        return None;
      }
      activeTrackId := selected.value.trackId;
      command := Some(LifeCycleCommand(LifeCycleAction.Select, activeTrackId));
    }

    method ReleaseTarget()
      modifies this
      ensures activeTrackId == None
    {
      activeTrackId := None;
    }

    method GetLockedTarget() returns (id: TrackId)
      ensures id == activeTrackId
    {
      id := activeTrackId;
    }

    method HandleActionFeedback(feedback: ActionFeedback) returns (command: Option<LifeCycleCommand>)
      modifies this
      ensures LockStep(activeTrackId, command) == FeedbackStep(old(activeTrackId), feedback)
    {
      var lockedTargetId := activeTrackId;
      if lockedTargetId != feedback.trackId {
        return None;
      }
      if feedback.status == Success {
        command := Some(LifeCycleCommand(MarkDone, feedback.trackId));
      } else if feedback.status == ActionStatus.Failed {
        command := Some(LifeCycleCommand(LifeCycleAction.Failed, feedback.trackId));
      } else {
        command := Some(LifeCycleCommand(LifeCycleAction.Unattempted, feedback.trackId));
      }
      ReleaseTarget();
    }
  }
}
