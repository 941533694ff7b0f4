/** The action executor (stage3_action/executor.py): one grasp of the intent's box, reported as
    SUCCESS or FAILED feedback for the intent's track id. */
module Executor {
  import opened Common
  import opened VisionEntity
  import opened DecisionEntity
  import opened ActionEntity
  import opened BinManagement
  import opened Manipulation

  const GraspFailedReason := "Target grasp failed"
  const CollectedReason := "Target collected"

  /** The feedback for a grasp outcome. */
  function FeedbackFor(trackId: TrackId, success: bool): (fb: ActionFeedback)
    ensures fb.trackId == trackId
    ensures fb.status == Success <==> success
    ensures fb.status == ActionStatus.Failed <==> !success
    ensures fb.status != MovedForward && fb.status != NothingHappened
    ensures fb.reason == if success then CollectedReason else GraspFailedReason
  {
    if !success then ActionFeedback(ActionStatus.Failed, trackId, GraspFailedReason)
    else ActionFeedback(Success, trackId, CollectedReason)
  }

  class ActionExecutor {
    /** Held but never used by the executor. */
    const binManager: BinManager
    const manipulator: Manipulator

    constructor (binManagerObj: BinManager)
      ensures binManager == binManagerObj
      ensures fresh(manipulator) && manipulator.grasps == []
    {
      binManager := binManagerObj;
      manipulator := new Manipulator();
    }

    /** Grasps exactly the intent's box once and reports the outcome; only the gripper is touched. */
    method ExecuteAction(actionIntent: ActionIntent) returns (feedback: ActionFeedback)
      modifies manipulator
      ensures manipulator.grasps == old(manipulator.grasps) + [GraspCall(actionIntent.bbox, feedback.status == Success)]
      ensures feedback == FeedbackFor(actionIntent.trackId, feedback.status == Success)
    {
      var garbagePosition := actionIntent.bbox;
      var success := manipulator.GraspGarbage(garbagePosition);
      feedback := FeedbackFor(actionIntent.trackId, success);
    }
  }
}
