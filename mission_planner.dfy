/** The mission phase machine of the robot (stage3_action/mission_planner.py): surface sweep,
    descent, underwater sweep, ascent and return to headquarters, with bin unloading, a bounded
    grasp retry, a lost-target counter and the abort/return paths. Clock readings are arbitrary
    values; the navigator and the gripper are the stand-ins of their modules. */
module MissionPlanner {
  import opened Common
  import opened VisionEntity
  import opened DecisionEntity
  import opened ActionEntity
  import opened ProjectionEntity
  import opened Alerts
  import opened Navigator
  import opened Manipulation
  import opened BinManagement
  import opened Executor
  import opened Unload
  import opened CostModels

  const UnloadFailedReason := "Unloading of bin is failed"
  const MovedForwardReason := "Either given target is not in reach or there is no object in current frame"
  const StepFailedReason := "Navigator failed in stepping 1 step forward"
  const RetrySuccessReason := "Action retry is success"
  const ManualHelpMessage := "NEEDS HUMAN SUPPORT, PLEASE SEND HELP FROM THE HQ"
  const HardAbortMessage := "Mission aborted in middle of water body cleaning"
  const UnloadingAbortMessage := "Mission aborted in middle of unloading garbage process"
  const SurfaceEndedMessage := "SURFACE CLEANING SUCCESS"
  const DescendFailMessage := "descend fail"
  const DescendedMessage := "DESCEND SUCCESS"
  const UnderwaterEndedMessage := "UNDERWATER CLEANING SUCCESS"
  const AscendFailMessage := "ascend fail"
  const AscendedMessage := "ASCEND SUCCESS"
  const ReturnFailMessage := "return fail"
  const ReachedHqMessage := "HQ RETURN IS SUCCESS"
  const MissionCompletedMessage := "MISSION IS SUCCESSFUL"

  /** The mission is still running. */
  predicate IsActivePhase(p: MissionPhase) {
    !(p == MissionPhase.Done || p == Abort || p == MissionPhase.Failed)
  }

  /** Grasping is allowed only while sweeping, at the surface or underwater. */
  predicate ActionAllowedIn(p: MissionPhase) {
    p == Surface || p == Underwater
  }

  /** Every phase that allows grasping is an active phase; the converse fails for the transit phases. */
  lemma AllowedPhasesAreActive(p: MissionPhase)
    ensures ActionAllowedIn(p) ==> IsActivePhase(p)
    ensures IsActivePhase(Descend) && !ActionAllowedIn(Descend)
  {
  }

  /** The phase after an abort that reached headquarters: an interrupted return counts as done,
      an abort or an interrupted unloading as failed; any other phase is kept. */
  function AbortOutcome(p: MissionPhase): (q: MissionPhase)
    ensures p == Return ==> q == MissionPhase.Done
    ensures p == Abort || p == Unloading ==> q == MissionPhase.Failed
    ensures p != Return && p != Abort && p != Unloading ==> q == p
  {
    if p == Return then MissionPhase.Done
    else if p == Abort || p == Unloading then MissionPhase.Failed
    else p
  }

  /** The alerts raised after an abort that reached headquarters. */
  function AbortAlerts(p: MissionPhase): (events: seq<Event>)
    ensures |events| <= 1
    ensures events != [] <==> p == Abort || p == Unloading
  {
    if p == Abort then [Alert(HardAbort, HardAbortMessage)]
    else if p == Unloading then [Alert(UnloadingFail, UnloadingAbortMessage)]
    else []
  }

  /** What an abort begun in phase `p` raises, given the moves it made along `route`. */
  ghost function AbortEvents(p: MissionPhase, moves: seq<NavCall>, route: seq<Waypoint>): seq<Event>
    requires FollowsPlan(moves, route)
  {
    if CompletedPlan(moves, route) then AbortAlerts(p) else [Alert(MachineFailure, ManualHelpMessage)]
  }

  /** An abort that reaches headquarters ends the mission exactly when it interrupted a return, an
      abort or an unloading; otherwise the phase, active or not, is left as it was. */
  lemma AbortOutcomeEndsMission(p: MissionPhase)
    ensures !IsActivePhase(AbortOutcome(p)) <==> !IsActivePhase(p) || p == Return || p == Unloading
    ensures IsActivePhase(p) && p != Return && p != Unloading ==> AbortOutcome(p) == p
  {
  }

  /** The phase a lost-target abort leaves: FAILED when the trip to headquarters arrived, and
      still ABORT when a leg failed. */
  ghost function LossAbortPhase(moves: seq<NavCall>, route: seq<Waypoint>): MissionPhase
    requires FollowsPlan(moves, route)
  {
    if CompletedPlan(moves, route) then AbortOutcome(Abort) else Abort
  }

  /** The phase `_advance_phase` moves on to from `p`. */
  function AdvancedPhase(p: MissionPhase): MissionPhase {
    if p == Surface then Underwater else if p == Underwater then MissionPhase.Done else p
  }

  class FishMissionPlanner {
    var missionCfg: Mission
    const notifier: AlertNotifier
    const binManager: BinManager
    const navigator: PathNavigator
    const executor: ActionExecutor
    const garbageUnloader: UnloadGarbageBehavior
    var missionStartTime: real
    var missionEndTime: real
    var phase: MissionPhase
    const depths: Depths
    var activeTarget: TrackId
    var retryCount: int
    const maxRetries: int
    var lostTarget: int
    const maxTargetLoss: int
    /** The checkpoint taken at the start of each tick and at each abort; absent before the first. */
    var freezeMissionData: Option<MissionCheckpoint>
    var tickCount: int

    /** How the collaborators are wired: the executor fills this planner's bin, the unloader shares
        its notifier and navigator, and the bin alerts through a notifier of its own. */
    ghost predicate Valid() {
      executor.binManager == binManager &&
      garbageUnloader.notifier == notifier &&
      garbageUnloader.navigator == navigator &&
      garbageUnloader.depths == depths &&
      binManager.notifier != notifier
    }

    /** What a lost-target abort begun at `from` leaves: the trip followed the surface route to
        headquarters, the phase is `LossAbortPhase`, the events are those of an abort from ABORT,
        and the checkpoint records the ABORT phase. */
    ghost predicate AbortedOnLoss(abortMoves: seq<NavCall>, from: Waypoint, eventsBefore: seq<Event>)
      reads this, notifier
    {
      var route := SurfaceRoute(from, depths.surface, missionCfg.hqPoint);
      FollowsPlan(abortMoves, route) &&
      phase == LossAbortPhase(abortMoves, route) &&
      notifier.events == eventsBefore + AbortEvents(Abort, abortMoves, route) &&
      freezeMissionData.Some? && freezeMissionData.value.lastPhase == Abort
    }

    constructor (missionCfg: Mission, binCfg: Bin, navigationCfg: Navigation, costModelCfg: CostModel,
                 dumpLocationCfg: DumpLocation, hypot: (real, real) -> real)
      requires HypotLaws(hypot)
      ensures Valid()
      ensures HypotLaws(garbageUnloader.costCalculator.hypot)
      ensures this.missionCfg == missionCfg && depths == missionCfg.depths
      ensures phase == Surface && activeTarget == None && retryCount == 0 && lostTarget == 0 && tickCount == 0
      ensures maxRetries == missionCfg.limits.maxOperationRetries
      ensures maxTargetLoss == missionCfg.limits.maxTargetLossIgnore
      ensures freezeMissionData == None
      ensures binManager.capacity == binCfg.binCapacity && binManager.alertThreshold == binCfg.alertThreshold
      ensures binManager.currentLoad == 0
      ensures garbageUnloader.dPoints == dumpLocationCfg.dPoints
      ensures notifier.events == []
      ensures navigator.trace == [SetPathCall(missionCfg.depths.surface, missionCfg.startPoint)]
    {
      this.missionCfg := missionCfg;
      var notifierObj := new AlertNotifier();
      notifier := notifierObj;
      var bin := new BinManager(binCfg);
      binManager := bin;
      var nav := new PathNavigator(navigationCfg);
      navigator := nav;
      executor := new ActionExecutor(bin);
      garbageUnloader := new UnloadGarbageBehavior(costModelCfg, notifierObj, nav, dumpLocationCfg, missionCfg.depths, hypot);
      missionStartTime := *;
      missionEndTime := *;
      phase := Surface;
      depths := missionCfg.depths;
      activeTarget := None;
      retryCount := 0;
      maxRetries := missionCfg.limits.maxOperationRetries;
      lostTarget := 0;
      maxTargetLoss := missionCfg.limits.maxTargetLossIgnore;
      freezeMissionData := None;
      tickCount := 0;
      new;
      navigator.SetPath(depths.surface, this.missionCfg.startPoint);
    }

    method MissionIsActive() returns (active: bool)
      ensures active <==> !(phase == MissionPhase.Done || phase == Abort || phase == MissionPhase.Failed)
    {
      if phase == MissionPhase.Done || phase == Abort || phase == MissionPhase.Failed {
        return false;
      }
      return true;
    }

    method ActionIsAllowed() returns (allowed: bool)
      ensures allowed <==> phase == Surface || phase == Underwater
    {
      if phase == Surface || phase == Underwater {
        return true;
      }
      return false;
    }

    /** Calls for human help. */
    method GetManualHelp()
      modifies notifier
      ensures notifier.events == old(notifier.events) + [Alert(MachineFailure, ManualHelpMessage)]
    {
      notifier.RaiseAlert(MachineFailure, ManualHelpMessage);
    }

    /** Heads straight back to headquarters, surfacing first when underwater. If any move fails, help
        is called and the phase is left unchanged; otherwise the phase becomes `AbortOutcome`. The
        surfacing target is the navigator's own position object with its depth overwritten, and the
        fresh checkpoint holds that same object, so both show the surface depth. */
    method AbortMission() returns (ghost moves: seq<NavCall>)
      modifies this`freezeMissionData, this`phase, navigator, notifier
      ensures navigator.trace == old(navigator.trace) + moves
      ensures FollowsPlan(moves, SurfaceRoute(old(navigator.currentPosition), depths.surface, missionCfg.hqPoint))
      ensures var reached := CompletedPlan(moves, SurfaceRoute(old(navigator.currentPosition), depths.surface, missionCfg.hqPoint));
        phase == (if reached then AbortOutcome(old(phase)) else old(phase)) &&
        notifier.events == old(notifier.events) +
          (if reached then AbortAlerts(old(phase)) else [Alert(MachineFailure, ManualHelpMessage)])
      ensures freezeMissionData.Some? && freezeMissionData.value.lastPhase == old(phase)
      ensures freezeMissionData.value.lastPosition == old(navigator.currentPosition).(z := depths.surface)
        || (old(navigator.currentPosition).z == depths.surface && freezeMissionData.value.lastPosition == old(navigator.currentPosition))
    {
      var now: real := *;
      freezeMissionData := Some(MissionCheckpoint(phase, navigator.currentPosition, now));
      var hq := missionCfg.hqPoint;
      var currPos := navigator.currentPosition;
      var currLevel := currPos.z;
      if currLevel == depths.surface {
        var reachedHQ := navigator.MoveTo(hq);
        moves := [MoveToCall(hq, reachedHQ)];
        if !reachedHQ {
          GetManualHelp();
          return;
        }
      } else {
        navigator.currentPosition := navigator.currentPosition.(z := depths.surface);
        freezeMissionData := Some(freezeMissionData.value.(lastPosition := navigator.currentPosition));
        var surfacePos := navigator.currentPosition;
        var reachedUp := navigator.MoveTo(surfacePos);
        moves := [MoveToCall(surfacePos, reachedUp)];
        if !reachedUp {
          GetManualHelp();
          return;
        }
        var reachedHQ := navigator.MoveTo(hq);
        moves := moves + [MoveToCall(hq, reachedHQ)];
        if !reachedHQ {
          GetManualHelp();
          return;
        }
      }
      if phase == Return {
        phase := MissionPhase.Done;
      }
      if phase == Abort {
        notifier.RaiseAlert(HardAbort, HardAbortMessage);
        phase := MissionPhase.Failed;
      }
      if phase == Unloading {
        notifier.RaiseAlert(UnloadingFail, UnloadingAbortMessage);
        phase := MissionPhase.Failed;
      }
    }

    /** The retry loop after a failed first grasp: up to `maxRetries - retryCount` further grasps,
        stopping at the first success. When every retry fails, one more target counts as lost, and
        reaching the loss limit aborts the mission. `tries` is the number of grasps made and
        `abortMoves` the navigator calls of the abort, if any. */
    method HandleFailure(actionIntent: ActionIntent) returns (recovered: bool, ghost tries: nat, ghost abortMoves: seq<NavCall>)
      requires Valid()
      modifies this`retryCount, this`lostTarget, this`phase, this`freezeMissionData, executor.manipulator, navigator, notifier
      ensures GraspedAt(old(executor.manipulator.grasps), executor.manipulator.grasps, actionIntent.bbox, tries)
      ensures recovered <==> tries > 0 && executor.manipulator.grasps[|executor.manipulator.grasps| - 1].success
      ensures recovered ==> tries <= maxRetries - old(retryCount) && retryCount == old(retryCount) + tries - 1
      ensures !recovered ==> tries == Max(0, maxRetries - old(retryCount)) && retryCount == old(retryCount) + tries
      ensures lostTarget == old(lostTarget) + (if recovered then 0 else 1)
      ensures navigator.trace == old(navigator.trace) + abortMoves
      ensures recovered || lostTarget < maxTargetLoss ==>
        phase == old(phase) && abortMoves == [] && notifier.events == old(notifier.events) &&
        freezeMissionData == old(freezeMissionData)
      ensures !recovered && lostTarget >= maxTargetLoss ==>
        abortMoves != [] && AbortedOnLoss(abortMoves, old(navigator.currentPosition), old(notifier.events))
    {
      ghost var before := executor.manipulator.grasps;
      ghost var startRetry := retryCount;
      abortMoves := [];
      while retryCount < maxRetries
        invariant startRetry <= retryCount <= Max(startRetry, maxRetries)
        invariant |executor.manipulator.grasps| == |before| + (retryCount - startRetry)
        invariant executor.manipulator.grasps[..|before|] == before
        invariant forall i :: |before| <= i < |executor.manipulator.grasps| ==>
          executor.manipulator.grasps[i].bbox == actionIntent.bbox && !executor.manipulator.grasps[i].success
        invariant lostTarget == old(lostTarget) && phase == old(phase)
        invariant navigator.trace == old(navigator.trace) && navigator.currentPosition == old(navigator.currentPosition)
        invariant notifier.events == old(notifier.events) && freezeMissionData == old(freezeMissionData)
        decreases maxRetries - retryCount
      {
        var feedback := executor.ExecuteAction(actionIntent);
        if feedback.status == Success {
          tries := retryCount - startRetry + 1;
          return true, tries, [];
        }
        retryCount := retryCount + 1;
      }
      tries := retryCount - startRetry;
      lostTarget := lostTarget + 1;
      if lostTarget >= maxTargetLoss {
        phase := Abort;
        abortMoves := AbortMission();
      }
      recovered := false;
    }

    /** The grasp and its retries: one grasp, and the retry loop when it fails. A success on a
        retry is reported as a success with its own reason. `attempts` is the number of grasps
        made and `abortMoves` the navigator calls of a lost-target abort, if any. */
    method AttemptCollection(actionIntent: ActionIntent) returns (feedback: ActionFeedback, ghost attempts: nat, ghost abortMoves: seq<NavCall>)
      requires Valid()
      modifies this`retryCount, this`lostTarget, this`phase, this`freezeMissionData, executor.manipulator, navigator, notifier
      ensures attempts >= 1 && GraspedAt(old(executor.manipulator.grasps), executor.manipulator.grasps, actionIntent.bbox, attempts)
      ensures feedback.status == Success <==> executor.manipulator.grasps[|executor.manipulator.grasps| - 1].success
      ensures feedback.status == Success || feedback.status == ActionStatus.Failed
      ensures feedback.trackId == actionIntent.trackId
      ensures feedback.reason == (if feedback.status == ActionStatus.Failed then GraspFailedReason
                                  else if attempts == 1 then CollectedReason else RetrySuccessReason)
      ensures feedback.status == Success ==> lostTarget == old(lostTarget)
      ensures feedback.status == ActionStatus.Failed ==> lostTarget == old(lostTarget) + 1
      ensures navigator.trace == old(navigator.trace) + abortMoves
      ensures abortMoves != [] <==> feedback.status == ActionStatus.Failed && lostTarget >= maxTargetLoss
      ensures abortMoves == [] ==>
        phase == old(phase) && notifier.events == old(notifier.events) && freezeMissionData == old(freezeMissionData)
      ensures abortMoves != [] ==> AbortedOnLoss(abortMoves, old(navigator.currentPosition), old(notifier.events))
    {
      ghost var before := executor.manipulator.grasps;
      feedback := executor.ExecuteAction(actionIntent);
      attempts := 1;
      abortMoves := [];
      ghost var first := executor.manipulator.grasps;
      assert GraspedAt(before, first, actionIntent.bbox, 1) by {
        assert first[..|before|] == before;
      }
      if feedback.status != Success {
        ghost var tries;
        var collected;
        collected, tries, abortMoves := HandleFailure(actionIntent);
        attempts := 1 + tries;
        GraspedAtChain(before, first, executor.manipulator.grasps, actionIntent.bbox, 1, tries);
        ghost var grasps := executor.manipulator.grasps;
        if tries == 0 {
          assert grasps == grasps[..|first|] == first;
        }
        assert collected <==> grasps[|grasps| - 1].success;
        assert abortMoves != [] <==> !collected && lostTarget >= maxTargetLoss;
        if collected {
          feedback := feedback.(status := Success, reason := RetrySuccessReason);
        }
      }
    }

    /** Collects the target: pauses, grasps with retries, counts a collected item in the bin, then
        clears the target and the retry count and resumes. */
    method HandleTarget(actionIntent: ActionIntent)
      returns (feedback: ActionFeedback, ghost attempts: nat, ghost abortFrom: Waypoint, ghost abortMoves: seq<NavCall>)
      requires Valid()
      modifies this`activeTarget, this`retryCount, this`lostTarget, this`phase, this`freezeMissionData,
        executor.manipulator, navigator, notifier, binManager`currentLoad
      ensures activeTarget == None && retryCount == 0
      ensures attempts >= 1 && GraspedAt(old(executor.manipulator.grasps), executor.manipulator.grasps, actionIntent.bbox, attempts)
      ensures feedback.status == Success <==> executor.manipulator.grasps[|executor.manipulator.grasps| - 1].success
      ensures feedback.status == Success || feedback.status == ActionStatus.Failed
      ensures feedback.trackId == actionIntent.trackId
      ensures feedback.reason == (if feedback.status == ActionStatus.Failed then GraspFailedReason
                                  else if attempts == 1 then CollectedReason else RetrySuccessReason)
      ensures binManager.currentLoad == old(binManager.currentLoad) + (if feedback.status == Success then 1 else 0)
      ensures feedback.status == Success ==> lostTarget == old(lostTarget)
      ensures feedback.status == ActionStatus.Failed ==> lostTarget == old(lostTarget) + 1
      ensures navigator.trace == old(navigator.trace) + [PauseCall] + abortMoves + [ResumeCall]
      ensures abortMoves != [] <==> feedback.status == ActionStatus.Failed && lostTarget >= maxTargetLoss
      ensures abortMoves == [] ==>
        phase == old(phase) && notifier.events == old(notifier.events) && freezeMissionData == old(freezeMissionData)
      ensures abortMoves != [] ==> AbortedOnLoss(abortMoves, abortFrom, old(notifier.events))
    {
      navigator.Pause();
      abortFrom := navigator.currentPosition;
      activeTarget := actionIntent.trackId;
      feedback, attempts, abortMoves := AttemptCollection(actionIntent);
      if feedback.status == Success {
        binManager.AddGarbage();
      }
      activeTarget := None;
      retryCount := 0;
      navigator.Resume();
    }

    /** End of the surface sweep: descends to the underwater start, which is the mission's end point
        with its depth overwritten in place, then sets the underwater path and speed. A failed
        descent raises an alert and aborts, after which the method still goes on to the underwater
        phase, as the code does. */
    method AdvanceFromSurface() returns (reachedDown: bool, ghost abortFrom: Waypoint, ghost abortMoves: seq<NavCall>)
      modifies this`phase, this`missionCfg, this`freezeMissionData, navigator, notifier
      ensures missionCfg == old(missionCfg).(endPoint := old(missionCfg).endPoint.(z := depths.underwater))
      ensures phase == Underwater
      ensures navigator.currSpeed == navigator.speeds.underwater
      ensures navigator.trace == old(navigator.trace) + [MoveToCall(missionCfg.endPoint, reachedDown)] + abortMoves
        + [SetPathCall(depths.underwater, missionCfg.endPoint)]
      ensures reachedDown <==> abortMoves == []
      ensures reachedDown ==> freezeMissionData == old(freezeMissionData)
      ensures !reachedDown ==> freezeMissionData.Some? && freezeMissionData.value.lastPhase == Abort
      ensures !reachedDown ==> FollowsPlan(abortMoves, SurfaceRoute(abortFrom, depths.surface, missionCfg.hqPoint))
      ensures notifier.events == old(notifier.events) + [Notification(SurfaceCleaningEnded, SurfaceEndedMessage)]
        + (if reachedDown then [] else
             [Alert(DescendFail, DescendFailMessage)]
             + AbortEvents(Abort, abortMoves, SurfaceRoute(abortFrom, depths.surface, missionCfg.hqPoint)))
        + [Notification(MachineDescended, DescendedMessage)]
    {
      notifier.RaiseNotification(SurfaceCleaningEnded, SurfaceEndedMessage);
      phase := Descend;
      missionCfg := missionCfg.(endPoint := missionCfg.endPoint.(z := depths.underwater));
      var underwaterStartPos := missionCfg.endPoint;
      reachedDown := navigator.MoveTo(underwaterStartPos);
      abortFrom := navigator.currentPosition;
      abortMoves := [];
      if !reachedDown {
        notifier.RaiseAlert(DescendFail, DescendFailMessage);
        phase := Abort;
        abortMoves := AbortMission();
      }
      notifier.RaiseNotification(MachineDescended, DescendedMessage);
      phase := Underwater;
      navigator.SetPath(depths.underwater, underwaterStartPos);
      navigator.currSpeed := navigator.speeds.underwater;
    }

    /** The ascent that ends the underwater sweep, towards the mission start point. A failed ascent
        raises an alert and aborts, after which the method still moves on to the return phase. */
    method AscendToStart() returns (reachedUp: bool, ghost abortFrom: Waypoint, ghost abortMoves: seq<NavCall>)
      modifies this`phase, this`freezeMissionData, navigator, notifier
      ensures phase == Return
      ensures navigator.trace == old(navigator.trace) + [MoveToCall(missionCfg.startPoint, reachedUp)] + abortMoves
      ensures reachedUp <==> abortMoves == []
      ensures reachedUp ==> freezeMissionData == old(freezeMissionData)
      ensures !reachedUp ==> freezeMissionData.Some? && freezeMissionData.value.lastPhase == Abort
      ensures !reachedUp ==> FollowsPlan(abortMoves, SurfaceRoute(abortFrom, depths.surface, missionCfg.hqPoint))
      ensures notifier.events == old(notifier.events) + [Notification(UnderwaterCleaningEnded, UnderwaterEndedMessage)]
        + (if reachedUp then [] else
             [Alert(AscendFail, AscendFailMessage)]
             + AbortEvents(Abort, abortMoves, SurfaceRoute(abortFrom, depths.surface, missionCfg.hqPoint)))
        + [Notification(MachineAscended, AscendedMessage)]
    {
      notifier.RaiseNotification(UnderwaterCleaningEnded, UnderwaterEndedMessage);
      phase := Ascend;
      reachedUp := navigator.MoveTo(missionCfg.startPoint);
      abortFrom := navigator.currentPosition;
      abortMoves := [];
      if !reachedUp {
        notifier.RaiseAlert(AscendFail, AscendFailMessage);
        phase := Abort;
        abortMoves := AbortMission();
      }
      notifier.RaiseNotification(MachineAscended, AscendedMessage);
      phase := Return;
    }

    /** The return to headquarters. A failed return raises an alert and aborts from the return
        phase; either way the mission then ends in `Done` with its completion notification. */
    method ReturnToHeadquarters() returns (reachedHQ: bool, ghost abortFrom: Waypoint, ghost abortMoves: seq<NavCall>)
      requires phase == Return
      modifies this`phase, this`freezeMissionData, this`missionEndTime, navigator, notifier
      ensures phase == MissionPhase.Done
      ensures navigator.trace == old(navigator.trace) + [MoveToCall(missionCfg.hqPoint, reachedHQ)] + abortMoves
      ensures reachedHQ <==> abortMoves == []
      ensures reachedHQ ==> freezeMissionData == old(freezeMissionData)
      ensures !reachedHQ ==> freezeMissionData.Some? && freezeMissionData.value.lastPhase == Return
      ensures !reachedHQ ==> FollowsPlan(abortMoves, SurfaceRoute(abortFrom, depths.surface, missionCfg.hqPoint))
      ensures notifier.events == old(notifier.events)
        + (if reachedHQ then [] else
             [Alert(HqReturnFail, ReturnFailMessage)]
             + AbortEvents(Return, abortMoves, SurfaceRoute(abortFrom, depths.surface, missionCfg.hqPoint)))
        + [Notification(ReachedHeadquarter, ReachedHqMessage), Notification(MissionCompleted, MissionCompletedMessage)]
    {
      var hqPos := missionCfg.hqPoint;
      reachedHQ := navigator.MoveTo(hqPos);
      abortFrom := navigator.currentPosition;
      abortMoves := [];
      if !reachedHQ {
        notifier.RaiseAlert(HqReturnFail, ReturnFailMessage);
        abortMoves := AbortMission();
      }
      notifier.RaiseNotification(ReachedHeadquarter, ReachedHqMessage);
      phase := MissionPhase.Done;
      missionEndTime := *;
      notifier.RaiseNotification(MissionCompleted, MissionCompletedMessage);
    }

    /** Moves the mission on once the current path is finished: surface to underwater, underwater
        to done; any other phase is left alone. `reached`, `abortFrom` and `abortMoves` describe
        the descent or the ascent and its abort, `reachedHQ`, `returnFrom` and `returnAbort` the
        return to headquarters and its abort. */
    method AdvancePhase()
      returns (ghost reached: bool, ghost abortFrom: Waypoint, ghost abortMoves: seq<NavCall>,
               ghost reachedHQ: bool, ghost returnFrom: Waypoint, ghost returnAbort: seq<NavCall>)
      modifies this`phase, this`missionCfg, this`freezeMissionData, this`missionEndTime, navigator, notifier
      ensures phase == AdvancedPhase(old(phase))
      ensures old(navigator.trace) <= navigator.trace
      ensures missionCfg.hqPoint == old(missionCfg.hqPoint)
      ensures old(phase) == Surface ==>
        missionCfg == old(missionCfg).(endPoint := old(missionCfg).endPoint.(z := depths.underwater)) &&
        navigator.currSpeed == navigator.speeds.underwater &&
        navigator.trace == old(navigator.trace) + [MoveToCall(missionCfg.endPoint, reached)] + abortMoves
          + [SetPathCall(depths.underwater, missionCfg.endPoint)] &&
        (reached <==> abortMoves == []) &&
        (reached ==> freezeMissionData == old(freezeMissionData)) &&
        (!reached ==> freezeMissionData.Some? && freezeMissionData.value.lastPhase == Abort &&
                      FollowsPlan(abortMoves, SurfaceRoute(abortFrom, depths.surface, missionCfg.hqPoint))) &&
        notifier.events == old(notifier.events) + [Notification(SurfaceCleaningEnded, SurfaceEndedMessage)]
          + (if reached then [] else
               [Alert(DescendFail, DescendFailMessage)]
               + AbortEvents(Abort, abortMoves, SurfaceRoute(abortFrom, depths.surface, missionCfg.hqPoint)))
          + [Notification(MachineDescended, DescendedMessage)]
      ensures old(phase) == Underwater ==>
        missionCfg == old(missionCfg) &&
        navigator.trace == old(navigator.trace) + [MoveToCall(missionCfg.startPoint, reached)] + abortMoves
          + [MoveToCall(missionCfg.hqPoint, reachedHQ)] + returnAbort &&
        (reached <==> abortMoves == []) && (reachedHQ <==> returnAbort == []) &&
        (reached && reachedHQ ==> freezeMissionData == old(freezeMissionData)) &&
        (!reached && reachedHQ ==> freezeMissionData.Some? && freezeMissionData.value.lastPhase == Abort) &&
        (!reachedHQ ==> freezeMissionData.Some? && freezeMissionData.value.lastPhase == Return) &&
        (!reached ==> FollowsPlan(abortMoves, SurfaceRoute(abortFrom, depths.surface, missionCfg.hqPoint))) &&
        (!reachedHQ ==> FollowsPlan(returnAbort, SurfaceRoute(returnFrom, depths.surface, missionCfg.hqPoint))) &&
        notifier.events == old(notifier.events) + [Notification(UnderwaterCleaningEnded, UnderwaterEndedMessage)]
          + (if reached then [] else
               [Alert(AscendFail, AscendFailMessage)]
               + AbortEvents(Abort, abortMoves, SurfaceRoute(abortFrom, depths.surface, missionCfg.hqPoint)))
          + [Notification(MachineAscended, AscendedMessage)]
          + (if reachedHQ then [] else
               [Alert(HqReturnFail, ReturnFailMessage)]
               + AbortEvents(Return, returnAbort, SurfaceRoute(returnFrom, depths.surface, missionCfg.hqPoint)))
          + [Notification(ReachedHeadquarter, ReachedHqMessage), Notification(MissionCompleted, MissionCompletedMessage)]
      ensures old(phase) != Surface && old(phase) != Underwater ==>
        missionCfg == old(missionCfg) && freezeMissionData == old(freezeMissionData) &&
        navigator.trace == old(navigator.trace) && navigator.currentPosition == old(navigator.currentPosition) &&
        notifier.events == old(notifier.events)
    {
      reached, abortFrom, abortMoves := true, navigator.currentPosition, [];
      reachedHQ, returnFrom, returnAbort := true, navigator.currentPosition, [];
      if phase == Surface {
        var reachedDown;
        reachedDown, abortFrom, abortMoves := AdvanceFromSurface();
        reached := reachedDown;
      } else if phase == Underwater {
        var reachedUp, reachedBack;
        reachedUp, abortFrom, abortMoves := AscendToStart();
        reachedBack, returnFrom, returnAbort := ReturnToHeadquarters();
        reached, reachedHQ := reachedUp, reachedBack;
      }
    }

    /** The last step of a tick: asks the navigator whether the path is finished and advances the
        phase when it is. */
    method AdvanceIfFinished() returns (finished: bool)
      modifies this`phase, this`missionCfg, this`freezeMissionData, this`missionEndTime, navigator, notifier
      ensures |navigator.trace| > |old(navigator.trace)|
      ensures navigator.trace[..|old(navigator.trace)| + 1] == old(navigator.trace) + [FinishedCall(finished)]
      ensures finished ==> phase == AdvancedPhase(old(phase))
      ensures !finished ==>
        navigator.trace == old(navigator.trace) + [FinishedCall(false)] && phase == old(phase) &&
        freezeMissionData == old(freezeMissionData) && notifier.events == old(notifier.events)
      ensures finished && old(phase) == Surface ==>
        missionCfg == old(missionCfg).(endPoint := old(missionCfg).endPoint.(z := depths.underwater))
      ensures !(finished && old(phase) == Surface) ==> missionCfg == old(missionCfg)
    {
      finished := navigator.PathIsFinished();
      if finished {
        ghost var trace := navigator.trace;
        ghost var reached, stepFrom, stepAbort, reachedHQ, returnFrom, returnAbort := AdvancePhase();
        assert navigator.trace[..|trace|] == trace;
      }
    }

    /** Unloads a full bin at the cheapest dump point, starting from `checkpoint`. After a
        successful unload the bin is emptied and the checkpoint's phase restored; after a failed
        one the mission is aborted from the unloading phase. `r` is `Ok(false)` exactly for the
        failed unload, and an exception of the unloader comes back as `Err`. */
    method UnloadBin(checkpoint: MissionCheckpoint) returns (r: Result<bool>, ghost unloadMoves: seq<NavCall>, ghost abortFrom: Waypoint, ghost abortMoves: seq<NavCall>)
      requires Valid()
      modifies this`freezeMissionData, this`phase, binManager`currentLoad, garbageUnloader`missionCheckpoint, navigator, notifier
      ensures garbageUnloader.missionCheckpoint == Some(checkpoint)
      ensures navigator.trace == old(navigator.trace) + unloadMoves + abortMoves
      ensures abortMoves == [] ==> freezeMissionData == old(freezeMissionData)
      ensures abortMoves != [] ==> freezeMissionData.Some? && freezeMissionData.value.lastPhase == Unloading
      ensures var best := BestDockingPoint(garbageUnloader.costCalculator, garbageUnloader.envModel, checkpoint.lastPosition, garbageUnloader.dPoints);
        (best.Err? ==>
           r == Err(best.fault) && phase == Unloading && unloadMoves == [] && abortMoves == [] &&
           binManager.currentLoad == old(binManager.currentLoad) &&
           notifier.events == old(notifier.events) + [Alert(BinFull, UnloadStartedMessage)]) &&
        (best.Ok? ==>
           FollowsPlan(unloadMoves, SurfaceRoute(checkpoint.lastPosition, depths.surface, best.value)) &&
           r == Ok(CompletedPlan(unloadMoves, SurfaceRoute(checkpoint.lastPosition, depths.surface, best.value))))
      ensures r == Ok(true) ==>
        binManager.currentLoad == 0 && phase == checkpoint.lastPhase && abortMoves == [] &&
        notifier.events == old(notifier.events) + [Alert(BinFull, UnloadStartedMessage), Notification(GarbageUnloadingEnded, UnloadEndedMessage)]
      ensures r == Ok(false) ==>
        binManager.currentLoad == old(binManager.currentLoad) &&
        FollowsPlan(abortMoves, SurfaceRoute(abortFrom, depths.surface, missionCfg.hqPoint)) &&
        var reached := CompletedPlan(abortMoves, SurfaceRoute(abortFrom, depths.surface, missionCfg.hqPoint));
        phase == (if reached then MissionPhase.Failed else Unloading) &&
        notifier.events == old(notifier.events) + [Alert(BinFull, UnloadStartedMessage)]
          + AbortEvents(Unloading, abortMoves, SurfaceRoute(abortFrom, depths.surface, missionCfg.hqPoint))
    {
      abortMoves := [];
      abortFrom := navigator.currentPosition;
      phase := Unloading;
      var binIsUnloaded;
      binIsUnloaded, unloadMoves := garbageUnloader.UnloadGarbage(checkpoint);
      if binIsUnloaded.Err? {
        return Err(binIsUnloaded.fault), unloadMoves, abortFrom, abortMoves;
      }
      ghost var started := old(notifier.events) + [Alert(BinFull, UnloadStartedMessage)];
      if binIsUnloaded.value {
        var _ := binManager.ResetBin();
        phase := checkpoint.lastPhase;
        r := Ok(true);
      } else {
        assert notifier.events == started;
        abortFrom := navigator.currentPosition;
        abortMoves := AbortMission();
        r := Ok(false);
      }
    }

    /** The first two steps of a tick: takes the checkpoint, then unloads when the bin has reached
        its threshold. `r` is `Ok(false)` exactly for a failed unload; the bin's division by zero
        and the unloader's exceptions come back as `Err`. */
    method UnloadIfFull() returns (r: Result<bool>, ghost unloadMoves: seq<NavCall>, ghost abortFrom: Waypoint, ghost abortMoves: seq<NavCall>)
      requires Valid()
      modifies this`freezeMissionData, this`phase, binManager`currentLoad, binManager.notifier,
        garbageUnloader`missionCheckpoint, navigator, notifier
      ensures freezeMissionData.Some?
      ensures abortMoves == [] ==>
        freezeMissionData.value.lastPhase == old(phase) && freezeMissionData.value.lastPosition == old(navigator.currentPosition)
      ensures abortMoves != [] ==> freezeMissionData.value.lastPhase == Unloading
      ensures navigator.trace == old(navigator.trace) + unloadMoves + abortMoves
      ensures binManager.capacity == 0 ==>
        r == Err(ZeroDivisionError) && phase == old(phase) && unloadMoves == [] && abortMoves == [] &&
        binManager.currentLoad == old(binManager.currentLoad) && binManager.notifier.events == old(binManager.notifier.events) &&
        notifier.events == old(notifier.events) && garbageUnloader.missionCheckpoint == old(garbageUnloader.missionCheckpoint)
      ensures binManager.capacity != 0 && !ReachedCapacity(old(binManager.currentLoad), binManager.capacity, binManager.alertThreshold) ==>
        r == Ok(true) && phase == old(phase) && unloadMoves == [] && abortMoves == [] &&
        binManager.currentLoad == old(binManager.currentLoad) && binManager.notifier.events == old(binManager.notifier.events) &&
        notifier.events == old(notifier.events) && garbageUnloader.missionCheckpoint == old(garbageUnloader.missionCheckpoint)
      ensures binManager.capacity != 0 && ReachedCapacity(old(binManager.currentLoad), binManager.capacity, binManager.alertThreshold) ==>
        binManager.notifier.events == old(binManager.notifier.events) + [Alert(BinFull, BinFullMessage)] &&
        garbageUnloader.missionCheckpoint.Some? &&
        garbageUnloader.missionCheckpoint.value.lastPhase == old(phase) &&
        garbageUnloader.missionCheckpoint.value.lastPosition == old(navigator.currentPosition)
      ensures binManager.capacity != 0 && ReachedCapacity(old(binManager.currentLoad), binManager.capacity, binManager.alertThreshold) ==>
        var best := BestDockingPoint(garbageUnloader.costCalculator, garbageUnloader.envModel, old(navigator.currentPosition), garbageUnloader.dPoints);
        (best.Err? ==> r == Err(best.fault) && phase == Unloading &&
                       notifier.events == old(notifier.events) + [Alert(BinFull, UnloadStartedMessage)]) &&
        (best.Ok? ==> FollowsPlan(unloadMoves, SurfaceRoute(old(navigator.currentPosition), depths.surface, best.value)) &&
                      r == Ok(CompletedPlan(unloadMoves, SurfaceRoute(old(navigator.currentPosition), depths.surface, best.value))))
      ensures r == Ok(true) && ReachedCapacity(old(binManager.currentLoad), binManager.capacity, binManager.alertThreshold) ==>
        binManager.currentLoad == 0 &&
        notifier.events == old(notifier.events) + [Alert(BinFull, UnloadStartedMessage), Notification(GarbageUnloadingEnded, UnloadEndedMessage)]
      ensures r == Ok(true) ==> phase == old(phase)
      ensures r == Ok(false) ==>
        binManager.currentLoad == old(binManager.currentLoad) &&
        FollowsPlan(abortMoves, SurfaceRoute(abortFrom, depths.surface, missionCfg.hqPoint)) &&
        phase == (if CompletedPlan(abortMoves, SurfaceRoute(abortFrom, depths.surface, missionCfg.hqPoint)) then MissionPhase.Failed else Unloading) &&
        notifier.events == old(notifier.events) + [Alert(BinFull, UnloadStartedMessage)]
          + AbortEvents(Unloading, abortMoves, SurfaceRoute(abortFrom, depths.surface, missionCfg.hqPoint))
    {
      var now: real := *;
      var checkpoint := MissionCheckpoint(phase, navigator.currentPosition, now);
      freezeMissionData := Some(checkpoint);
      unloadMoves, abortMoves := [], [];
      abortFrom := navigator.currentPosition;
      var full := binManager.BinIsFull();
      if full.Err? {
        return Err(full.fault), unloadMoves, abortFrom, abortMoves;
      }
      r := Ok(true);
      if full.value {
        r, unloadMoves, abortFrom, abortMoves := UnloadBin(checkpoint);
      }
    }

    /** The third step of a tick: collects the target when there is one and the navigator finds it
        near, and otherwise steps forward, reporting whether the step moved. `near` says which of
        the two happened. */
    method ActOrStep(actionIntent: Option<ActionIntent>, worldObject: Option<WorldObject>)
      returns (feedback: ActionFeedback, near: bool, ghost attempts: nat, ghost abortFrom: Waypoint, ghost abortMoves: seq<NavCall>)
      requires Valid()
      modifies this`activeTarget, this`retryCount, this`lostTarget, this`phase, this`freezeMissionData,
        executor.manipulator, navigator, notifier, binManager`currentLoad
      ensures near <==> feedback.status == Success || feedback.status == ActionStatus.Failed
      ensures near ==> actionIntent.Some? && worldObject.Some?
      ensures !near ==>
        navigator.trace == old(navigator.trace) + (if actionIntent.Some? && worldObject.Some? then [NearCall(worldObject.value, false)] else [])
          + [StepCall(feedback.status == MovedForward)]
      ensures !near ==>
        feedback.trackId == (if actionIntent.Some? then actionIntent.value.trackId else None) &&
        feedback.reason == (if feedback.status == MovedForward then MovedForwardReason else StepFailedReason) &&
        executor.manipulator.grasps == old(executor.manipulator.grasps) &&
        binManager.currentLoad == old(binManager.currentLoad) && phase == old(phase) &&
        activeTarget == old(activeTarget) && retryCount == old(retryCount) && lostTarget == old(lostTarget) &&
        notifier.events == old(notifier.events) && freezeMissionData == old(freezeMissionData) && abortMoves == []
      ensures near ==>
        navigator.trace == old(navigator.trace) + [NearCall(worldObject.value, true), PauseCall] + abortMoves + [ResumeCall]
      ensures near ==>
        var before := old(executor.manipulator.grasps);
        var after := executor.manipulator.grasps;
        feedback.trackId == actionIntent.value.trackId &&
        feedback.reason == (if feedback.status == ActionStatus.Failed then GraspFailedReason
                            else if attempts == 1 then CollectedReason else RetrySuccessReason) &&
        binManager.currentLoad == old(binManager.currentLoad) + (if feedback.status == Success then 1 else 0) &&
        activeTarget == None && retryCount == 0 &&
        attempts >= 1 && GraspedAt(before, after, actionIntent.value.bbox, attempts) &&
        (feedback.status == Success <==> after[|after| - 1].success)
      ensures near ==>
        lostTarget == old(lostTarget) + (if feedback.status == Success then 0 else 1) &&
        (abortMoves != [] <==> feedback.status == ActionStatus.Failed && lostTarget >= maxTargetLoss)
      ensures near && abortMoves == [] ==>
        phase == old(phase) && notifier.events == old(notifier.events) && freezeMissionData == old(freezeMissionData)
      ensures near && abortMoves != [] ==> AbortedOnLoss(abortMoves, abortFrom, old(notifier.events))
    {
      near, attempts, abortMoves := false, 0, [];
      abortFrom := navigator.currentPosition;
      if actionIntent.Some? && worldObject.Some? {
        near := navigator.TargetIsNear(worldObject.value);
      }
      if near {
        feedback, attempts, abortFrom, abortMoves := HandleTarget(actionIntent.value);
      } else {
        var targetId := if actionIntent.Some? then actionIntent.value.trackId else None;
        var movedForward := navigator.Step();
        if movedForward {
          feedback := ActionFeedback(MovedForward, targetId, MovedForwardReason);
        } else {
          feedback := ActionFeedback(NothingHappened, targetId, StepFailedReason);
        }
      }
    }

    /** Steps three and four of a tick: collect or step, then ask the navigator whether the path is
        finished, advance the phase when it is, and count the tick. `midPhase` and `midTrace` are
        the phase and the navigator trace between the two steps, and `targetAbort` the moves of a
        lost-target abort begun at `abortFrom`. The feedback always carries a reason of its own,
        never the one of a failed unload. */
    method ActThenAdvance(actionIntent: Option<ActionIntent>, worldObject: Option<WorldObject>)
      returns (feedback: ActionFeedback, finished: bool, ghost midPhase: MissionPhase, ghost midTrace: seq<NavCall>,
               ghost abortFrom: Waypoint, ghost targetAbort: seq<NavCall>)
      requires Valid()
      modifies this`activeTarget, this`retryCount, this`lostTarget, this`phase, this`freezeMissionData, this`missionCfg,
        this`missionEndTime, this`tickCount, executor.manipulator, navigator, notifier, binManager`currentLoad
      ensures tickCount == old(tickCount) + 1
      ensures feedback.reason != UnloadFailedReason
      ensures binManager.currentLoad == old(binManager.currentLoad) + (if feedback.status == Success then 1 else 0)
      ensures feedback.status == Success || feedback.status == ActionStatus.Failed ==>
        actionIntent.Some? && worldObject.Some? && feedback.trackId == actionIntent.value.trackId
      ensures feedback.status == MovedForward || feedback.status == NothingHappened ==>
        feedback.trackId == (if actionIntent.Some? then actionIntent.value.trackId else None) &&
        executor.manipulator.grasps == old(executor.manipulator.grasps)
      ensures |executor.manipulator.grasps| > |old(executor.manipulator.grasps)| ==> actionIntent.Some? && worldObject.Some?
      ensures old(navigator.trace) <= midTrace
      ensures |navigator.trace| > |midTrace| && navigator.trace[..|midTrace| + 1] == midTrace + [FinishedCall(finished)]
      ensures !finished ==> navigator.trace == midTrace + [FinishedCall(false)] && phase == midPhase
      ensures finished ==> phase == AdvancedPhase(midPhase)
      ensures targetAbort != [] <==> feedback.status == ActionStatus.Failed && lostTarget >= maxTargetLoss
      ensures targetAbort == [] ==> midPhase == old(phase)
      ensures targetAbort != [] ==>
        FollowsPlan(targetAbort, SurfaceRoute(abortFrom, depths.surface, old(missionCfg.hqPoint))) &&
        midPhase == LossAbortPhase(targetAbort, SurfaceRoute(abortFrom, depths.surface, old(missionCfg.hqPoint)))
      ensures lostTarget == old(lostTarget) + (if feedback.status == ActionStatus.Failed then 1 else 0)
      ensures feedback.status == Success || feedback.status == ActionStatus.Failed ==> activeTarget == None && retryCount == 0
      ensures feedback.status == MovedForward || feedback.status == NothingHappened ==>
        activeTarget == old(activeTarget) && retryCount == old(retryCount)
      ensures finished && midPhase == Surface ==>
        missionCfg == old(missionCfg).(endPoint := old(missionCfg).endPoint.(z := depths.underwater))
      ensures !(finished && midPhase == Surface) ==> missionCfg == old(missionCfg)
    {
      var near;
      ghost var attempts;
      feedback, near, attempts, abortFrom, targetAbort := ActOrStep(actionIntent, worldObject);
      midPhase, midTrace := phase, navigator.trace;
      assert targetAbort != [] ==>
        FollowsPlan(targetAbort, SurfaceRoute(abortFrom, depths.surface, missionCfg.hqPoint));
      finished := AdvanceIfFinished();
      tickCount := tickCount + 1;
    }

    /** One control step: checkpoint, unload if the bin is full, collect or step, and advance the
        phase when the path is finished. A failed unload ends the tick early with a failure that
        names no target and is not counted; an exception of the bin or the unloader propagates.
        On a tick that reaches the collect-or-step step, `midPhase` and `midTrace` are the phase and
        the navigator trace after it, and `finished` is the navigator's answer that decides the
        phase advance. */
    method Tick(actionIntent: Option<ActionIntent>, worldObject: Option<WorldObject>)
      returns (r: Result<ActionFeedback>, finished: bool, ghost midPhase: MissionPhase, ghost midTrace: seq<NavCall>)
      requires Valid()
      modifies this, binManager, binManager.notifier, navigator, notifier, executor.manipulator, garbageUnloader
      ensures binManager.capacity == 0 ==> r == Err(ZeroDivisionError) && phase == old(phase)
      ensures r.Err? ==> tickCount == old(tickCount) && executor.manipulator.grasps == old(executor.manipulator.grasps)
      ensures r.Ok? && r.value.reason == UnloadFailedReason ==>
        r.value == ActionFeedback(ActionStatus.Failed, None, UnloadFailedReason) && tickCount == old(tickCount) &&
        executor.manipulator.grasps == old(executor.manipulator.grasps) &&
        (phase == MissionPhase.Failed || phase == Unloading)
      ensures r.Ok? && r.value.reason != UnloadFailedReason ==>
        tickCount == old(tickCount) + 1 &&
        binManager.currentLoad ==
          (if ReachedCapacity(old(binManager.currentLoad), binManager.capacity, binManager.alertThreshold) then 0 else old(binManager.currentLoad))
          + (if r.value.status == Success then 1 else 0)
      ensures r.Ok? && r.value.reason != UnloadFailedReason && (r.value.status == Success || r.value.status == ActionStatus.Failed) ==>
        actionIntent.Some? && worldObject.Some? && r.value.trackId == actionIntent.value.trackId
      ensures r.Ok? && (r.value.status == MovedForward || r.value.status == NothingHappened) ==>
        r.value.trackId == (if actionIntent.Some? then actionIntent.value.trackId else None) &&
        executor.manipulator.grasps == old(executor.manipulator.grasps)
      ensures |executor.manipulator.grasps| > |old(executor.manipulator.grasps)| ==> actionIntent.Some? && worldObject.Some?
      ensures binManager.capacity != 0 && !ReachedCapacity(old(binManager.currentLoad), binManager.capacity, binManager.alertThreshold) ==>
        garbageUnloader.missionCheckpoint == old(garbageUnloader.missionCheckpoint)
      ensures binManager.capacity != 0 && ReachedCapacity(old(binManager.currentLoad), binManager.capacity, binManager.alertThreshold) ==>
        garbageUnloader.missionCheckpoint.Some? &&
        garbageUnloader.missionCheckpoint.value.lastPhase == old(phase) &&
        garbageUnloader.missionCheckpoint.value.lastPosition == old(navigator.currentPosition)
      ensures r.Ok? && r.value.reason != UnloadFailedReason ==>
        old(navigator.trace) <= midTrace &&
        |navigator.trace| > |midTrace| && navigator.trace[..|midTrace| + 1] == midTrace + [FinishedCall(finished)] &&
        (!finished ==> navigator.trace == midTrace + [FinishedCall(false)] && phase == midPhase) &&
        (finished ==> phase == AdvancedPhase(midPhase))
      ensures r.Ok? && r.value.reason != UnloadFailedReason && !(r.value.status == ActionStatus.Failed && lostTarget >= maxTargetLoss) ==>
        midPhase == old(phase)
      ensures r.Ok? && r.value.reason != UnloadFailedReason && r.value.status == ActionStatus.Failed && lostTarget >= maxTargetLoss ==>
        midPhase == MissionPhase.Failed || midPhase == Abort
      ensures r.Ok? && r.value.reason != UnloadFailedReason ==>
        lostTarget == old(lostTarget) + (if r.value.status == ActionStatus.Failed then 1 else 0) &&
        (r.value.status == Success || r.value.status == ActionStatus.Failed ==> activeTarget == None && retryCount == 0) &&
        (r.value.status == MovedForward || r.value.status == NothingHappened ==>
           activeTarget == old(activeTarget) && retryCount == old(retryCount)) &&
        (finished && midPhase == Surface ==>
           missionCfg == old(missionCfg).(endPoint := old(missionCfg).endPoint.(z := depths.underwater))) &&
        (!(finished && midPhase == Surface) ==> missionCfg == old(missionCfg))
      ensures r.Err? || r.value.reason == UnloadFailedReason ==>
        lostTarget == old(lostTarget) && activeTarget == old(activeTarget) && retryCount == old(retryCount) &&
        missionCfg == old(missionCfg)
    {
      var unloaded;
      ghost var unloadMoves, abortFrom, unloadAbort;
      unloaded, unloadMoves, abortFrom, unloadAbort := UnloadIfFull();
      finished, midPhase, midTrace := false, phase, navigator.trace;
      if unloaded.Err? {
        r := Err(unloaded.fault);
        return;
      }
      if !unloaded.value {
        r := Ok(ActionFeedback(ActionStatus.Failed, None, UnloadFailedReason));
        return;
      }
      var feedback;
      ghost var targetFrom, targetAbort;
      feedback, finished, midPhase, midTrace, targetFrom, targetAbort := ActThenAdvance(actionIntent, worldObject);
      r := Ok(feedback);
    }
}
}
