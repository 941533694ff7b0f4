/** The unloading sub-mission (stage3_action/unload_behavior.py): pick the cheapest dump point, then
    surface if needed and move there. */
module Unload {
  import opened Common
  import opened ActionEntity
  import opened Alerts
  import opened Navigator
  import opened MockEnv
  import opened CostModels

  const UnloadStartedMessage := "Unloading phase started"
  const UnloadEndedMessage := "unloading phase ended"
  const EmptyDumpPointsMessage := "min() of an empty sequence"

  /** The environment the behaviour always uses. */
  const BuiltInEnv := MockEnvironmentModel(0.5, 0.2, 0.1)

  /** The index Python's `min` settles on: scanning left to right, a later element replaces the
      current best only when strictly smaller, so ties go to the earliest. */
  function FirstMinIndex(costs: seq<real>): (i: nat)
    requires |costs| > 0
    ensures i < |costs|
    ensures forall j :: 0 <= j < |costs| ==> costs[i] <= costs[j]
    ensures forall j :: 0 <= j < i ==> costs[i] < costs[j]
    decreases |costs|
  {
    if |costs| == 1 then 0
    else
      var prefix := costs[..|costs| - 1];
      var k := FirstMinIndex(prefix);
      assert forall j :: 0 <= j < |prefix| ==> prefix[j] == costs[j];
      if costs[|costs| - 1] < costs[k] then |costs| - 1 else k
  }

  /** The docking cost of `p` from `from`, when it is defined. */
  function CostOf(calculator: CostCalculator, env: MockEnvironmentModel, from: Waypoint, p: Waypoint): real
    requires calculator.Defined()
  {
    calculator.CalculateDockingCost(p, from, env).value
  }

  function Costs(calculator: CostCalculator, env: MockEnvironmentModel, from: Waypoint, points: seq<Waypoint>): (costs: seq<real>)
    requires calculator.Defined()
    ensures |costs| == |points|
    ensures forall i :: 0 <= i < |points| ==> costs[i] == CostOf(calculator, env, from, points[i])
  {
    seq(|points|, i requires 0 <= i < |points| => CostOf(calculator, env, from, points[i]))
  }

  /** The dump point of least docking cost from `from`, the first such in the list. `min` raises
      ValueError on an empty list; otherwise the cost of the first point is computed first, so an
      undefined cost raises ZeroDivisionError. */
  function BestDockingPoint(calculator: CostCalculator, env: MockEnvironmentModel, from: Waypoint, dPoints: seq<Waypoint>): (r: Result<Waypoint>)
    ensures dPoints == [] ==> r == Err(ValueError(EmptyDumpPointsMessage))
    ensures dPoints != [] && !calculator.Defined() ==> r == Err(ZeroDivisionError)
    ensures r.Ok? <==> dPoints != [] && calculator.Defined()
    ensures r.Ok? ==>
      exists i :: 0 <= i < |dPoints| && r.value == dPoints[i] &&
        (forall j :: 0 <= j < |dPoints| ==> CostOf(calculator, env, from, dPoints[i]) <= CostOf(calculator, env, from, dPoints[j])) &&
        (forall j :: 0 <= j < i ==> CostOf(calculator, env, from, dPoints[i]) < CostOf(calculator, env, from, dPoints[j]))
  {
    if dPoints == [] then Err(ValueError(EmptyDumpPointsMessage))
    else if !calculator.Defined() then Err(ZeroDivisionError)
    else
      var costs := Costs(calculator, env, from, dPoints);
      var i := FirstMinIndex(costs);
      Ok(dPoints[i])
  }

  class UnloadGarbageBehavior {
    const costConfig: CostModel
    const notifier: AlertNotifier
    const navigator: PathNavigator
    const dPoints: seq<Waypoint>
    const depths: Depths
    const envModel: MockEnvironmentModel
    const costCalculator: CostCalculator
    /** The checkpoint of the latest unloading; absent until the first one. */
    var missionCheckpoint: Option<MissionCheckpoint>

    constructor (costCfg: CostModel, notifierObj: AlertNotifier, navigatorObj: PathNavigator, garbageDump: DumpLocation,
                 depths: Depths, hypot: (real, real) -> real)
      ensures costConfig == costCfg && notifier == notifierObj && navigator == navigatorObj
      ensures dPoints == garbageDump.dPoints && this.depths == depths
      ensures envModel == BuiltInEnv
      ensures costCalculator == CostCalculator(costCfg, hypot)
      ensures missionCheckpoint == None
    {
      costConfig := costCfg;
      notifier := notifierObj;
      navigator := navigatorObj;
      dPoints := garbageDump.dPoints;
      this.depths := depths;
      envModel := BuiltInEnv;
      costCalculator := CostCalculator(costCfg, hypot);
      missionCheckpoint := None;
    }

    /** Empties the bin at the best dump point. The result is the exception of the dump-point choice,
        or whether every issued move reached its target; `moves` are the navigator calls made. */
    method UnloadGarbage(checkpoint: MissionCheckpoint) returns (r: Result<bool>, ghost moves: seq<NavCall>)
      modifies this`missionCheckpoint, notifier, navigator
      ensures missionCheckpoint == Some(checkpoint)
      ensures navigator.trace == old(navigator.trace) + moves
      ensures var best := BestDockingPoint(costCalculator, envModel, checkpoint.lastPosition, dPoints);
        best.Err? ==> r == Err(best.fault) && moves == []
      ensures var best := BestDockingPoint(costCalculator, envModel, checkpoint.lastPosition, dPoints);
        best.Ok? ==> FollowsPlan(moves, SurfaceRoute(checkpoint.lastPosition, depths.surface, best.value))
      ensures var best := BestDockingPoint(costCalculator, envModel, checkpoint.lastPosition, dPoints);
        best.Ok? ==> r == Ok(CompletedPlan(moves, SurfaceRoute(checkpoint.lastPosition, depths.surface, best.value)))
      ensures notifier.events == old(notifier.events) + [Alert(BinFull, UnloadStartedMessage)] +
        (if r == Ok(true) then [Notification(GarbageUnloadingEnded, UnloadEndedMessage)] else [])
    {
      missionCheckpoint := Some(checkpoint);
      notifier.RaiseAlert(BinFull, UnloadStartedMessage);
      var best := BestDockingPoint(costCalculator, envModel, checkpoint.lastPosition, dPoints);
      if best.Err? {
        return Err(best.fault), [];
      }
      var bestDockingPoint := best.value;
      var currPos := checkpoint.lastPosition;
      var currLevel := currPos.z;
      if currLevel == depths.surface {
        var reachedD := navigator.MoveTo(bestDockingPoint);
        moves := [MoveToCall(bestDockingPoint, reachedD)];
        if !reachedD {
          return Ok(false), moves;
        }
      } else {
        var surfaceCurrentPos := Waypoint(currPos.x, currPos.y, depths.surface);
        var reachedUp := navigator.MoveTo(surfaceCurrentPos);
        moves := [MoveToCall(surfaceCurrentPos, reachedUp)];
        if !reachedUp {
          return Ok(false), moves;
        }
        var reachedD := navigator.MoveTo(bestDockingPoint);
        moves := moves + [MoveToCall(bestDockingPoint, reachedD)];
        if !reachedD {
          return Ok(false), moves;
        }
      }
      notifier.RaiseNotification(GarbageUnloadingEnded, UnloadEndedMessage);
      r := Ok(true);
    }
  }
}
