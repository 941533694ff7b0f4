/** The path navigator the mission layer drives (stage3_action/navigation.py, which is not part of
    this model). Only its interface is known, so it is a stand-in: every query answers with an
    arbitrary boolean, every call may move the robot and change its speed, and a ghost trace records
    each call in order together with the answer it gave. */
module Navigator {
  import opened ActionEntity
  import opened ProjectionEntity

  /** One call made to the navigator, with the answer it returned. */
  datatype NavCall =
    | SetPathCall(depth: real, startPosition: Waypoint)
    | MoveToCall(target: Waypoint, reached: bool)
    | StepCall(moved: bool)
    | NearCall(worldObject: WorldObject, near: bool)
    | FinishedCall(finished: bool)
    | PauseCall
    | ResumeCall

  /** `moves` is how a multi-leg trip along `plan` went: the legs were issued in order, each one only
      after the previous leg reached its target, and the trip stopped at the first failed leg. */
  ghost predicate FollowsPlan(moves: seq<NavCall>, plan: seq<Waypoint>) {
    1 <= |moves| <= |plan| &&
    (forall i :: 0 <= i < |moves| ==> moves[i].MoveToCall? && moves[i].target == plan[i]) &&
    (forall i :: 0 <= i < |moves| - 1 ==> moves[i].reached) &&
    (|moves| < |plan| ==> !moves[|moves| - 1].reached)
  }

  /** Every leg of the trip was issued and reached its target. */
  ghost predicate CompletedPlan(moves: seq<NavCall>, plan: seq<Waypoint>)
    requires FollowsPlan(moves, plan)
  {
    |moves| == |plan| && moves[|moves| - 1].reached
  }

  /** The legs of a trip to `destination` from `position`: straight there at surface level, otherwise
      first straight up to a fresh waypoint at the surface above `position`. */
  function SurfaceRoute(position: Waypoint, surface: real, destination: Waypoint): (route: seq<Waypoint>)
    ensures 1 <= |route| <= 2 && route[|route| - 1] == destination
    ensures |route| == 1 <==> position.z == surface
    ensures |route| == 2 ==> route[0] == Waypoint(position.x, position.y, surface)
  {
    if position.z == surface then [destination] else [Waypoint(position.x, position.y, surface), destination]
  }

  class PathNavigator {
    var currentPosition: Waypoint
    var currSpeed: real
    const speeds: Speeds
    /** Every call made so far, oldest first. */
    ghost var trace: seq<NavCall>

    constructor (navigationCfg: Navigation)
      ensures speeds == navigationCfg.speeds
      ensures trace == []
    {
      currentPosition := *;
      currSpeed := *;
      speeds := navigationCfg.speeds;
      trace := [];
    }

    method SetPath(depth: real, startPosition: Waypoint)
      modifies this
      ensures trace == old(trace) + [SetPathCall(depth, startPosition)]
    {
      currentPosition, currSpeed := *, *;
      trace := trace + [SetPathCall(depth, startPosition)];
    }

    method MoveTo(targetPoint: Waypoint) returns (reached: bool)
      modifies this
      ensures trace == old(trace) + [MoveToCall(targetPoint, reached)]
    {
      reached := *;
      currentPosition, currSpeed := *, *;
      trace := trace + [MoveToCall(targetPoint, reached)];
    }

    method Step() returns (moved: bool)
      modifies this
      ensures trace == old(trace) + [StepCall(moved)]
    {
      moved := *;
      currentPosition, currSpeed := *, *;
      trace := trace + [StepCall(moved)];
    }

    method TargetIsNear(target: WorldObject) returns (near: bool)
      modifies this
      ensures trace == old(trace) + [NearCall(target, near)]
    {
      near := *;
      currentPosition, currSpeed := *, *;
      trace := trace + [NearCall(target, near)];
    }

    method PathIsFinished() returns (finished: bool)
      modifies this
      ensures trace == old(trace) + [FinishedCall(finished)]
    {
      finished := *;
      currentPosition, currSpeed := *, *;
      trace := trace + [FinishedCall(finished)];
    }

    method Pause()
      modifies this
      ensures trace == old(trace) + [PauseCall]
    {
      currentPosition, currSpeed := *, *;
      trace := trace + [PauseCall];
    }

    method Resume()
      modifies this
      ensures trace == old(trace) + [ResumeCall]
    {
      currentPosition, currSpeed := *, *;
      trace := trace + [ResumeCall];
    }
  }
}
