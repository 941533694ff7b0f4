/** Values of the action stage (stage3_action/entity.py). */
module ActionEntity {
  import opened Common

  datatype ActionStatus = Success | Failed | MovedForward | NothingHappened

  /** The string value of each status. */
  function StatusValue(s: ActionStatus): string {
    match s
    case Success => "success"
    case Failed => "failed"
    case MovedForward => "moved"
    case NothingHappened => "nothing_happened"
  }

  /** What the action stage reports back to the decision stage. */
  datatype ActionFeedback = ActionFeedback(status: ActionStatus, trackId: Option<int> := None, reason: string := "")

  datatype Waypoint = Waypoint(x: real, y: real, z: real)

  datatype Bin = Bin(binCapacity: int, alertThreshold: real)

  datatype Speeds = Speeds(surface: real, underwater: real)

  datatype Navigation = Navigation(startPoint: Waypoint, endPoint: Waypoint, sweepStep: real, reachThreshold: real, speeds: Speeds)

  datatype Depths = Depths(surface: real, underwater: real)

  datatype Limits = Limits(maxOperationRetries: int, maxMissionTimeSec: int, maxTargetLossIgnore: int)

  datatype Mission = Mission(
    startPoint: Waypoint,
    endPoint: Waypoint,
    hqPoint: Waypoint,
    depths: Depths,
    navigation: Navigation,
    limits: Limits,
    binManager: Bin)

  datatype MissionPhase = Surface | Descend | Underwater | Ascend | Return | Done | Abort | Failed | Unloading

  /** The enum value of each phase. */
  function PhaseValue(p: MissionPhase): int {
    match p
    case Surface => 1
    case Descend => 2
    case Underwater => 3
    case Ascend => 4
    case Return => 5
    case Done => 6
    case Abort => 7
    case Failed => 8
    case Unloading => 9
  }

  datatype CostWeights = CostWeights(travelTime: real, energy: real, current: real, drag: real, risk: real, uncertainty: real)

  datatype VehicleModel = VehicleModel(cruiseSpeed: real, dragCoeff: real, avgDragForce: real)

  datatype NormalizationLimits = NormalizationLimits(maxDistance: real, maxEnergy: real, maxCurrent: real, maxRisk: real, maxUncertainty: real)

  datatype CostModel = CostModel(costWeights: CostWeights, vehicleModel: VehicleModel, normalizationLimits: NormalizationLimits)

  datatype DumpLocation = DumpLocation(dPoints: seq<Waypoint>)

  /** The state saved before an unloading detour or an abort; the timestamp is an opaque clock value. */
  datatype MissionCheckpoint = MissionCheckpoint(lastPhase: MissionPhase, lastPosition: Waypoint, lastTimestamp: real)
}
