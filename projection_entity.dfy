/** The robot-centric position of one tracked object (common/projection/entity.py). */
module ProjectionEntity {
  import opened VisionEntity

  /** `x` is left/right, `y` forward (both relative to the robot); `distance` is the scalar proxy. */
  datatype WorldObject = WorldObject(
    trackId: TrackId,
    x: real,
    y: real,
    z: real,
    distance: real,
    bbox: Bbox)
}
