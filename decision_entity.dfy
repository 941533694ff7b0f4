/** Values produced by the decision stage (stage2_decision/entity.py). */
module DecisionEntity {
  import opened Common
  import opened VisionEntity

  /** The high-level request handed to the action stage. */
  datatype ActionIntent = ActionIntent(
    trackId: TrackId,
    className: string,
    priorityScore: real,
    bbox: Bbox,
    reason: string)

  /** One `(object, score)` pair of the ranked list; the object slot may be empty. */
  datatype Scored = Scored(obj: Option<TrackedGarbage>, score: real)
}
