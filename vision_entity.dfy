/** Records exchanged by the vision stage (stage1_vision/entity.py). */
module VisionEntity {
  import opened Common

  /** A tracker id; detections without one are kept under the key `None`. */
  type TrackId = Option<int>

  /** Pixel box (x1, y1, x2, y2). */
  datatype Bbox = Bbox(x1: int, y1: int, x2: int, y2: int)

  datatype TrackedState = New | Stable | Selected | Done | Lost | Unattempted

  /** One raw detection of one frame. */
  datatype Detection = Detection(
    classId: int,
    className: string,
    confidence: real,
    bbox: Bbox,
    trackId: TrackId := None)

  /** The aggregated record kept per track id. `age` counts the frames in which it was seen. */
  datatype TrackedGarbage = TrackedGarbage(
    trackId: TrackId,
    classId: int,
    className: string,
    avgConfidence: real,
    bbox: Bbox,
    age: nat,
    lastSeenFrame: int,
    state: TrackedState,
    fadeFramesRemaining: int := 0)
}
