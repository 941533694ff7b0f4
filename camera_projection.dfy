/** Image-to-robot projection of one bounding box (common/projection/convert_camera_to_world.py).
    The robot sits at the origin; `x` is the normalised horizontal offset of the box centre, and the
    forward distance is a proxy inversely proportional to the box height. */
module CameraProjection {
  import opened VisionEntity
  import opened ProjectionEntity

  datatype CameraToWorldProjector = CameraToWorldProjector(
    imageWidth: int,
    imageHeight: int,
    lateralScale: real := 1.0,
    forwardScale: real := 2.0)
  {
    /** `max(y2 - y1, 1)`: never below 1, so the distance division is always defined. */
    function BboxHeight(bbox: Bbox): (h: int)
      ensures h >= 1 && h >= bbox.y2 - bbox.y1
      ensures h == bbox.y2 - bbox.y1 || h == 1
    {
      if bbox.y2 - bbox.y1 < 1 then 1 else bbox.y2 - bbox.y1
    }

    /** The box centre relative to the image centre, in half-widths. */
    function NormalizedX(bbox: Bbox): (nx: real)
      requires imageWidth != 0
    {
      var cx := (bbox.x1 + bbox.x2) as real / 2.0;
      var half := imageWidth as real / 2.0;
      (cx - half) / half
    }

    function ProjectImageToWorldFrame(trackId: TrackId, bbox: Bbox): (w: WorldObject)
      requires imageWidth != 0
      ensures w.trackId == trackId && w.bbox == bbox
      ensures w.z == 0.0 && w.y == w.distance
      ensures w.distance * BboxHeight(bbox) as real == forwardScale
      ensures w.x == NormalizedX(bbox) * lateralScale
    {
      var distance := forwardScale / BboxHeight(bbox) as real;
      WorldObject(trackId, NormalizedX(bbox) * lateralScale, distance, 0.0, distance, bbox)
    }
  }

  /** A box lying inside the image has its centre within one half-width of the image centre. */
  lemma NormalizedXInRange(projector: CameraToWorldProjector, bbox: Bbox)
    requires projector.imageWidth > 0
    requires 0 <= bbox.x1 <= projector.imageWidth && 0 <= bbox.x2 <= projector.imageWidth
    ensures -1.0 <= projector.NormalizedX(bbox) <= 1.0
  {
    var half := projector.imageWidth as real / 2.0;
    var cx := (bbox.x1 + bbox.x2) as real / 2.0;
    assert 0.0 <= cx <= 2.0 * half;
    var d := cx - half;
    assert -half <= d <= half;
    assert d / half <= 1.0 by {
      assert d / half * half == d;
    }
    assert -1.0 <= d / half by {
      assert d / half * half == d;
    }
  }

  /** Bigger box, closer object: for a non-negative forward scale, a box at least as tall is never
      farther away. */
  lemma TallerBoxIsCloser(projector: CameraToWorldProjector, trackId: TrackId, shorter: Bbox, taller: Bbox)
    requires projector.imageWidth != 0 && projector.forwardScale >= 0.0
    requires projector.BboxHeight(shorter) <= projector.BboxHeight(taller)
    ensures projector.ProjectImageToWorldFrame(trackId, taller).distance <= projector.ProjectImageToWorldFrame(trackId, shorter).distance
  {
    var f := projector.forwardScale;
    var hs := projector.BboxHeight(shorter) as real;
    var ht := projector.BboxHeight(taller) as real;
    var q := f / ht;
    var p := f / hs;
    assert q * ht == f && p * hs == f;
    assert q >= 0.0;
    assert q * hs <= q * ht;
    assert q * hs <= f;
    if q > p {
      assert (q - p) * hs > 0.0;
      assert q * hs - p * hs == (q - p) * hs;
    }
  }

  /** The lateral and forward scales default to 1.0 and 2.0. */
  lemma DefaultScales(imageWidth: int, imageHeight: int)
    ensures CameraToWorldProjector(imageWidth, imageHeight).lateralScale == 1.0
    ensures CameraToWorldProjector(imageWidth, imageHeight).forwardScale == 2.0
  {
  }
}
