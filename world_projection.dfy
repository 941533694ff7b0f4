/** Projection of the active tracks into the robot frame and lookup of the selected one
    (common/projection/world_projection.py). */
module WorldProjection {
  import opened Common
  import opened VisionEntity
  import opened DecisionEntity
  import opened ProjectionEntity
  import opened CameraProjection

  const FrameWidth := 640
  const FrameHeight := 480
  const SrcWidth := 1920
  const SrcHeight := 1080

  /** The projector is always built for the original 1920 x 1080 frame, with the default scales. */
  const Projector := CameraToWorldProjector(SrcWidth, SrcHeight)

  const MissingBboxMessage := "project_image_to_world_frame() missing 1 required positional argument: 'bbox'"

  function ProjectObject(obj: TrackedGarbage): (w: WorldObject)
    ensures w.trackId == obj.trackId && w.bbox == obj.bbox
  {
    Projector.ProjectImageToWorldFrame(obj.trackId, obj.bbox)
  }

  /** The id to look for: the intent's id when there is an intent and its id is truthy. */
  function SelectedId(actionIntent: Option<ActionIntent>): (id: TrackId)
    ensures IsHeld(id) <==> actionIntent.Some? && IsHeld(actionIntent.value.trackId)
    ensures IsHeld(id) ==> id == actionIntent.value.trackId
  {
    if actionIntent.Some? && IsHeld(actionIntent.value.trackId) then actionIntent.value.trackId else None
  }

  function Ids(objs: seq<TrackedGarbage>): set<TrackId> {
    set i | 0 <= i < |objs| :: objs[i].trackId
  }

  lemma IdsSnoc(objs: seq<TrackedGarbage>)
    requires objs != []
    ensures Ids(objs) == Ids(objs[..|objs| - 1]) + {objs[|objs| - 1].trackId}
  {
    var n := |objs| - 1;
    forall k | k in Ids(objs) ensures k in Ids(objs[..n]) + {objs[n].trackId} {
      var i :| 0 <= i < |objs| && objs[i].trackId == k;
      if i < n {
        assert objs[..n][i] == objs[i];
      }
    }
    forall k | k in Ids(objs[..n]) ensures k in Ids(objs) {
      var i :| 0 <= i < n && objs[..n][i].trackId == k;
      assert objs[i] == objs[..n][i];
    }
  }

  /** The dictionary built by the loop: one entry per id of the active list. */
  function WorldMap(objs: seq<TrackedGarbage>): (m: map<TrackId, WorldObject>)
    ensures m.Keys == Ids(objs)
  {
    if objs == [] then map[]
    else
      var n := |objs| - 1;
      IdsSnoc(objs);
      WorldMap(objs[..n])[objs[n].trackId := ProjectObject(objs[n])]
  }

  /** A later object with the same id overwrites an earlier one: each entry is the projection of the
      last object carrying its id. */
  lemma {:induction false} WorldMapLastWins(objs: seq<TrackedGarbage>, i: int)
    requires 0 <= i < |objs|
    requires forall j :: i < j < |objs| ==> objs[j].trackId != objs[i].trackId
    ensures WorldMap(objs)[objs[i].trackId] == ProjectObject(objs[i])
  {
    var n := |objs| - 1;
    if i < n {
      var prefix := objs[..n];
      assert prefix[i] == objs[i];
      forall j | i < j < |prefix| ensures prefix[j].trackId != prefix[i].trackId {
        assert prefix[j] == objs[j];
      }
      WorldMapLastWins(prefix, i);
    }
  }

  /** The selected object as the loop leaves it: the projection of the last object carrying `sel`,
      looked for only when `sel` is truthy. */
  function SelectedIn(objs: seq<TrackedGarbage>, sel: TrackId): (s: Option<WorldObject>)
    ensures s.Some? <==> IsHeld(sel) && sel in Ids(objs)
    ensures s.Some? ==> s.value == WorldMap(objs)[sel]
  {
    if objs == [] then None
    else
      var n := |objs| - 1;
      IdsSnoc(objs);
      if IsHeld(sel) && objs[n].trackId == sel then Some(ProjectObject(objs[n])) else SelectedIn(objs[..n], sel)
  }

  /** Projects every active object and picks out the one the intent targets. */
  method TransformToWorldFrame(activeObjects: seq<TrackedGarbage>, actionIntent: Option<ActionIntent>)
    returns (worldObjects: map<TrackId, WorldObject>, selectedWorldObject: Option<WorldObject>)
    ensures worldObjects == WorldMap(activeObjects)
    ensures selectedWorldObject == SelectedIn(activeObjects, SelectedId(actionIntent))
  {
    worldObjects := map[];
    selectedWorldObject := None;
    if |activeObjects| == 0 {
      return;
    }
    var selObjectId := SelectedId(actionIntent);
    for i := 0 to |activeObjects|
      invariant worldObjects == WorldMap(activeObjects[..i])
      invariant selectedWorldObject == SelectedIn(activeObjects[..i], selObjectId)
    {
      var obj := activeObjects[i];
      assert activeObjects[..i + 1][..i] == activeObjects[..i];
      var worldObj := ProjectObject(obj);
      worldObjects := worldObjects[obj.trackId := worldObj];
      if IsHeld(selObjectId) && obj.trackId == selObjectId {
        selectedWorldObject := Some(worldObj);
      }
    }
    assert activeObjects[..|activeObjects|] == activeObjects;
  }

  /** The call as written passes the whole object as the only argument of a two-parameter method,
      so any non-empty list raises TypeError; only the empty list gets through, by the early return. */
  function TransformAsWritten(activeObjects: seq<TrackedGarbage>, actionIntent: Option<ActionIntent>)
    : (r: Result<(map<TrackId, WorldObject>, Option<WorldObject>)>)
    ensures activeObjects == [] ==> r == Ok((map[], None))
  {
    if |activeObjects| == 0 then Ok((map[], None)) else Err(TypeError(MissingBboxMessage))
  }

  /** A single active object is enough to make the code as written raise instead of projecting. */
  lemma AsWrittenRaisesOnAnyObject(obj: TrackedGarbage, actionIntent: Option<ActionIntent>)
    ensures TransformAsWritten([obj], actionIntent) == Err(TypeError(MissingBboxMessage))
    ensures WorldMap([obj]).Keys == {obj.trackId}
  {
    assert [obj][0] == obj;
    assert Ids([obj]) == {obj.trackId};
  }

  /** The corrected projection and the lookup agree: the selected object is the dictionary entry of
      the intent's id, and there is one exactly when an active object carries that truthy id. */
  lemma SelectedIsMapEntry(activeObjects: seq<TrackedGarbage>, actionIntent: Option<ActionIntent>)
    ensures var s := SelectedIn(activeObjects, SelectedId(actionIntent));
      s.Some? <==>
        (actionIntent.Some? && IsHeld(actionIntent.value.trackId) &&
         exists i :: 0 <= i < |activeObjects| && activeObjects[i].trackId == actionIntent.value.trackId)
    ensures var s := SelectedIn(activeObjects, SelectedId(actionIntent));
      s.Some? ==> s.value == WorldMap(activeObjects)[actionIntent.value.trackId]
  {
    var sel := SelectedId(actionIntent);
    if IsHeld(sel) && sel in Ids(activeObjects) {
      var i :| 0 <= i < |activeObjects| && activeObjects[i].trackId == sel;
    }
  }
}
