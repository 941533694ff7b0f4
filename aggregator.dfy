/** The track lifecycle aggregator of the vision stage (stage1_vision/aggregator.py).
    The memory is a dictionary from track id to record; its iteration order (insertion
    order) is kept beside it because the returned active list follows it. */
module Aggregator {
  import opened Common
  import opened VisionEntity
  import opened Command

  /** The aggregation memory: the records by id, and the ids in dictionary order. */
  datatype Memory = Memory(records: map<TrackId, TrackedGarbage>, order: seq<TrackId>)

  /** Every key occurs once in the order, and each record is stored under its own id. */
  ghost predicate WellFormed(m: Memory) {
    NoDuplicates(m.order)
    && (forall k :: k in m.records <==> k in m.order)
    && (forall k :: k in m.records ==> m.records[k].trackId == k)
  }

  /** The record created for an id seen for the first time. */
  function NewRecord(d: Detection, frame: int): TrackedGarbage {
    TrackedGarbage(d.trackId, d.classId, d.className, d.confidence, d.bbox, 1, frame, New)
  }

  /** The mean confidence after a further sighting, `age` being the count that includes it. */
  function UpdatedMean(avg: real, age: int, confidence: real): real
    requires age != 0
  {
    (avg * (age - 1) as real + confidence) / age as real
  }

  /** The record of an id seen again: one frame older, refreshed, with a running mean
      confidence, and promoted from New to Stable once old enough. */
  function Refresh(r: TrackedGarbage, d: Detection, frame: int, stableAge: int): (u: TrackedGarbage)
    ensures u.trackId == r.trackId && u.classId == r.classId && u.className == r.className
    ensures u.age == r.age + 1 && u.lastSeenFrame == frame && u.bbox == d.bbox
    ensures u.state != r.state ==> r.state == New && u.state == Stable
    ensures u.state == Stable <==> r.state == Stable || (r.state == New && u.age >= stableAge)
  {
    var age := r.age + 1;
    r.(age := age, lastSeenFrame := frame, bbox := d.bbox,
       avgConfidence := UpdatedMean(r.avgConfidence, age, d.confidence),
       state := if r.state == New && age >= stableAge then Stable else r.state)
  }

  /** The memory after one detection of the current frame. */
  function Observe(m: Memory, d: Detection, frame: int, stableAge: int): (r: Memory)
    requires WellFormed(m)
    ensures WellFormed(r)
    ensures r.records.Keys == m.records.Keys + {d.trackId}
  {
    if d.trackId !in m.records then
      var r := Memory(m.records[d.trackId := NewRecord(d, frame)], m.order + [d.trackId]);
      assert NoDuplicates(r.order) by {
        assert forall i :: 0 <= i < |m.order| ==> r.order[i] == m.order[i] && m.order[i] in m.order;
      }
      r
    else
      Memory(m.records[d.trackId := Refresh(m.records[d.trackId], d, frame, stableAge)], m.order)
  }

  /** One detection creates the record of a new id or refreshes the record of a known one, and
      leaves every other record as it was. */
  lemma ObserveSpec(m: Memory, d: Detection, frame: int, stableAge: int)
    requires WellFormed(m)
    ensures var r := Observe(m, d, frame, stableAge);
      (forall k :: k in m.records && k != d.trackId ==> r.records[k] == m.records[k])
      && r.records[d.trackId].lastSeenFrame == frame && r.records[d.trackId].bbox == d.bbox
    ensures var r := Observe(m, d, frame, stableAge);
      d.trackId !in m.records ==>
        var n := r.records[d.trackId];
        n.age == 1 && n.state == New && n.avgConfidence == d.confidence
        && n.classId == d.classId && n.className == d.className
        && r.order == m.order + [d.trackId]
    ensures var r := Observe(m, d, frame, stableAge);
      d.trackId in m.records ==>
        var o, n := m.records[d.trackId], r.records[d.trackId];
        n.age == o.age + 1
        && n == Refresh(o, d, frame, stableAge)
        && (o.state == New && n.age >= stableAge ==> n.state == Stable)
        && (!(o.state == New && n.age >= stableAge) ==> n.state == o.state)
        && n.classId == o.classId && n.className == o.className
        && r.order == m.order
  {
  }

  /** The refreshed confidence is the mean over all frames in which the id was seen:
      the new mean times the new age is the old mean times the old age plus the new confidence. */
  lemma RefreshKeepsRunningMean(r: TrackedGarbage, d: Detection, frame: int, stableAge: int)
    ensures Refresh(r, d, frame, stableAge).avgConfidence * Refresh(r, d, frame, stableAge).age as real
            == r.avgConfidence * r.age as real + d.confidence
  {
    var n := (r.age + 1) as real;
    var x := r.avgConfidence * r.age as real + d.confidence;
    assert Refresh(r, d, frame, stableAge).avgConfidence == x / n;
    assert (x / n) * n == x;
  }

  /** The ids of the detections of one frame. */
  function SeenIds(ds: seq<Detection>): set<TrackId> {
    set i | 0 <= i < |ds| :: ds[i].trackId
  }

  lemma SeenIdsSnoc(ds: seq<Detection>)
    requires ds != []
    ensures SeenIds(ds) == SeenIds(ds[..|ds| - 1]) + {ds[|ds| - 1].trackId}
  {
    var n := |ds| - 1;
    assert forall i :: 0 <= i < n ==> ds[..n][i] == ds[i];
  }

  /** The memory after all detections of the current frame, in list order. */
  function ObserveAll(m: Memory, ds: seq<Detection>, frame: int, stableAge: int): (r: Memory)
    requires WellFormed(m)
    ensures WellFormed(r)
    decreases |ds|
  {
    if ds == [] then m
    else
      var n := |ds| - 1;
      Observe(ObserveAll(m, ds[..n], frame, stableAge), ds[n], frame, stableAge)
  }

  /** The detections of a frame add their ids to the memory, and only theirs. */
  lemma {:induction false} ObserveAllKeys(m: Memory, ds: seq<Detection>, frame: int, stableAge: int)
    requires WellFormed(m)
    ensures ObserveAll(m, ds, frame, stableAge).records.Keys == m.records.Keys + SeenIds(ds)
    decreases |ds|
  {
    if ds != [] {
      var n := |ds| - 1;
      SeenIdsSnoc(ds);
      ObserveAllKeys(m, ds[..n], frame, stableAge);
    }
  }

  /** Every detected id has a record seen in this frame, and the records of the ids not detected
      are untouched. */
  lemma {:induction false} ObserveAllFacts(m: Memory, ds: seq<Detection>, frame: int, stableAge: int)
    requires WellFormed(m)
    ensures var r := ObserveAll(m, ds, frame, stableAge);
      (forall k :: k in SeenIds(ds) ==> k in r.records && r.records[k].lastSeenFrame == frame)
      && (forall k :: k in m.records && k !in SeenIds(ds) ==> k in r.records && r.records[k] == m.records[k])
    decreases |ds|
  {
    if ds != [] {
      var n := |ds| - 1;
      var prev := ObserveAll(m, ds[..n], frame, stableAge);
      SeenIdsSnoc(ds);
      ObserveAllFacts(m, ds[..n], frame, stableAge);
      ObserveSpec(prev, ds[n], frame, stableAge);
    }
  }

  /** One more detection adds its id to the seen ones. */
  lemma SeenIdsPrefixSnoc(ds: seq<Detection>, i: nat)
    requires i < |ds|
    ensures SeenIds(ds[..i + 1]) == SeenIds(ds[..i]) + {ds[i].trackId}
  {
    assert ds[..i + 1][..i] == ds[..i];
    SeenIdsSnoc(ds[..i + 1]);
  }

  /** One more detection is one more `Observe`. */
  lemma ObserveAllSnoc(m: Memory, ds: seq<Detection>, i: nat, frame: int, stableAge: int)
    requires WellFormed(m) && i < |ds|
    ensures ObserveAll(m, ds[..i + 1], frame, stableAge) == Observe(ObserveAll(m, ds[..i], frame, stableAge), ds[i], frame, stableAge)
  {
    assert ds[..i + 1][..i] == ds[..i];
  }

  /** In a list without repetitions, the element at `k` is absent from the prefix before it. */
  lemma FreshAtPrefixEnd<T>(s: seq<T>, k: nat)
    requires NoDuplicates(s) && k < |s|
    ensures s[k] in s && s[k] !in s[..k]
    ensures forall x :: x in s[..k + 1] <==> x in s[..k] || x == s[k]
  {
    assert s[..k + 1] == s[..k] + [s[k]];
    forall q | 0 <= q < k ensures s[..k][q] != s[k] {
      assert s[..k][q] == s[q];
    }
  }

  /** An idle, not yet collected record is given up by the vision stage. */
  predicate GoesLost(r: TrackedGarbage, frame: int, maxIdle: int) {
    frame - r.lastSeenFrame > maxIdle && r.state != Done
  }

  function IdleUpdate(k: TrackId, r: TrackedGarbage, seen: set<TrackId>, frame: int, maxIdle: int): TrackedGarbage {
    if k !in seen && GoesLost(r, frame, maxIdle) then r.(state := TrackedState.Lost) else r
  }

  /** The missing-object pass: ids not seen in this frame and idle too long become Lost. */
  function MarkIdle(m: Memory, seen: set<TrackId>, frame: int, maxIdle: int): (r: Memory)
    requires WellFormed(m)
    ensures WellFormed(r)
    ensures r.order == m.order && r.records.Keys == m.records.Keys
  {
    Memory(map k | k in m.records :: IdleUpdate(k, m.records[k], seen, frame, maxIdle), m.order)
  }

  /** The records seen in this frame are untouched; every other record keeps all but its state,
      and ends Lost exactly when it was Lost already or has idled too long without being collected. */
  lemma MarkIdleSpec(m: Memory, seen: set<TrackId>, frame: int, maxIdle: int)
    requires WellFormed(m)
    ensures var r := MarkIdle(m, seen, frame, maxIdle);
      (forall k :: k in seen && k in m.records ==> r.records[k] == m.records[k])
      && (forall k :: k in m.records ==> r.records[k] == m.records[k].(state := r.records[k].state))
      && (forall k :: k in m.records ==>
            (r.records[k].state == TrackedState.Lost <==>
             m.records[k].state == TrackedState.Lost || (k !in seen && GoesLost(m.records[k], frame, maxIdle))))
  {
  }

  /** Collected records, and lost records idle for more than twice the idle limit, are purged. */
  predicate Purgeable(r: TrackedGarbage, frame: int, maxIdle: int) {
    r.state == Done || (r.state == TrackedState.Lost && frame - r.lastSeenFrame > maxIdle * 2)
  }

  /** The purgeable ids among `ids`, in order. */
  function CollectPurge(records: map<TrackId, TrackedGarbage>, ids: seq<TrackId>, frame: int, maxIdle: int): (r: seq<TrackId>)
    ensures forall k :: k in r <==> k in ids && k in records && Purgeable(records[k], frame, maxIdle)
  {
    if ids == [] then []
    else
      var n := |ids| - 1;
      var k := ids[n];
      assert ids == ids[..n] + [k];
      CollectPurge(records, ids[..n], frame, maxIdle)
      + (if k in records && Purgeable(records[k], frame, maxIdle) then [k] else [])
  }

  /** `s` without any occurrence of `k`. */
  function Without(s: seq<TrackId>, k: TrackId): seq<TrackId> {
    Filter((x: TrackId) => x != k, s)
  }

  function RemoveKey(m: Memory, k: TrackId): Memory {
    Memory(m.records - {k}, Without(m.order, k))
  }

  /** Deleting one id keeps the memory well formed and drops exactly that key. */
  lemma RemoveKeyWellFormed(m: Memory, k: TrackId)
    requires WellFormed(m)
    ensures WellFormed(RemoveKey(m, k))
    ensures RemoveKey(m, k).records.Keys == m.records.Keys - {k}
  {
    FilterNoDuplicates((x: TrackId) => x != k, m.order);
    FilterMembers((x: TrackId) => x != k, m.order);
  }

  /** The memory after deleting the listed ids one by one. */
  function RemoveAll(m: Memory, ids: seq<TrackId>): (r: Memory)
    requires WellFormed(m)
    ensures WellFormed(r)
    ensures forall k :: k in r.records <==> k in m.records && k !in ids
    ensures forall k :: k in r.records ==> r.records[k] == m.records[k]
  {
    if ids == [] then m
    else
      var n := |ids| - 1;
      var p := RemoveAll(m, ids[..n]);
      assert forall k :: k in ids <==> k in ids[..n] || k == ids[n] by {
        assert ids == ids[..n] + [ids[n]];
      }
      RemoveKeyWellFormed(p, ids[n]);
      RemoveKey(p, ids[n])
  }

  /** Deleting one more listed id is one more `RemoveKey`. */
  lemma RemoveAllSnoc(m: Memory, ids: seq<TrackId>, j: nat)
    requires WellFormed(m) && j < |ids|
    ensures RemoveAll(m, ids[..j + 1]) == RemoveKey(RemoveAll(m, ids[..j]), ids[j])
  {
    assert ids[..j + 1][..j] == ids[..j];
  }

  /** The memory after the cleanup pass. */
  function Cleanup(m: Memory, frame: int, maxIdle: int): (r: Memory)
    requires WellFormed(m)
    ensures WellFormed(r)
    ensures forall k :: k in r.records <==> k in m.records && !Purgeable(m.records[k], frame, maxIdle)
    ensures forall k :: k in r.records ==> r.records[k] == m.records[k]
  {
    RemoveAll(m, CollectPurge(m.records, m.order, frame, maxIdle))
  }

  /** After cleanup no purgeable record remains and every other record survives unchanged. */
  lemma CleanupSpec(m: Memory, frame: int, maxIdle: int)
    requires WellFormed(m)
    ensures var r := Cleanup(m, frame, maxIdle);
      WellFormed(r)
      && (forall k :: k in r.records ==> !Purgeable(r.records[k], frame, maxIdle))
      && (forall k :: k in m.records && !Purgeable(m.records[k], frame, maxIdle) ==>
            k in r.records && r.records[k] == m.records[k])
      && r.records.Keys <= m.records.Keys
  {
  }

  /** The whole update of one frame: detections, then idle marking, then cleanup. */
  function Aggregate(m: Memory, ds: seq<Detection>, frame: int, stableAge: int, maxIdle: int): (r: Memory)
    requires WellFormed(m)
    ensures WellFormed(r)
    ensures forall k :: k in r.records ==> r.records[k].state != Done
  {
    Cleanup(MarkIdle(ObserveAll(m, ds, frame, stableAge), SeenIds(ds), frame, maxIdle), frame, maxIdle)
  }

  /** A record the decision stage may act on. */
  predicate IsActive(r: TrackedGarbage) {
    r.state != Done && r.state != TrackedState.Lost
  }

  /** The active records among `ids`, in order. */
  function ActiveIn(records: map<TrackId, TrackedGarbage>, ids: seq<TrackId>): seq<TrackedGarbage> {
    if ids == [] then []
    else
      var n := |ids| - 1;
      var k := ids[n];
      ActiveIn(records, ids[..n]) + (if k in records && IsActive(records[k]) then [records[k]] else [])
  }

  /** `ActiveIn` keeps exactly the active records stored under the listed ids. */
  lemma {:induction false} ActiveInMembers(records: map<TrackId, TrackedGarbage>, ids: seq<TrackId>)
    ensures forall x :: x in ActiveIn(records, ids) ==>
      IsActive(x) && exists k :: k in ids && k in records && records[k] == x
    ensures forall k :: k in ids && k in records && IsActive(records[k]) ==> records[k] in ActiveIn(records, ids)
  {
    if ids != [] {
      var n := |ids| - 1;
      assert ids == ids[..n] + [ids[n]];
      ActiveInMembers(records, ids[..n]);
    }
  }

  /** The records handed to the decision stage, in dictionary order. */
  function ActiveObjects(m: Memory): (active: seq<TrackedGarbage>)
    ensures forall x :: x in active ==> IsActive(x) && x in m.records.Values
  {
    ActiveInMembers(m.records, m.order);
    ActiveIn(m.records, m.order)
  }

  /** The active list holds exactly the stored records that are neither Done nor Lost. */
  lemma {:induction false} ActiveObjectsSpec(m: Memory)
    requires WellFormed(m)
    ensures forall x :: x in ActiveObjects(m) ==> IsActive(x) && x.trackId in m.records && m.records[x.trackId] == x
    ensures forall k :: k in m.records ==> (m.records[k] in ActiveObjects(m) <==> IsActive(m.records[k]))
  {
    ActiveInMembers(m.records, m.order);
  }

  /** Within one frame, every detected id that is not Done keeps a record seen in this
      frame, and no Done record is left in memory. */
  lemma {:induction false} AggregateSpec(m: Memory, ds: seq<Detection>, frame: int, stableAge: int, maxIdle: int)
    requires WellFormed(m) && maxIdle >= 0
    ensures var o := ObserveAll(m, ds, frame, stableAge);
      var r := Aggregate(m, ds, frame, stableAge, maxIdle);
      WellFormed(r)
      && (forall k :: k in SeenIds(ds) ==>
            k in o.records &&
            (o.records[k].state != Done ==>
               k in r.records && r.records[k] == o.records[k] && r.records[k].lastSeenFrame == frame))
      && (forall k :: k in r.records ==> r.records[k].state != Done)
  {
    var o := ObserveAll(m, ds, frame, stableAge);
    ObserveAllKeys(m, ds, frame, stableAge);
    ObserveAllFacts(m, ds, frame, stableAge);
    var i := MarkIdle(o, SeenIds(ds), frame, maxIdle);
    MarkIdleSpec(o, SeenIds(ds), frame, maxIdle);
    CleanupSpec(i, frame, maxIdle);
    var r := Cleanup(i, frame, maxIdle);
    assert r == Aggregate(m, ds, frame, stableAge, maxIdle);
    forall k | k in SeenIds(ds) && o.records[k].state != Done
      ensures k in r.records && r.records[k] == o.records[k] && r.records[k].lastSeenFrame == frame
    {
      assert k in o.records && i.records[k] == o.records[k];
      assert !Purgeable(i.records[k], frame, maxIdle);
    }
  }

  /** The record state a lifecycle action sets; the actions unknown to the aggregator set none. */
  function CommandedState(a: LifeCycleAction, s: TrackedState): TrackedState {
    match a
    case Select => Selected
    case MarkDone => Done
    case Lost => TrackedState.Lost
    case _ => s
  }

  /** The memory after a lifecycle command of the decision stage. */
  function ApplyCommand(records: map<TrackId, TrackedGarbage>, command: Option<LifeCycleCommand>): (r: map<TrackId, TrackedGarbage>)
    ensures r.Keys == records.Keys
    ensures command.None? || command.value.trackId !in records ==> r == records
    ensures command.Some? && command.value.action in {Failed, LifeCycleAction.Unattempted} ==> r == records
    ensures command.Some? && command.value.trackId in records ==>
      var id := command.value.trackId;
      (forall k :: k in records && k != id ==> r[k] == records[k])
      && r[id] == records[id].(state := r[id].state)
      && (command.value.action == Select ==> r[id].state == Selected)
      && (command.value.action == MarkDone ==> r[id].state == Done)
      && (command.value.action == LifeCycleAction.Lost ==> r[id].state == TrackedState.Lost)
  {
    match command
    case None => records
    case Some(c) =>
      if c.trackId !in records then records
      else if c.action in {Select, MarkDone, LifeCycleAction.Lost} then
        records[c.trackId := records[c.trackId].(state := CommandedState(c.action, records[c.trackId].state))]
      else records
  }

  datatype AggregatorConfig = AggregatorConfig(maxHistory: int, stableAge: int, maxIdleFrames: int)

  class GarbageAggregator {
    const maxHistory: int
    const stableAge: int
    const maxIdleFrames: int
    var frameCount: int
    var memory: map<TrackId, TrackedGarbage>
    var order: seq<TrackId>

    function Snapshot(): Memory
      reads this
    {
      Memory(memory, order)
    }

    ghost predicate Valid()
      reads this
    {
      WellFormed(Snapshot())
    }

    constructor (cfg: AggregatorConfig)
      ensures Valid()
      ensures maxHistory == cfg.maxHistory && stableAge == cfg.stableAge && maxIdleFrames == cfg.maxIdleFrames
      ensures frameCount == 0 && memory == map[] && order == []
    {
      maxHistory := cfg.maxHistory;
      stableAge := cfg.stableAge;
      maxIdleFrames := cfg.maxIdleFrames;
      frameCount := 0;
      memory := map[];
      order := [];
    }

    /** The first pass of the cleanup: the ids of collected and long-lost records, in order. */
    method PurgeCandidates() returns (idsToRemove: seq<TrackId>)
      requires Valid()
      ensures idsToRemove == CollectPurge(memory, order, frameCount, maxIdleFrames)
    {
      idsToRemove := [];
      var i := 0;
      while i < |order|
        invariant 0 <= i <= |order|
        invariant idsToRemove == CollectPurge(memory, order[..i], frameCount, maxIdleFrames)
      {
        var trackId := order[i];
        assert trackId in order;
        var tracked := memory[trackId];
        if tracked.state == Done {
          idsToRemove := idsToRemove + [trackId];
        } else if tracked.state == TrackedState.Lost {
          var idleFrame := frameCount - tracked.lastSeenFrame;
          if idleFrame > maxIdleFrames * 2 {
            idsToRemove := idsToRemove + [trackId];
          }
        }
        assert order[..i + 1][..i] == order[..i];
        i := i + 1;
      }
      assert order[..i] == order;
    }

    /** Collects the purgeable ids, then deletes them. */
    method CleanupMemory()
      requires Valid()
      modifies this`memory, this`order
      ensures Valid()
      ensures Snapshot() == Cleanup(old(Snapshot()), frameCount, maxIdleFrames)
    {
      var idsToRemove := PurgeCandidates();
      ghost var m0 := Snapshot();
      var j := 0;
      while j < |idsToRemove|
        invariant 0 <= j <= |idsToRemove|
        invariant Snapshot() == RemoveAll(m0, idsToRemove[..j])
      {
        var trackId := idsToRemove[j];
        RemoveAllSnoc(m0, idsToRemove, j);
        memory := memory - {trackId};
        order := Without(order, trackId);
        j := j + 1;
      }
      assert idsToRemove[..j] == idsToRemove;
    }

    /** The body of the detection loop: create the record of a new id, or age and refresh
        the record of a known one. */
    method ObserveOne(det: Detection)
      requires Valid()
      modifies this`memory, this`order
      ensures Valid()
      ensures Snapshot() == Observe(old(Snapshot()), det, frameCount, stableAge)
    {
      var trackId := det.trackId;
      if trackId !in memory {
        var tracked := TrackedGarbage(trackId, det.classId, det.className, det.confidence, det.bbox, 1, frameCount, New);
        memory := memory[trackId := tracked];
        order := order + [trackId];
      } else {
        var tracked := memory[trackId];
        var age := tracked.age + 1;
        tracked := tracked.(age := age);
        tracked := tracked.(lastSeenFrame := frameCount);
        tracked := tracked.(bbox := det.bbox);
        tracked := tracked.(avgConfidence := UpdatedMean(tracked.avgConfidence, age, det.confidence));
        if tracked.state == New && tracked.age >= stableAge {
          tracked := tracked.(state := Stable);
        }
        assert tracked == Refresh(old(memory)[trackId], det, frameCount, stableAge);
        memory := memory[trackId := tracked];
        assert memory == Observe(old(Snapshot()), det, frameCount, stableAge).records;
      }
    }

    /** One turn of the detection loop: the `i`-th detection is observed on top of the
        memory left by the ones before it. */
    method ObserveNext(detections: seq<Detection>, i: nat, ghost m0: Memory)
      requires i < |detections| && WellFormed(m0)
      requires Valid()
      requires Snapshot() == ObserveAll(m0, detections[..i], frameCount, stableAge)
      modifies this`memory, this`order
      ensures Snapshot() == ObserveAll(m0, detections[..i + 1], frameCount, stableAge)
    {
      ObserveAllSnoc(m0, detections, i, frameCount, stableAge);
      ObserveOne(detections[i]);
    }

    /** First pass of a frame: create or refresh the record of every detection.
        Returns the set of ids seen in this frame. */
    method ObserveDetections(detections: seq<Detection>) returns (activeTrackIds: set<TrackId>)
      requires Valid()
      modifies this`memory, this`order
      ensures Valid()
      ensures activeTrackIds == SeenIds(detections)
      ensures Snapshot() == ObserveAll(old(Snapshot()), detections, frameCount, stableAge)
    {
      ghost var m0 := Snapshot();
      activeTrackIds := {};
      var i := 0;
      while i < |detections|
        invariant 0 <= i <= |detections|
        invariant Valid()
        invariant activeTrackIds == SeenIds(detections[..i])
        invariant Snapshot() == ObserveAll(m0, detections[..i], frameCount, stableAge)
      {
        SeenIdsPrefixSnoc(detections, i);
        activeTrackIds := activeTrackIds + {detections[i].trackId};
        ObserveNext(detections, i, m0);
        i := i + 1;
      }
      assert detections[..i] == detections;
    }

    /** Second pass of a frame: records not seen and idle too long become Lost unless Done. */
    method MarkMissing(activeTrackIds: set<TrackId>)
      requires Valid()
      modifies this`memory
      ensures Valid()
      ensures Snapshot() == MarkIdle(old(Snapshot()), activeTrackIds, frameCount, maxIdleFrames)
    {
      ghost var m1 := Snapshot();
      var k := 0;
      while k < |order|
        invariant 0 <= k <= |order|
        invariant memory.Keys == m1.records.Keys
        invariant forall id :: id in m1.records ==>
          memory[id] == if id in order[..k] then IdleUpdate(id, m1.records[id], activeTrackIds, frameCount, maxIdleFrames) else m1.records[id]
      {
        var trackId := order[k];
        FreshAtPrefixEnd(order, k);
        if trackId !in activeTrackIds {
          var tracked := memory[trackId];
          var idleFrame := frameCount - tracked.lastSeenFrame;
          if idleFrame > maxIdleFrames {
            if tracked.state != Done {
              memory := memory[trackId := tracked.(state := TrackedState.Lost)];
            }
          }
        }
        k := k + 1;
      }
      assert order[..k] == order;
    }

    /** Last pass of a frame: the records that are neither Done nor Lost, in dictionary order. */
    method ActiveList() returns (activeObjects: seq<TrackedGarbage>)
      requires Valid()
      ensures activeObjects == ActiveObjects(Snapshot())
    {
      activeObjects := [];
      var j := 0;
      while j < |order|
        invariant 0 <= j <= |order|
        invariant activeObjects == ActiveIn(memory, order[..j])
      {
        var trackId := order[j];
        assert trackId in order;
        var tracked := memory[trackId];
        if tracked.state != Done && tracked.state != TrackedState.Lost {
          activeObjects := activeObjects + [tracked];
        }
        assert order[..j + 1][..j] == order[..j];
        j := j + 1;
      }
      assert order[..j] == order;
    }

    /** One frame: create or refresh the records of the detections, mark idle records
        Lost, clean up, and return the active records. */
    method CreateGarbageAggregations(detections: seq<Detection>) returns (activeObjects: seq<TrackedGarbage>)
      requires Valid()
      modifies this`frameCount, this`memory, this`order
      ensures Valid()
      ensures frameCount == old(frameCount) + 1
      ensures Snapshot() == Aggregate(old(Snapshot()), detections, frameCount, stableAge, maxIdleFrames)
      ensures activeObjects == ActiveObjects(Snapshot())
    {
      frameCount := frameCount + 1;
      var activeTrackIds := ObserveDetections(detections);
      MarkMissing(activeTrackIds);
      CleanupMemory();
      activeObjects := ActiveList();
    }

    /** Applies a lifecycle command; the source returns nothing on every path. */
    method ApplyLifecycleChanges(command: Option<LifeCycleCommand>)
      requires Valid()
      modifies this`memory
      ensures Valid()
      ensures memory == ApplyCommand(old(memory), command)
    {
      if command.None? {
        return;
      }
      var trackId := command.value.trackId;
      if trackId !in memory {
        return;
      }
      var selected := memory[trackId];
      if command.value.action == Select {
        memory := memory[trackId := selected.(state := Selected)];
      } else if command.value.action == MarkDone {
        memory := memory[trackId := selected.(state := Done)];
      } else if command.value.action == LifeCycleAction.Lost {
        memory := memory[trackId := selected.(state := TrackedState.Lost)];
      }
    }
  }
}
