/** The first decision step: only Stable records are considered (stage2_decision/filter.py). */
module StableFilter {
  import opened Common
  import opened VisionEntity

  predicate IsStable(o: TrackedGarbage) {
    o.state == Stable
  }

  /** The Stable records, in input order. */
  function FilterDetections(trackedObjects: seq<TrackedGarbage>): (r: seq<TrackedGarbage>)
    ensures forall o :: o in r <==> o in trackedObjects && o.state == Stable
    ensures IsSubsequence(r, trackedObjects)
    ensures |r| <= |trackedObjects|
  {
    FilterMembers(IsStable, trackedObjects);
    FilterIsSubsequence(IsStable, trackedObjects);
    Filter(IsStable, trackedObjects)
  }

  /** Filtering twice is filtering once. */
  lemma FilterDetectionsIdempotent(trackedObjects: seq<TrackedGarbage>)
    ensures FilterDetections(FilterDetections(trackedObjects)) == FilterDetections(trackedObjects)
  {
    FilterIdempotent(IsStable, trackedObjects);
  }
}
