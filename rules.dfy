/** The hard rule gate of the decision stage (stage2_decision/rules.py). */
module RuleGate {
  import opened Common
  import opened VisionEntity

  /** Minimum age, minimum mean confidence and the allowed class names. */
  datatype RuleFilter = RuleFilter(minAge: int, minConf: real, allowedClasses: seq<string>) {

    /** An object survives when none of the three rules rejects it; the bounds are rejected
        with a strict comparison, so objects exactly at the bounds pass. */
    predicate Passes(o: TrackedGarbage) {
      !(o.age < minAge) && !(o.avgConfidence < minConf) && o.className in allowedClasses
    }

    /** The objects that pass all rules, in input order. */
    function Kept(trackedObjects: seq<TrackedGarbage>): (kept: seq<TrackedGarbage>)
      ensures |kept| <= |trackedObjects|
      ensures forall o :: o in kept ==> o in trackedObjects && Passes(o)
    {
      FilterMembers(Passes, trackedObjects);
      Filter(Passes, trackedObjects)
    }

    /** The rule loop: skip an object at the first rule it breaks, append it otherwise. */
    method ApplyHardRules(trackedObjects: seq<TrackedGarbage>) returns (filteredObjects: seq<TrackedGarbage>)
      ensures filteredObjects == Kept(trackedObjects)
    {
      filteredObjects := [];
      var i := 0;
      while i < |trackedObjects|
        invariant 0 <= i <= |trackedObjects|
        invariant filteredObjects == Filter(Passes, trackedObjects[..i])
      {
        var o := trackedObjects[i];
        assert trackedObjects[..i + 1] == trackedObjects[..i] + [o];
        FilterAppend(Passes, trackedObjects[..i], [o]);
        if o.age < minAge {
          i := i + 1;
          continue;
        }
        if o.avgConfidence < minConf {
          i := i + 1;
          continue;
        }
        if o.className !in allowedClasses {
          i := i + 1;
          continue;
        }
        filteredObjects := filteredObjects + [o];
        i := i + 1;
      }
      assert trackedObjects[..i] == trackedObjects;
    }
  }

  /** An object is kept iff its age and mean confidence reach the minimums and its class is allowed. */
  lemma {:induction false} KeptMembers(f: RuleFilter, trackedObjects: seq<TrackedGarbage>)
    ensures forall o :: o in f.Kept(trackedObjects) <==>
      o in trackedObjects && o.age >= f.minAge && o.avgConfidence >= f.minConf && o.className in f.allowedClasses
  {
    FilterMembers(f.Passes, trackedObjects);
  }

  /** The gate keeps input order and only drops objects. */
  lemma {:induction false} KeptIsSubsequence(f: RuleFilter, trackedObjects: seq<TrackedGarbage>)
    ensures IsSubsequence(f.Kept(trackedObjects), trackedObjects)
  {
    FilterIsSubsequence(f.Passes, trackedObjects);
  }

  /** Applying the gate twice is applying it once. */
  lemma {:induction false} KeptIdempotent(f: RuleFilter, trackedObjects: seq<TrackedGarbage>)
    ensures f.Kept(f.Kept(trackedObjects)) == f.Kept(trackedObjects)
  {
    FilterIdempotent(f.Passes, trackedObjects);
  }
}
