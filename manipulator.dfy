/** The gripper (stage3_action/manipulator.py). Its body is a simulation placeholder, so the grasp
    outcome is an arbitrary boolean; a ghost trace records each grasp with the box it was given. */
module Manipulation {
  import opened VisionEntity

  /** One grasp request and its outcome. */
  datatype GraspCall = GraspCall(bbox: Bbox, success: bool)

  /** `after` is `before` followed by `count` grasps at `bbox`, each failing except possibly the last. */
  ghost predicate GraspedAt(before: seq<GraspCall>, after: seq<GraspCall>, bbox: Bbox, count: nat) {
    |after| == |before| + count && after[..|before|] == before &&
    (forall i :: |before| <= i < |after| ==> after[i].bbox == bbox) &&
    (forall i :: |before| <= i < |after| - 1 ==> !after[i].success)
  }

  /** A failed run of grasps followed by a further run is one run. */
  lemma GraspedAtChain(before: seq<GraspCall>, middle: seq<GraspCall>, after: seq<GraspCall>, bbox: Bbox, n: nat, m: nat)
    requires GraspedAt(before, middle, bbox, n) && n >= 1 && !middle[|middle| - 1].success
    requires GraspedAt(middle, after, bbox, m)
    ensures GraspedAt(before, after, bbox, n + m)
  {
    assert after[..|before|] == middle[..|before|] by {
      assert after[..|middle|] == middle;
    }
    forall i | |before| <= i < |after| ensures after[i].bbox == bbox && (i < |after| - 1 ==> !after[i].success) {
      if i < |middle| {
        assert after[i] == after[..|middle|][i] == middle[i];
      }
    }
  }

  class Manipulator {
    ghost var grasps: seq<GraspCall>

    constructor ()
      ensures grasps == []
    {
      grasps := [];
    }

    method GraspGarbage(bbox: Bbox) returns (success: bool)
      modifies this
      ensures grasps == old(grasps) + [GraspCall(bbox, success)]
    {
      success := *;
      grasps := grasps + [GraspCall(bbox, success)];
    }
  }
}
