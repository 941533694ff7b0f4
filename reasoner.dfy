/** The soft priority score of the decision stage (stage2_decision/reasoner.py). */
module Reasoner {
  import opened Common
  import opened VisionEntity
  import opened DecisionEntity

  /** The class weight of a class missing from the table. */
  const DefaultClassScore: real := 0.5

  datatype PriorityReasoner = PriorityReasoner(classWeights: map<string, real>, ageWeight: real, confWeight: real) {

    /** The table weight of a class, or the default for a class not in the table. */
    function ClassScore(className: string): (r: real)
      ensures className in classWeights ==> r == classWeights[className]
      ensures className !in classWeights ==> r == DefaultClassScore
    {
      if className in classWeights then classWeights[className] else DefaultClassScore
    }

    /** The weighted sum of the class weight, the age and the mean confidence. */
    function Score(o: TrackedGarbage): (score: real)
      ensures ageWeight >= 0.0 && confWeight >= 0.0 && o.avgConfidence >= 0.0 ==> score >= ClassScore(o.className)
    {
      ClassScore(o.className) + o.age as real * ageWeight + o.avgConfidence * confWeight
    }

    /** Of two objects of the same class, the one at least as old and at least as confident scores
        at least as high, as long as neither weight is negative. */
    lemma ScoreMonotone(o: TrackedGarbage, p: TrackedGarbage)
      requires ageWeight >= 0.0 && confWeight >= 0.0
      requires o.className == p.className && o.age <= p.age && o.avgConfidence <= p.avgConfidence
      ensures Score(o) <= Score(p)
    {
      var ageGain := (p.age as real - o.age as real) * ageWeight;
      var confGain := (p.avgConfidence - o.avgConfidence) * confWeight;
      assert ageGain >= 0.0 && confGain >= 0.0;
      assert Score(p) == Score(o) + ageGain + confGain;
    }

    /** Every object paired with its score, in input order. */
    function ScoredList(trackedObjects: seq<TrackedGarbage>): (r: seq<Scored>)
      ensures |r| == |trackedObjects|
      ensures forall i :: 0 <= i < |r| ==> r[i].obj == Some(trackedObjects[i]) && r[i].score == Score(trackedObjects[i])
    {
      seq(|trackedObjects|, i requires 0 <= i < |trackedObjects| => Scored(Some(trackedObjects[i]), Score(trackedObjects[i])))
    }

    /** Pairs every object with its score, in input order. */
    method CalculatePriorityScore(trackedObjects: seq<TrackedGarbage>) returns (scored: seq<Scored>)
      ensures |scored| == |trackedObjects|
      ensures forall i :: 0 <= i < |scored| ==>
        scored[i].obj == Some(trackedObjects[i]) && scored[i].score == Score(trackedObjects[i])
      ensures scored == ScoredList(trackedObjects)
    {
      scored := [];
      var i := 0;
      while i < |trackedObjects|
        invariant 0 <= i <= |trackedObjects|
        invariant |scored| == i
        invariant forall j :: 0 <= j < i ==>
          scored[j].obj == Some(trackedObjects[j]) && scored[j].score == Score(trackedObjects[j])
      {
        var o := trackedObjects[i];
        var classScore := if o.className in classWeights then classWeights[o.className] else DefaultClassScore;
        var ageScore := o.age as real * ageWeight;
        var confidenceScore := o.avgConfidence * confWeight;
        var priorityScore := classScore + ageScore + confidenceScore;
        scored := scored + [Scored(Some(o), priorityScore)];
        i := i + 1;
      }
    }
  }
}
