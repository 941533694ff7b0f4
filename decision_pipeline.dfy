/** The decision pipeline: filter, rule gate, score, rank, lock, intent (stage2_decision/pipeline.py). */
module DecisionPipeline {
  import opened Common
  import opened VisionEntity
  import opened Command
  import opened DecisionEntity
  import opened StableFilter
  import opened RuleGate
  import opened Reasoner
  import opened Ranking
  import opened Selector
  import opened Planner

  datatype DecisionConfig = DecisionConfig(rules: RuleFilter, reasoner: PriorityReasoner, planner: ActionPlanner)

  /** What one run returns, and the lock it leaves behind. */
  datatype DecisionOutcome = DecisionOutcome(intent: Option<ActionIntent>, command: Option<LifeCycleCommand>, lock: TrackId)

  /** The Stable objects that pass the rule gate. */
  function Valid(cfg: DecisionConfig, trackedObjects: seq<TrackedGarbage>): seq<TrackedGarbage> {
    cfg.rules.Kept(FilterDetections(trackedObjects))
  }

  /** The scored candidates, by non-increasing score. */
  function Ranked(cfg: DecisionConfig, trackedObjects: seq<TrackedGarbage>): seq<Scored> {
    SortedByScore(cfg.reasoner.ScoredList(Valid(cfg, trackedObjects)))
  }

  /** One decision step from the lock held before it. */
  function Decide(cfg: DecisionConfig, lock: TrackId, trackedObjects: seq<TrackedGarbage>): (outcome: DecisionOutcome)
    ensures outcome.intent.Some? ==> outcome.intent.value.trackId == outcome.lock
    ensures outcome.command.Some? ==>
      !IsHeld(lock) && outcome.command.value == LifeCycleCommand(LifeCycleAction.Select, outcome.lock)
    ensures outcome.command.None? ==> outcome.lock == lock
  {
    if |Valid(cfg, trackedObjects)| == 0 then DecisionOutcome(None, None, lock)
    else
      var ranked := Ranked(cfg, trackedObjects);
      var step := SelectStep(lock, ranked);
      DecisionOutcome(IntentFor(ranked, step.lock), step.command, step.lock)
  }

  /** Every ranked entry carries a Stable object of the input that passes the rules. */
  lemma {:induction false} RankedFromInput(cfg: DecisionConfig, trackedObjects: seq<TrackedGarbage>, e: Scored)
    requires e in Ranked(cfg, trackedObjects)
    ensures e.obj.Some? && e.obj.value in trackedObjects && e.obj.value.state == Stable && cfg.rules.Passes(e.obj.value)
    ensures e.score == cfg.reasoner.Score(e.obj.value)
  {
    var valid := Valid(cfg, trackedObjects);
    var scored := cfg.reasoner.ScoredList(valid);
    SortedByScoreFacts(scored);
    assert e in multiset(Ranked(cfg, trackedObjects));
    assert e in scored;
    var k :| 0 <= k < |scored| && scored[k] == e;
    assert valid[k] in valid;
    KeptMembers(cfg.rules, FilterDetections(trackedObjects));
  }

  /** Nothing survives the filters: no intent, no command, lock unchanged. */
  lemma DecideWithoutCandidates(cfg: DecisionConfig, lock: TrackId, trackedObjects: seq<TrackedGarbage>)
    requires forall o :: o in trackedObjects && o.state == Stable ==> !cfg.rules.Passes(o)
    ensures Decide(cfg, lock, trackedObjects) == DecisionOutcome(None, None, lock)
  {
    var valid := Valid(cfg, trackedObjects);
    KeptMembers(cfg.rules, FilterDetections(trackedObjects));
  }

  /** With a truthy lock held, no command is emitted, the lock stays, and any intent is for it. */
  lemma {:induction false} DecideWithLockHeld(cfg: DecisionConfig, lock: TrackId, trackedObjects: seq<TrackedGarbage>)
    requires IsHeld(lock)
    ensures var out := Decide(cfg, lock, trackedObjects);
      out.command == None && out.lock == lock && (out.intent.Some? ==> out.intent.value.trackId == lock)
  {
    IntentForLocked(Ranked(cfg, trackedObjects), lock);
  }

  /** An intent exists only for the lock, and only when a ranked candidate carries that id;
      the candidate is then a Stable input object that passes the rules. */
  lemma {:induction false} DecideIntentIsCandidate(cfg: DecisionConfig, lock: TrackId, trackedObjects: seq<TrackedGarbage>)
    ensures var out := Decide(cfg, lock, trackedObjects);
      out.intent.Some? ==>
        out.intent.value.trackId == out.lock
        && exists o :: o in trackedObjects && o.trackId == out.lock && o.state == Stable && cfg.rules.Passes(o)
  {
    var out := Decide(cfg, lock, trackedObjects);
    if out.intent.Some? {
      var ranked := Ranked(cfg, trackedObjects);
      IntentForLocked(ranked, out.lock);
      var i :| 0 <= i < |ranked| && Matches(ranked[i], out.lock);
      RankedFromInput(cfg, trackedObjects, ranked[i]);
    }
  }

  /** With no truthy lock and some candidate, the candidate with the highest score is locked
      and a Select command for it is emitted, together with its intent unless its id is missing. */
  lemma {:induction false} DecideLocksBest(cfg: DecisionConfig, lock: TrackId, trackedObjects: seq<TrackedGarbage>)
    requires !IsHeld(lock) && |Valid(cfg, trackedObjects)| > 0
    ensures var out := Decide(cfg, lock, trackedObjects);
      out.command.Some? && out.command.value.action == LifeCycleAction.Select && out.command.value.trackId == out.lock
      && (out.lock.Some? ==> out.intent.Some? && out.intent.value.trackId == out.lock)
      && (exists best :: best in Valid(cfg, trackedObjects) && best.trackId == out.lock
            && (out.intent.Some? ==> out.intent.value.priorityScore == cfg.reasoner.Score(best))
            && forall o :: o in Valid(cfg, trackedObjects) ==> cfg.reasoner.Score(best) >= cfg.reasoner.Score(o))
  {
    var valid := Valid(cfg, trackedObjects);
    var ranked := Ranked(cfg, trackedObjects);
    var best := RankedHeadIsBest(cfg, trackedObjects);
    var out := Decide(cfg, lock, trackedObjects);
    assert out.lock == best.trackId;
    assert Matches(ranked[0], out.lock);
    if out.lock.Some? {
      assert out.intent == Some(IntentOf(ranked[0]));
    }
  }

  /** The head of the ranked list carries a candidate of maximal score. */
  lemma {:induction false} RankedHeadIsBest(cfg: DecisionConfig, trackedObjects: seq<TrackedGarbage>) returns (best: TrackedGarbage)
    requires |Valid(cfg, trackedObjects)| > 0
    ensures Ranked(cfg, trackedObjects) != [] && Ranked(cfg, trackedObjects)[0] == Scored(Some(best), cfg.reasoner.Score(best))
    ensures best in Valid(cfg, trackedObjects)
    ensures forall o :: o in Valid(cfg, trackedObjects) ==> cfg.reasoner.Score(best) >= cfg.reasoner.Score(o)
  {
    var valid := Valid(cfg, trackedObjects);
    var scored := cfg.reasoner.ScoredList(valid);
    SortedHeadIsMaximal(scored);
    var head := Ranked(cfg, trackedObjects)[0];
    var k :| 0 <= k < |scored| && scored[k] == head;
    best := valid[k];
    forall o | o in valid ensures cfg.reasoner.Score(best) >= cfg.reasoner.Score(o) {
      var j :| 0 <= j < |valid| && valid[j] == o;
      assert scored[j] in scored;
    }
  }

  /** Two candidates scored 0.7 and 0.9 and no lock: the 0.9 candidate is locked. */
  lemma HigherScoreIsSelected(a: TrackedGarbage, b: TrackedGarbage)
    requires a.trackId == Some(1) && b.trackId == Some(2)
    ensures var ranked := SortedByScore([Scored(Some(a), 0.7), Scored(Some(b), 0.9)]);
      SelectStep(None, ranked) == LockStep(Some(2), Some(LifeCycleCommand(LifeCycleAction.Select, Some(2))))
  {
    var s := [Scored(Some(a), 0.7), Scored(Some(b), 0.9)];
    assert s[..1] == [s[0]] && [s[0]][..0] == [];
    assert SortedByScore(s[..1]) == InsertDesc([], s[0]) == [s[0]];
    assert InsertDesc([s[0]], s[1]) == InsertDesc([], s[1]) + [s[0]];
    assert SortedByScore(s) == [Scored(Some(b), 0.9), Scored(Some(a), 0.7)];
  }

  /** As written, the rule gate is called under a name `RuleFilter` does not define, so
      every run raises before anything is selected. */
  function RunAsWritten(cfg: DecisionConfig, lock: TrackId, trackedObjects: seq<TrackedGarbage>): (r: Result<DecisionOutcome>)
  {
    Err(AttributeError("hard_rules_apply"))
  }

  /** The call the code makes does not exist, while the rule gate it means yields a decision. */
  lemma RunAsWrittenNeverDecides(cfg: DecisionConfig, lock: TrackId, trackedObjects: seq<TrackedGarbage>)
    ensures RunAsWritten(cfg, lock, trackedObjects).Err?
    ensures !IsHeld(lock) && |Valid(cfg, trackedObjects)| > 0 ==> Decide(cfg, lock, trackedObjects).command.Some?
  {
    if !IsHeld(lock) && |Valid(cfg, trackedObjects)| > 0 {
      DecideLocksBest(cfg, lock, trackedObjects);
    }
  }

  class DecisionPipeline {
    const cfg: DecisionConfig
    const selector: SelectionLock

    constructor (cfg: DecisionConfig)
      ensures this.cfg == cfg && fresh(selector) && selector.activeTrackId == None
    {
      this.cfg := cfg;
      selector := new SelectionLock();
    }

    /** One decision step; the rule gate is called under its defined name. */
    method Run(trackedAggObjects: seq<TrackedGarbage>) returns (actionIntent: Option<ActionIntent>, selectCommand: Option<LifeCycleCommand>)
      modifies selector
      ensures DecisionOutcome(actionIntent, selectCommand, selector.activeTrackId)
        == Decide(cfg, old(selector.activeTrackId), trackedAggObjects)
    {
      var stableTrackedObjects := FilterDetections(trackedAggObjects);
      var validObjects := cfg.rules.ApplyHardRules(stableTrackedObjects);
      if |validObjects| == 0 {
        return None, None;
      }
      // The reasoner keeps the length, so the source's second emptiness test cannot fire here.
      var rankedObjects := cfg.reasoner.CalculatePriorityScore(validObjects);
      rankedObjects := SortedByScore(rankedObjects);
      selectCommand := selector.SelectTarget(rankedObjects);
      var lockedId := selector.GetLockedTarget();
      actionIntent := cfg.planner.BuildActionIntents(rankedObjects, lockedId);
    }
  }
}
