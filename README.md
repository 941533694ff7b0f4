# Fish cleaning robot: decision and mission core

A Dafny model of the decision and mission core of "Fish", an underwater garbage-collecting robot.
The model covers one control cycle and proves properties of it:

- **Vision aggregation.** The `GarbageAggregator` keeps one record per tracked object. For each
  frame it creates or refreshes the records of the detections, marks records that have been idle
  too long as Lost, purges collected and long-lost records, and returns the active ones. It also
  applies the lifecycle commands that the decision stage sends back.
- **Decision.** The decision pipeline takes the aggregator's active list and runs these steps in
  order.
  - It keeps the Stable objects.
  - It applies the hard rules: minimum age, minimum mean confidence, and an allowed class.
  - It scores each object as class weight plus weighted age plus weighted confidence.
  - It sorts by score, descending and stable.
  - It locks the best object when no lock is held, and builds the action intent for the locked id.
  - The selection lock turns the action feedback into a lifecycle command and releases itself.
- **Projection.** Image bounding boxes become robot-centric world objects, keyed by track id.
- **Action and mission.**
  - The bin manager counts the load against a threshold ratio.
  - The executor turns one grasp into SUCCESS or FAILED feedback.
  - The unloading sub-mission picks the dump point of least docking cost (a weighted, clamped sum
    of travel, current, energy, drag, risk and uncertainty terms) and travels there, surfacing first
    when underwater.
  - The mission planner advances the mission phases: surface sweep, descend, underwater sweep,
    ascend, return to headquarters, done. Each tick runs a bounded retry of failed grasps, counts
    lost targets, aborts when the loss limit is reached, and unloads when the bin is full.
  - The outcome logger writes one entry per track id, for the first outcome reported for it.

**Form of the model.** Parts that change state in place become classes: the aggregator, selection
lock, bin manager, executor, outcome logger, unloading behaviour and mission planner. Each method
states its results and the new state of what it changes, with the exceptions listed under
"## Left out". Their loops are `while` loops carrying invariants. The pure parts
are functions with lemmas: the filters, the scoring, the ranking, the cost model and the projection.

**Python semantics the model keeps.**
- Track ids are `Option<int>`. A `None` id is stored like any other. An id is "held" only when it
  is present and non-zero, which is Python truthiness.
- The aggregator keeps dictionary insertion order. The order of the active list decides ties in
  the stable sort, so it matters.
- Exceptions the code raises become `Err` results:
  - a zero bin capacity (ZeroDivisionError);
  - a zero cruise speed or normalisation limit in the docking cost (ZeroDivisionError);
  - an empty dump-point list (ValueError from `min`).

**The navigator and the gripper.**
- The navigator (`stage3_action/navigation.py`) is not part of this model. It is a stand-in class.
  Its queries return arbitrary booleans, and a ghost trace records each call and its answer. The
  mission contracts are stated over that trace, for example "the abort trip followed the planned
  route and stopped at the first failed leg".
- The gripper's outcome is likewise arbitrary. This makes the retry and abort paths reachable.

**Behaviour modelled as written.**
- A failed descent or ascent aborts the mission. The phase code then carries on with the next
  phase, overwriting the phase the abort set.
- The three defects listed under "## Findings" are modelled twice: once as written, and once as
  evidently intended. The rest of the model uses the intended version.

## Model

| member | source | states |
|---|---|---|
| Aggregator.Observe | P1_Fish_And_Fly/src/fish/stage1_vision/aggregator.py:71-101 | one detection keeps the memory well formed (unique order, keys match ids) and adds exactly its id to the keys |
| Aggregator.ObserveSpec | P1_Fish_And_Fly/src/fish/stage1_vision/aggregator.py:76-101 | other records unchanged; a new id gets age 1, state NEW, its confidence as mean and is appended to the order; a known id ages by one, takes the frame and box, keeps class and order, and is promoted NEW to STABLE exactly when its age reaches `stable_age` |
| Aggregator.Refresh | P1_Fish_And_Fly/src/fish/stage1_vision/aggregator.py:93-101 | a seen-again record keeps its id and class, ages by one, takes the frame and the new box, and changes state only by a NEW to STABLE promotion, which happens exactly when the new age reaches `stable_age` |
| Aggregator.RefreshKeepsRunningMean | P1_Fish_And_Fly/src/fish/stage1_vision/aggregator.py:94-97 | the refreshed mean times the new age equals the old mean times the old age plus the new confidence |
| Aggregator.ObserveAll | P1_Fish_And_Fly/src/fish/stage1_vision/aggregator.py:71-101 | folding the detection loop over a frame keeps the memory well formed |
| Aggregator.ObserveAllKeys | P1_Fish_And_Fly/src/fish/stage1_vision/aggregator.py:71-90 | after the detection loop the keys are the old keys plus every detected id |
| Aggregator.ObserveAllFacts | P1_Fish_And_Fly/src/fish/stage1_vision/aggregator.py:71-101 | every detected id has a record last seen in this frame; every undetected id keeps its record unchanged |
| Aggregator.MarkIdle | P1_Fish_And_Fly/src/fish/stage1_vision/aggregator.py:106-117 | the missing-object pass keeps the memory well formed, its order and its keys |
| Aggregator.MarkIdleSpec | P1_Fish_And_Fly/src/fish/stage1_vision/aggregator.py:106-117 | seen records are untouched; only states change; a record is Lost afterwards iff it was Lost or it is unseen, idle more than `max_idle_frames` and not DONE |
| Aggregator.CollectPurge | P1_Fish_And_Fly/src/fish/stage1_vision/aggregator.py:31-38 | an id is collected iff it is stored and is DONE, or LOST and idle more than twice `max_idle_frames` |
| Aggregator.RemoveKeyWellFormed | P1_Fish_And_Fly/src/fish/stage1_vision/aggregator.py:41-42 | deleting one id keeps the memory well formed and drops exactly that key |
| Aggregator.RemoveAll | P1_Fish_And_Fly/src/fish/stage1_vision/aggregator.py:41-42 | deleting a list of ids keeps exactly the other records, unchanged, in a well-formed memory |
| Aggregator.Cleanup | P1_Fish_And_Fly/src/fish/stage1_vision/aggregator.py:21-46 | the cleaned memory is well formed, keeps exactly the non-purgeable records, and keeps them unchanged |
| Aggregator.CleanupSpec | P1_Fish_And_Fly/src/fish/stage1_vision/aggregator.py:21-46 | after cleanup no purgeable record remains, every non-purgeable record is kept unchanged, and no key is added |
| Aggregator.ActiveInMembers | P1_Fish_And_Fly/src/fish/stage1_vision/aggregator.py:125 | the filtered list holds exactly the active records stored under the listed ids |
| Aggregator.ActiveObjects | P1_Fish_And_Fly/src/fish/stage1_vision/aggregator.py:125 | every returned record is active and stored in the memory |
| Aggregator.ActiveObjectsSpec | P1_Fish_And_Fly/src/fish/stage1_vision/aggregator.py:125 | the active list holds exactly the stored records that are neither DONE nor LOST |
| Aggregator.Aggregate | P1_Fish_And_Fly/src/fish/stage1_vision/aggregator.py:66-125 | the memory after a whole frame is well formed and holds no DONE record |
| Aggregator.AggregateSpec | P1_Fish_And_Fly/src/fish/stage1_vision/aggregator.py:66-125 | over a whole frame, every detected id that is not DONE keeps its freshly refreshed record, and no DONE record survives |
| Aggregator.ApplyCommand | P1_Fish_And_Fly/src/fish/stage1_vision/aggregator.py:141-179 | keys never change; no command, an unknown id, or a FAILED/UNATTEMPTED action leaves the memory as is; SELECT, MARK_DONE and LOST set only the named record's state |
| Aggregator.GarbageAggregator.constructor | P1_Fish_And_Fly/src/fish/stage1_vision/aggregator.py:12-18 | the configuration is stored, the frame count is 0 and the memory is empty |
| Aggregator.GarbageAggregator.PurgeCandidates | P1_Fish_And_Fly/src/fish/stage1_vision/aggregator.py:29-38 | the collecting loop returns the purgeable ids in dictionary order |
| Aggregator.GarbageAggregator.CleanupMemory | P1_Fish_And_Fly/src/fish/stage1_vision/aggregator.py:21-46 | the memory becomes the cleaned-up memory of the current frame |
| Aggregator.GarbageAggregator.ObserveOne | P1_Fish_And_Fly/src/fish/stage1_vision/aggregator.py:72-101 | one turn of the detection loop updates the memory as `Observe` does |
| Aggregator.GarbageAggregator.ObserveNext | P1_Fish_And_Fly/src/fish/stage1_vision/aggregator.py:71-101 | the memory after `i` detections plus one more is the memory after `i + 1` |
| Aggregator.GarbageAggregator.ObserveDetections | P1_Fish_And_Fly/src/fish/stage1_vision/aggregator.py:68-101 | the detection loop returns exactly the detected ids and leaves the memory that `ObserveAll` describes |
| Aggregator.GarbageAggregator.MarkMissing | P1_Fish_And_Fly/src/fish/stage1_vision/aggregator.py:106-117 | the missing-object loop leaves the memory that `MarkIdle` describes |
| Aggregator.GarbageAggregator.ActiveList | P1_Fish_And_Fly/src/fish/stage1_vision/aggregator.py:125 | returns the active records in dictionary order |
| Aggregator.GarbageAggregator.CreateGarbageAggregations | P1_Fish_And_Fly/src/fish/stage1_vision/aggregator.py:50-138 | the frame count goes up by one, the memory becomes the refreshed, idle-marked and cleaned-up memory, and the active list of that memory is returned |
| Aggregator.GarbageAggregator.ApplyLifecycleChanges | P1_Fish_And_Fly/src/fish/stage1_vision/aggregator.py:141-179 | the memory becomes the commanded memory and stays well formed |
| StableFilter.FilterDetections | P1_Fish_And_Fly/src/fish/stage2_decision/filter.py:12-18 | an object is kept iff it is in the input and Stable; the result is an order-preserving subsequence |
| StableFilter.FilterDetectionsIdempotent | P1_Fish_And_Fly/src/fish/stage2_decision/filter.py:15 | filtering twice equals filtering once |
| RuleGate.RuleFilter.ApplyHardRules | P1_Fish_And_Fly/src/fish/stage2_decision/rules.py:25-58 | the rule loop returns the rule-passing objects in input order |
| RuleGate.RuleFilter.Kept | P1_Fish_And_Fly/src/fish/stage2_decision/rules.py:37-58 | no longer than the input, and every kept object is an input object that passes all three rules |
| RuleGate.KeptMembers | P1_Fish_And_Fly/src/fish/stage2_decision/rules.py:40-55 | an object is kept iff it is in the input with age at least `min_age`, mean confidence at least `min_conf` and an allowed class |
| RuleGate.KeptIsSubsequence | P1_Fish_And_Fly/src/fish/stage2_decision/rules.py:37-58 | the kept objects are an order-preserving subsequence of the input |
| RuleGate.KeptIdempotent | P1_Fish_And_Fly/src/fish/stage2_decision/rules.py:40-55 | applying the rules twice equals applying them once |
| Reasoner.PriorityReasoner.ClassScore | P1_Fish_And_Fly/src/fish/stage2_decision/reasoner.py:43 | the configured class weight, or 0.5 for an unlisted class |
| Reasoner.PriorityReasoner.Score | P1_Fish_And_Fly/src/fish/stage2_decision/reasoner.py:43-50 | with non-negative weights and confidence, the score is at least the class weight |
| Reasoner.PriorityReasoner.ScoreMonotone | P1_Fish_And_Fly/src/fish/stage2_decision/reasoner.py:43-50 | with non-negative weights, an object of the same class that is at least as old and as confident scores at least as high |
| Reasoner.PriorityReasoner.ScoredList | P1_Fish_And_Fly/src/fish/stage2_decision/reasoner.py:41-53 | one pair per object, in order, holding the object and its class, age and confidence score |
| Reasoner.PriorityReasoner.CalculatePriorityScore | P1_Fish_And_Fly/src/fish/stage2_decision/reasoner.py:28-57 | the scoring loop returns, index by index, each object with its score |
| Ranking.SortedByScoreFacts | P1_Fish_And_Fly/src/fish/stage2_decision/pipeline.py:53 | the ranking is non-increasing in score and a permutation of its input |
| Ranking.SortedByScoreStable | P1_Fish_And_Fly/src/fish/stage2_decision/pipeline.py:53 | for every score, the pairs with that score keep their input order (a stable sort) |
| Ranking.SortedHeadIsMaximal | P1_Fish_And_Fly/src/fish/stage2_decision/pipeline.py:53 | the first ranked pair comes from the input and has a score at least that of every input pair |
| Ranking.SortedByScore | P1_Fish_And_Fly/src/fish/stage2_decision/pipeline.py:53 | the ranking has as many entries as its input; order and permutation are stated by `SortedByScoreFacts` |
| Selector.SelectStep | P1_Fish_And_Fly/src/fish/stage2_decision/selector.py:21-57 | a SELECT command is emitted iff no truthy lock is held, the ranking is non-empty and its head has an object; then the lock becomes that object's id; otherwise the lock is unchanged |
| Selector.ActionFor | P1_Fish_And_Fly/src/fish/stage2_decision/selector.py:110-128 | SUCCESS maps to MARK_DONE, FAILED to FAILED, MOVED_FORWARD and NONE to UNATTEMPTED, each both ways |
| Selector.FeedbackStep | P1_Fish_And_Fly/src/fish/stage2_decision/selector.py:100-136 | feedback for another id changes nothing; feedback for the locked id yields the command its status asks for, for that id, and releases the lock |
| Selector.FeedbackAsWritten | P1_Fish_And_Fly/src/fish/stage2_decision/selector.py:100-136 | as written, the call succeeds iff the ids differ or the status is SUCCESS, and then agrees with `FeedbackStep` |
| Selector.FailedFeedbackRaises | P1_Fish_And_Fly/src/fish/stage2_decision/selector.py:117-121 | a FAILED feedback for the locked id raises as written, while the intended step emits FAILED and releases |
| Selector.SelectionLock.constructor | P1_Fish_And_Fly/src/fish/stage2_decision/selector.py:17-18 | no target is locked |
| Selector.SelectionLock.SelectTarget | P1_Fish_And_Fly/src/fish/stage2_decision/selector.py:21-57 | the new lock and the command are those of `SelectStep` |
| Selector.SelectionLock.ReleaseTarget | P1_Fish_And_Fly/src/fish/stage2_decision/selector.py:60-71 | the lock becomes None |
| Selector.SelectionLock.GetLockedTarget | P1_Fish_And_Fly/src/fish/stage2_decision/selector.py:74-80 | returns the current lock |
| Selector.SelectionLock.HandleActionFeedback | P1_Fish_And_Fly/src/fish/stage2_decision/selector.py:84-136 | the new lock and the command are those of `FeedbackStep` |
| Planner.Search | P1_Fish_And_Fly/src/fish/stage2_decision/planner.py:38-55 | None iff no ranked pair has an object with the id; otherwise the intent for the first such pair, carrying that id |
| Planner.ActionPlanner.BuildActionIntents | P1_Fish_And_Fly/src/fish/stage2_decision/planner.py:16-55 | the search loop returns the intent that `IntentFor` describes |
| Planner.IntentFor | P1_Fish_And_Fly/src/fish/stage2_decision/planner.py:30-55 | an intent exists only for a given lock, carries that id, and is built from a ranked entry whose object has it |
| Planner.IntentForLocked | P1_Fish_And_Fly/src/fish/stage2_decision/planner.py:30-55 | an intent exists iff a lock is given and some ranked object carries it, and the intent is for that lock |
| DecisionPipeline.RankedFromInput | P1_Fish_And_Fly/src/fish/stage2_decision/pipeline.py:37-53 | every ranked pair holds a Stable input object that passes the rules, with its own score |
| DecisionPipeline.Decide | P1_Fish_And_Fly/src/fish/stage2_decision/pipeline.py:33-68 | any intent is for the resulting lock; a command is only a SELECT of the new lock, issued only when no truthy lock was held; without a command the lock is unchanged |
| DecisionPipeline.DecideWithoutCandidates | P1_Fish_And_Fly/src/fish/stage2_decision/pipeline.py:41-43 | when no Stable object passes the rules, there is no intent, no command, and the lock is unchanged |
| DecisionPipeline.DecideWithLockHeld | P1_Fish_And_Fly/src/fish/stage2_decision/pipeline.py:61-65 | with a truthy lock held, no command is emitted, the lock stays, and any intent is for the locked id |
| DecisionPipeline.DecideIntentIsCandidate | P1_Fish_And_Fly/src/fish/stage2_decision/pipeline.py:61-68 | an intent is only ever for the lock, and the lock then names a Stable, rule-passing input object |
| DecisionPipeline.DecideLocksBest | P1_Fish_And_Fly/src/fish/stage2_decision/pipeline.py:33-68 | with no lock and some candidate, a SELECT is emitted for a candidate of maximal score and the intent carries that score |
| DecisionPipeline.RankedHeadIsBest | P1_Fish_And_Fly/src/fish/stage2_decision/pipeline.py:47-53 | the head of the ranking is a candidate whose score is at least that of every candidate |
| DecisionPipeline.HigherScoreIsSelected | P1_Fish_And_Fly/src/fish/stage2_decision/pipeline.py:53-62 | of two candidates scored 0.7 and 0.9, the 0.9 one is locked |
| DecisionPipeline.RunAsWrittenNeverDecides | P1_Fish_And_Fly/src/fish/stage2_decision/pipeline.py:40 | as written every run raises AttributeError, while the intended pipeline does select when there is a candidate |
| DecisionPipeline.DecisionPipeline.constructor | P1_Fish_And_Fly/src/fish/stage2_decision/pipeline.py:25-30 | the configuration is stored and a fresh selector holds no lock |
| DecisionPipeline.DecisionPipeline.Run | P1_Fish_And_Fly/src/fish/stage2_decision/pipeline.py:33-68 | the intent, the command and the new lock are those of `Decide` applied to the old lock |
| WorldProjection.ProjectObject | P1_Fish_And_Fly/src/common/projection/world_projection.py:59 | the world object carries the tracked object's id and box |
| WorldProjection.SelectedId | P1_Fish_And_Fly/src/common/projection/world_projection.py:51-53 | the selected id is truthy iff there is an intent with a truthy id, and is then that id |
| WorldProjection.WorldMap | P1_Fish_And_Fly/src/common/projection/world_projection.py:56-62 | the dictionary's keys are exactly the active track ids |
| WorldProjection.WorldMapLastWins | P1_Fish_And_Fly/src/common/projection/world_projection.py:62 | an id maps to the projection of its last occurrence |
| WorldProjection.SelectedIn | P1_Fish_And_Fly/src/common/projection/world_projection.py:64-66 | an object is selected iff the id is truthy and active, and it is then that id's dictionary entry |
| WorldProjection.TransformToWorldFrame | P1_Fish_And_Fly/src/common/projection/world_projection.py:26-73 | the loop returns the dictionary of `WorldMap` and the selected object of `SelectedIn` |
| WorldProjection.TransformAsWritten | P1_Fish_And_Fly/src/common/projection/world_projection.py:46-48 | as written, an empty list returns an empty dictionary and no selection |
| WorldProjection.AsWrittenRaisesOnAnyObject | P1_Fish_And_Fly/src/common/projection/world_projection.py:59 | as written, one active object makes the call raise TypeError, where the intended map has its id |
| WorldProjection.SelectedIsMapEntry | P1_Fish_And_Fly/src/common/projection/world_projection.py:51-66 | an object is selected iff the intent has a truthy id carried by some active object, and it is that id's dictionary entry |
| CameraProjection.CameraToWorldProjector.BboxHeight | P1_Fish_And_Fly/src/common/projection/convert_camera_to_world.py:57 | the height is at least 1 and at least `y2 - y1`, and is one of the two |
| CameraProjection.CameraToWorldProjector.ProjectImageToWorldFrame | P1_Fish_And_Fly/src/common/projection/convert_camera_to_world.py:29-76 | keeps id and box; z is 0; y equals the distance, and the distance times the box height is the forward scale; x is the centred, normalised box centre times the lateral scale |
| CameraProjection.NormalizedXInRange | P1_Fish_And_Fly/src/common/projection/convert_camera_to_world.py:49-53 | a box inside the image gives a normalised x in [-1, 1] |
| CameraProjection.TallerBoxIsCloser | P1_Fish_And_Fly/src/common/projection/convert_camera_to_world.py:57-58 | a taller box is projected no farther away |
| CameraProjection.DefaultScales | P1_Fish_And_Fly/src/common/projection/convert_camera_to_world.py:14 | the default lateral and forward scales are 1.0 and 2.0 |
| BinManagement.ReachedCapacityMonotone | P1_Fish_And_Fly/src/fish/stage3_action/bin_manager.py:81 | once the threshold is reached, a larger load also reaches it |
| BinManagement.BinManager.constructor | P1_Fish_And_Fly/src/fish/stage3_action/bin_manager.py:13-20 | capacity and threshold come from the configuration, the load is 0, the paused position is the origin |
| BinManagement.BinManager.AddGarbage | P1_Fish_And_Fly/src/fish/stage3_action/bin_manager.py:24-38 | the load goes up by exactly one |
| BinManagement.BinManager.UsageRatio | P1_Fish_And_Fly/src/fish/stage3_action/bin_manager.py:47-61 | the ratio times the capacity is the load |
| BinManagement.BinManager.BinIsFull | P1_Fish_And_Fly/src/fish/stage3_action/bin_manager.py:70-87 | a zero capacity raises ZeroDivisionError and alerts nothing; otherwise the answer is whether the ratio reached the threshold, with a BIN_FULL alert exactly then |
| BinManagement.BinManager.ResetBin | P1_Fish_And_Fly/src/fish/stage3_action/bin_manager.py:96-108 | the load becomes 0 and the call reports true |
| Executor.FeedbackFor | P1_Fish_And_Fly/src/fish/stage3_action/executor.py:34-48 | carries the intent's id; SUCCESS iff the grasp succeeded, FAILED iff not, never MOVED_FORWARD or NONE; the matching reason text |
| Executor.ActionExecutor.constructor | P1_Fish_And_Fly/src/fish/stage3_action/executor.py:11-13 | holds the given bin manager and a fresh gripper |
| Executor.ActionExecutor.ExecuteAction | P1_Fish_And_Fly/src/fish/stage3_action/executor.py:16-56 | exactly one grasp of the intent's box is made, and the feedback reports its outcome; the bin is not touched |
| Manipulation.Manipulator.GraspGarbage | P1_Fish_And_Fly/src/fish/stage3_action/manipulator.py:12-23 | the grasp of the given box is recorded with its outcome |
| CostModels.CostCalculator.PlanarDistance | P1_Fish_And_Fly/src/fish/stage3_action/cost_models.py:19-25 | the distance is never negative |
| CostModels.CostCalculator.Normalize | P1_Fish_And_Fly/src/fish/stage3_action/cost_models.py:28-34 | never above 1.0; the plain ratio below the clamp, exactly 1.0 at or above it, and the ratio for a value within [0, max] |
| CostModels.CostCalculator.TermsAt | P1_Fish_And_Fly/src/fish/stage3_action/cost_models.py:45-65 | every normalised term is at most 1.0 |
| CostModels.CostCalculator.CalculateDockingCost | P1_Fish_And_Fly/src/fish/stage3_action/cost_models.py:40-78 | a value exactly when the cruise speed and all limits are non-zero, ZeroDivisionError otherwise; the value is the weighted sum of the terms |
| CostModels.PlanarDistanceSymmetric | P1_Fish_And_Fly/src/fish/stage3_action/cost_models.py:22 | the distance from a to b equals the distance from b to a |
| CostModels.PlanarDistanceIgnoresDepth | P1_Fish_And_Fly/src/fish/stage3_action/cost_models.py:22 | changing either depth leaves the distance unchanged |
| CostModels.TermsDecomposition | P1_Fish_And_Fly/src/fish/stage3_action/cost_models.py:45-65 | energy is drag coefficient times the squared relative speed times distance; drag is the average drag force times distance; each term is its clamped ratio |
| CostModels.ZeroDistanceCost | P1_Fish_And_Fly/src/fish/stage3_action/cost_models.py:45-78 | at zero distance only the current, risk and uncertainty terms remain |
| CostModels.EqualDistanceEqualCost | P1_Fish_And_Fly/src/fish/stage3_action/cost_models.py:45-78 | two dump points at the same distance cost the same |
| MockEnv.QueriesIgnoreWaypoints | P1_Fish_And_Fly/src/fish/stage3_action/environment/mock_env.py:17-26 | the three queries return the constructor values whatever the waypoints |
| MockEnv.DefaultsAreZero | P1_Fish_And_Fly/src/fish/stage3_action/environment/mock_env.py:11-14 | the default environment answers 0.0 to every query |
| Navigator.SurfaceRoute | P1_Fish_And_Fly/src/fish/stage3_action/unload_behavior.py:55-76 | one leg straight to the destination at surface level; otherwise first up to the point at the surface above the current position |
| Unload.FirstMinIndex | P1_Fish_And_Fly/src/fish/stage3_action/unload_behavior.py:45-47 | the index of a least cost, and the first one among ties |
| Unload.Costs | P1_Fish_And_Fly/src/fish/stage3_action/unload_behavior.py:45-47 | one docking cost per dump point, in order |
| Unload.BestDockingPoint | P1_Fish_And_Fly/src/fish/stage3_action/unload_behavior.py:45-47 | ValueError for no dump points and ZeroDivisionError for an undefined cost; otherwise a dump point of least cost, the first among ties |
| Unload.UnloadGarbageBehavior.constructor | P1_Fish_And_Fly/src/fish/stage3_action/unload_behavior.py:24-32 | shares the given notifier and navigator; the built-in environment answers 0.5, 0.2 and 0.1 |
| Unload.UnloadGarbageBehavior.UnloadGarbage | P1_Fish_And_Fly/src/fish/stage3_action/unload_behavior.py:36-86 | stores the checkpoint and alerts the start; a dump-point failure propagates with no move; otherwise the legs of the surface route are issued in order, up to the first failure, the result is whether all were reached, and the end is notified exactly on success |
| ResultLogger.EntryFor | P1_Fish_And_Fly/src/fish/stage3_action/result_logger.py:37-47 | the entry carries the id, class and score of the intent and the status value as both states, with the fixed placeholder frames, age and confidence |
| ResultLogger.EntryIgnoresTrackedData | P1_Fish_And_Fly/src/fish/stage3_action/result_logger.py:37-47 | the entry depends only on the id, class, score and status |
| ResultLogger.OutcomeLogger.constructor | P1_Fish_And_Fly/src/fish/stage3_action/result_logger.py:12-14 | nothing logged yet |
| ResultLogger.OutcomeLogger.LogActionResults | P1_Fish_And_Fly/src/fish/stage3_action/result_logger.py:18-61 | a None or already-logged id writes nothing; a new id writes exactly its entry and is recorded; each id is written at most once |
| Alerts.AlertNotifier.constructor | P1_Fish_And_Fly/src/common/alerts_and_notifications/notifier.py:9-10 | nothing raised yet |
| Alerts.AlertNotifier.RaiseAlert | P1_Fish_And_Fly/src/common/alerts_and_notifications/notifier.py:13-15 | appends exactly that alert |
| Alerts.AlertNotifier.RaiseNotification | P1_Fish_And_Fly/src/common/alerts_and_notifications/notifier.py:17-18 | appends exactly that notification |
| MissionPlanner.AllowedPhasesAreActive | P1_Fish_And_Fly/src/fish/stage3_action/mission_planner.py:75-104 | a phase that allows grasping is active, but not conversely (DESCEND) |
| MissionPlanner.AbortOutcome | P1_Fish_And_Fly/src/fish/stage3_action/mission_planner.py:431-445 | after reaching headquarters, RETURN becomes DONE, ABORT and UNLOADING become FAILED, and all others stay |
| MissionPlanner.AbortAlerts | P1_Fish_And_Fly/src/fish/stage3_action/mission_planner.py:439-445 | at most one alert, raised exactly for ABORT and UNLOADING |
| MissionPlanner.AbortOutcomeEndsMission | P1_Fish_And_Fly/src/fish/stage3_action/mission_planner.py:431-445 | a completed abort ends the mission iff it began in an ended phase, in RETURN or in UNLOADING; an abort from another active phase leaves the mission active |
| MissionPlanner.FishMissionPlanner.constructor | P1_Fish_And_Fly/src/fish/stage3_action/mission_planner.py:31-60 | the collaborators are wired together, and the unloader's distance obeys the `hypot` laws; phase SURFACE, no target, zero counters, limits from the configuration, and one surface path set from the start point |
| MissionPlanner.FishMissionPlanner.MissionIsActive | P1_Fish_And_Fly/src/fish/stage3_action/mission_planner.py:63-85 | active iff the phase is not DONE, ABORT or FAILED |
| MissionPlanner.FishMissionPlanner.ActionIsAllowed | P1_Fish_And_Fly/src/fish/stage3_action/mission_planner.py:88-109 | allowed iff the phase is SURFACE or UNDERWATER |
| MissionPlanner.FishMissionPlanner.GetManualHelp | P1_Fish_And_Fly/src/fish/stage3_action/mission_planner.py:457-474 | raises exactly one MACHINE_FAILURE alert |
| MissionPlanner.FishMissionPlanner.AbortMission | P1_Fish_And_Fly/src/fish/stage3_action/mission_planner.py:391-453 | checkpoints the old phase; follows the route to headquarters, surfacing first when underwater, and stops at the first failed leg; a completed trip sets `AbortOutcome` and its alerts, while a failed one calls for help and keeps the phase |
| MissionPlanner.FishMissionPlanner.HandleFailure | P1_Fish_And_Fly/src/fish/stage3_action/mission_planner.py:272-301 | at most `max_retries - retry_count` further grasps of the same box, stopping at the first success; recovery iff the last grasp succeeded; on failure one more lost target; below the loss limit nothing else changes, and at the limit the abort follows the surface route to headquarters and leaves FAILED with HARD_ABORT on arrival, or ABORT with a help call, and an ABORT checkpoint |
| MissionPlanner.FishMissionPlanner.AttemptCollection | P1_Fish_And_Fly/src/fish/stage3_action/mission_planner.py:242-251 | at least one grasp; SUCCESS iff the last grasp succeeded, with the retry reason after a failed first grasp; a loss is counted only on failure; an abort happens only at the loss limit, and then leaves the phase, events and checkpoint that `HandleFailure` states; otherwise phase, events and checkpoint are unchanged |
| MissionPlanner.FishMissionPlanner.HandleTarget | P1_Fish_And_Fly/src/fish/stage3_action/mission_planner.py:219-268 | pause and resume frame the attempt; the load goes up by one iff the target was collected; active target and retry count are reset; a lost-target abort starts from the position after the pause and leaves the phase, events and checkpoint that `HandleFailure` states |
| MissionPlanner.FishMissionPlanner.AdvanceFromSurface | P1_Fish_And_Fly/src/fish/stage3_action/mission_planner.py:309-337 | notifies the end of the surface sweep, overwrites the end point's depth and moves there; a failed descent alerts and aborts, yet the phase still ends in UNDERWATER at underwater speed |
| MissionPlanner.FishMissionPlanner.AscendToStart | P1_Fish_And_Fly/src/fish/stage3_action/mission_planner.py:341-359 | notifies the end of the underwater sweep and moves to the start point; a failed ascent alerts and aborts, yet the phase still ends in RETURN |
| MissionPlanner.FishMissionPlanner.ReturnToHeadquarters | P1_Fish_And_Fly/src/fish/stage3_action/mission_planner.py:361-378 | moves to headquarters; on failure raises HQ_RETURN_FAIL and aborts from RETURN; either way notifies arrival and completion and ends in DONE |
| MissionPlanner.FishMissionPlanner.AdvancePhase | P1_Fish_And_Fly/src/fish/stage3_action/mission_planner.py:305-387 | SURFACE ends in UNDERWATER: the end point's depth is overwritten, the descent, any abort and the underwater `set_path` are the navigator calls, and the events are the sweep end, a DESCEND_FAIL alert with the abort's alerts on failure, and the descent notice; UNDERWATER ends in DONE with the ascent, the return and their aborts as the calls and the events in source order; the checkpoint changes only by an abort; any other phase changes nothing |
| MissionPlanner.FishMissionPlanner.UnloadBin | P1_Fish_And_Fly/src/fish/stage3_action/mission_planner.py:150-172 | a successful unload empties the bin and restores the checkpoint phase; a failed one aborts from UNLOADING and keeps the load; an unloader exception propagates |
| MissionPlanner.FishMissionPlanner.UnloadIfFull | P1_Fish_And_Fly/src/fish/stage3_action/mission_planner.py:143-172 | checkpoints phase and position; zero capacity raises with nothing else changed; below threshold nothing else changes; at threshold the bin alerts and the unload runs from the checkpoint, raising the unload start and, on success, end events, or the abort's events on failure, whose checkpoint records UNLOADING; a successful return leaves the phase the tick began in |
| MissionPlanner.FishMissionPlanner.ActOrStep | P1_Fish_And_Fly/src/fish/stage3_action/mission_planner.py:180-202 | collects only with an intent and a world object that the navigator finds near; otherwise one step reported as MOVED_FORWARD or NONE for the intent's id, with no grasp and no state change; a collection counts a loss iff it failed, aborts only at the loss limit with the phase, events and checkpoint of `HandleFailure`, and otherwise keeps them |
| MissionPlanner.FishMissionPlanner.AdvanceIfFinished | P1_Fish_And_Fly/src/fish/stage3_action/mission_planner.py:205-206 | exactly one `path_is_finished` query; a finished path moves the phase by `AdvancedPhase`, and an unfinished one changes nothing else; only an advance from SURFACE changes the configuration |
| MissionPlanner.FishMissionPlanner.ActThenAdvance | P1_Fish_And_Fly/src/fish/stage3_action/mission_planner.py:180-210 | after the collect-or-step comes one `path_is_finished` query; a finished path advances SURFACE to UNDERWATER and UNDERWATER to DONE, an unfinished one keeps the phase; that phase is the starting one unless a lost-target abort set FAILED or ABORT; the tick count goes up by one; the load goes up iff collected; a lost target is counted iff the feedback is FAILED; a collection resets the active target and retry count and a step keeps them; only an advance from SURFACE changes the configuration, overwriting the end point's depth |
| MissionPlanner.FishMissionPlanner.Tick | P1_Fish_And_Fly/src/fish/stage3_action/mission_planner.py:113-215 | a bin error propagates uncounted; a failed unload returns FAILED with no id, uncounted and without grasping; otherwise the tick is counted, the feedback is the collection or the step, the act step runs in the phase the tick began in (restored after an unload) unless a lost-target abort ended it, and the `path_is_finished` answer decides the advance by `AdvancedPhase`; the lost-target count, active target, retry count and configuration change as in `ActThenAdvance`, and not at all on an early return |

## Left out

- The navigator (`stage3_action/navigation.py`) is not part of this model. `Navigator.PathNavigator` is a stand-in with arbitrary answers and a call trace. Its methods take their position and speed effects as arbitrary too, so the model never assumes that `move_to` moves the robot.
- Manipulation.Manipulator.GraspGarbage: the source's placeholder returns false only for a missing box, and true otherwise. The model leaves the outcome free so that the retry and abort paths are reachable.
- The action pipeline (`stage3_action/pipeline.py`) only forwards to the executor, so the planner calls the executor directly.
- The environment interface (`environment/base.py`) is an abstract class. Only its mock implementation is modelled, as a datatype. The PyBullet environment uses foreign simulation objects.
- Alerts and notifications: the free-form metadata dictionaries and the logging side effect are dropped. Only the kind and the message are kept, in a ghost event sequence.
- Timestamps (`time.time()`): the mission start and end times and the checkpoint stamps are arbitrary values.
- The CSV logger's file writes are a ghost sequence of written entries.
- Vision, tracking, video input, user interface, configuration loading and the driver loop are outside the core.
- Floating point: arithmetic is over mathematical reals, with no IEEE rounding.
- `math.hypot` is a function value. Only non-negativity, evenness and zero at the origin are relied on.
- Ranking.SortedByScoreFacts: the in-place `list.sort` is modelled as a value, the insertion-sort function `SortedByScore`. Sortedness, permutation and stability are stated on it. The mutation of the local list in place is not modelled.
- CameraProjection.CameraToWorldProjector.ProjectImageToWorldFrame: requires a non-zero image width, where Python would raise ZeroDivisionError. The only caller always passes 1920.
- Unload.BestDockingPoint: the ValueError text of `min()` on an empty sequence is written as a plausible message, not CPython's exact wording.
- MockEnv.MockEnvironmentModel.CurrentOpposition, ObstacleDensity and LocalizationUncertainty: the three queries carry no contract of their own. `MockEnv.QueriesIgnoreWaypoints` states what they return.
- WorldProjection.TransformAsWritten: its contract covers only the empty list. `WorldProjection.AsWrittenRaisesOnAnyObject` covers the raising case.
- MissionPlanner.FishMissionPlanner.AdvanceFromSurface: after a failed descent, the mission carries on into the underwater phase, overwriting the abort's phase. This is the code's behaviour, and it is modelled without a corrected version.
- Aliasing: the navigator position and the configured end point are overwritten in place (`mission_planner.py:316,417`). These updates are modelled on the fields they affect: `mission_cfg.end_point` and the checkpoint's position. Other aliases of the same waypoint objects are not tracked.
- MissionPlanner.FishMissionPlanner.Tick: states the phase, the feedback, the load, the counters, the tick count, the grasps, the configuration and the unload checkpoint after a tick, but not the notifier events or the mission checkpoint. `UnloadIfFull`, `ActOrStep` and `AdvancePhase` state those for their steps, and they are not lifted to the tick.
- MissionPlanner.FishMissionPlanner.ActThenAdvance: states the phase, the counters, the configuration and the navigator query, but not the notifier events or the checkpoint after the step and the advance. `ActOrStep` and `AdvancePhase` state those.
- MissionPlanner.FishMissionPlanner.AdvanceIfFinished: on a finished path, states the phase and the configuration but not the events, the checkpoint or the navigator calls of the advance. `AdvancePhase` states those.
- The aggregator's `max_history` setting is stored but never used by the code.

## Findings

| source | as written | input that shows it | evidently intended | confidence | as-written member | corrected member |
|---|---|---|---|---|---|---|
| P1_Fish_And_Fly/src/fish/stage2_decision/pipeline.py:40 | calls `rule_filter.hard_rules_apply`, which `RuleFilter` does not define (it defines `apply_hard_rules`), so every run raises AttributeError | any tracked list, e.g. one Stable object passing all rules with no lock held | apply the hard rules and go on to score, rank, lock and plan | not executed | DecisionPipeline.RunAsWrittenNeverDecides | DecisionPipeline.DecideLocksBest |
| P1_Fish_And_Fly/src/common/projection/world_projection.py:59 | passes the whole tracked object as the only argument of `project_image_to_world_frame(track_id, bbox)`, so any non-empty list raises TypeError | a single active object | project each object from its own track id and box | not executed | WorldProjection.AsWrittenRaisesOnAnyObject | WorldProjection.TransformToWorldFrame |
| P1_Fish_And_Fly/src/fish/stage2_decision/selector.py:117-127 | builds commands with `LifeCycleAction.FAILED` and `UNATTEMPTED`, which the enum in `command.py` lacks, so FAILED, MOVED_FORWARD or NONE feedback for the locked id raises AttributeError and the lock is never released | lock 7, feedback FAILED for track id 7 | emit a FAILED or UNATTEMPTED command for the locked id and release the lock | not executed | Selector.FailedFeedbackRaises | Selector.SelectionLock.HandleActionFeedback |
