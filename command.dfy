/** The only lifecycle messages the decision stage sends to the vision stage (stage2_decision/command.py). */
module Command {
  import opened VisionEntity

  /** `command.py` declares only Select, MarkDone and Lost. The selector also builds
      Failed and Unattempted, which do not exist there; they are kept here so that
      its intended mapping can be stated. */
  datatype LifeCycleAction = Select | MarkDone | Lost | Failed | Unattempted

  datatype LifeCycleCommand = LifeCycleCommand(action: LifeCycleAction, trackId: TrackId)
}
