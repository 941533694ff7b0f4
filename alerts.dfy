/** Alert and notification kinds and the notifier that raises them
    (common/alerts_and_notifications). The notifier only logs; the model keeps what it was
    asked to raise as a ghost event sequence, dropping the free-form metadata dictionaries. */
module Alerts {

  datatype AlertType =
    | BinFull
    | HqReturnFail
    | SurfaceCleanupFail
    | UnderwaterCleanupFail
    | DescendFail
    | AscendFail
    | UnloadingFail
    | ObstacleAlert
    | ThreatDetected
    | MachineLost
    | MachineFailure
    | MachineDamage
    | HardAbort

  datatype NotificationType =
    | MissionStarted
    | WorkspaceDetected
    | DumpPointsSelected
    | GarbageUnloadingStarted
    | GarbageUnloadingEnded
    | MissionCompleted
    | SurfaceCleaningEnded
    | MachineDescended
    | UnderwaterCleaningEnded
    | MachineAscended
    | ReachedHeadquarter

  /** One call made to the notifier. */
  datatype Event =
    | Alert(alertType: AlertType, message: string)
    | Notification(notificationType: NotificationType, message: string)

  class AlertNotifier {
    /** Everything raised through this notifier, oldest first. */
    ghost var events: seq<Event>

    constructor ()
      ensures events == []
    {
      events := [];
    }

    method RaiseAlert(alertType: AlertType, message: string)
      modifies this
      ensures events == old(events) + [Alert(alertType, message)]
    {
      events := events + [Alert(alertType, message)];
    }

    method RaiseNotification(notificationType: NotificationType, message: string)
      modifies this
      ensures events == old(events) + [Notification(notificationType, message)]
    {
      events := events + [Notification(notificationType, message)];
    }
  }
}
