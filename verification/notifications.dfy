/**
 * The notification content model the registry and the sender work on.
 *
 * A notification is compared structurally, which is what makes it usable as
 * the registry's deduplication key. Its channel affinity says whether it is a
 * `SystemNotification`, an `InAppNotification`, or both; a notification that
 * is neither cannot be expressed here.
 */
module Notifications {

  datatype Severity = Information | Warning | Critical

  datatype Channels = SystemOnly | InAppOnly | SystemAndInApp

  datatype Notification = Notification(title: string, severity: Severity, channels: Channels)
  {
    predicate IsSystemNotification() {
      channels != InAppOnly
    }

    predicate IsInAppNotification() {
      channels != SystemOnly
    }
  }

  /** The opaque identifier the registry hands out. */
  datatype NotificationId = NotificationId(value: int)
}
