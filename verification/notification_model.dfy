/** The Notification document (src/models/Notification.js). */
module NotificationModel {
  import opened Outcomes

  type NotificationId = Id

  /** The four values of the required `type` enum: "job_assigned",
      "job_completed", "review" and "message". */
  datatype NotificationType = JobAssigned | JobCompleted | ReviewPosted | ChatMessage

  /** A notification. `createdAt` is the timestamp Mongoose adds on insert. */
  datatype Notification = Notification(
    id: NotificationId,
    userId: Id,
    title: string,
    message: string,
    kind: NotificationType,
    read: bool,
    metadata: Option<map<string, string>>,
    createdAt: nat)

  /** A new notification document: `userId`, `title`, `message` and `type`
      are required (an empty string fails `required`), `read` defaults to
      false and `metadata` may be absent. */
  function NewNotification(id: NotificationId, userId: Id, title: string, message: string,
                           kind: NotificationType, metadata: Option<map<string, string>>,
                           createdAt: nat): (r: Option<Notification>)
    ensures r.Some? <==> title != "" && message != ""
    ensures r.Some? ==> !r.value.read
    ensures r.Some? ==> r.value.id == id && r.value.userId == userId && r.value.kind == kind
    ensures r.Some? ==> r.value.title == title && r.value.message == message
    ensures r.Some? ==> r.value.metadata == metadata && r.value.createdAt == createdAt
  {
    if title == "" || message == "" then None
    else Some(Notification(id, userId, title, message, kind, false, metadata, createdAt))
  }
}
