/** The notification records shared by the notification service and the views.
    Enumerations carry an extra variant for a wire value outside the enumeration, since
    the records arrive as JSON and the code's `switch` statements have `default` branches. */
module NotificationModel {
  import opened Wrappers

  datatype NotificationType = Alert | Task | Info | OtherType(wire: string)

  datatype Priority = Urgent | Normal | Low | OtherPriority(wire: string)

  datatype NotificationStatus = Read | Unread

  /** The string value of each enumeration member. */
  function TypeName(t: NotificationType): string {
    match t
    case Alert => "ALERT"
    case Task => "TASK"
    case Info => "INFO"
    case OtherType(w) => w
  }

  function PriorityName(p: Priority): string {
    match p
    case Urgent => "URGENT"
    case Normal => "NORMAL"
    case Low => "LOW"
    case OtherPriority(w) => w
  }

  function StatusName(s: NotificationStatus): string {
    match s
    case Read => "READ"
    case Unread => "UNREAD"
  }

  /** A priority as it can arrive on the wire: an `OtherPriority` never spells a member's value. */
  predicate WirePriority(p: Priority) {
    p.OtherPriority? ==> p.wire !in {"URGENT", "NORMAL", "LOW"}
  }

  predicate WireType(t: NotificationType) {
    t.OtherType? ==> t.wire !in {"ALERT", "TASK", "INFO"}
  }

  /** The values the records hold: exactly the ones a JSON string can stand for. */
  type PriorityValue = p: Priority | WirePriority(p) witness Urgent

  type TypeValue = t: NotificationType | WireType(t) witness Alert

  /** Reading a wire string: a member's value gives that member, anything else is kept as it is. */
  function TypeOfWire(w: string): (t: TypeValue)
    ensures TypeName(t) == w
  {
    if w == "ALERT" then Alert else if w == "TASK" then Task else if w == "INFO" then Info else OtherType(w)
  }

  function PriorityOfWire(w: string): (p: PriorityValue)
    ensures PriorityName(p) == w
  {
    if w == "URGENT" then Urgent else if w == "NORMAL" then Normal else if w == "LOW" then Low else OtherPriority(w)
  }

  /** Writing a wire priority and reading it back gives the same priority. */
  lemma PriorityWireRoundTrip(p: PriorityValue)
    ensures PriorityOfWire(PriorityName(p)) == p
  {
  }

  lemma TypeWireRoundTrip(t: TypeValue)
    ensures TypeOfWire(TypeName(t)) == t
  {
  }

  /** Dates are kept as their time value in milliseconds. */
  datatype Notification = Notification(
    id: string,
    notificationType: TypeValue,
    priority: PriorityValue,
    message: string,
    status: NotificationStatus,
    createdAt: int,
    readAt: Option<int>,
    sentBySystem: bool,
    creatorName: string,
    createdById: Option<string>)

  datatype CreateNotificationDTO = CreateNotificationDTO(
    notificationType: TypeValue,
    priority: PriorityValue,
    message: string,
    recipientIds: seq<string>,
    sentBySystem: Option<bool>)

  datatype SortDirection = Asc | Desc

  datatype NotificationFilter = NotificationFilter(
    status: Option<NotificationStatus>,
    notificationType: Option<TypeValue>,
    priority: Option<PriorityValue>,
    startDate: Option<int>,
    endDate: Option<int>,
    page: Option<int>,
    size: Option<int>,
    sortBy: Option<string>,
    sortDirection: Option<SortDirection>)

  /** The four counters are whatever the server last sent; nothing here computes them. */
  datatype NotificationStats = NotificationStats(
    totalNotifications: int,
    unreadCount: int,
    readCount: int,
    urgentUnreadCount: int)
}
